/** `CreditService`: prices content types and moves credits on a user's account. */
module Credits {
  import opened Enums
  import opened Accounts

  /** `hasEnoughCredits`: the balance covers the price of one generation of type `t`. */
  predicate HasEnoughCredits(user: User, t: ContentType)
    reads user
  {
    user.HasCredits(CreditCost(t))
  }

  /** `getBalance`. */
  function GetBalance(user: User): int
    reads user
  {
    user.credits
  }

  /** `deductCredits`: charge the price of `t`. In this sequential model the refresh
      from storage re-reads the value already held, so the re-check and the
      withdrawal see the same balance. */
  method DeductCredits(user: User, t: ContentType) returns (ok: bool)
    modifies user
    ensures ok <==> old(user.credits) >= CreditCost(t)
    ensures ok ==> user.credits == old(user.credits) - CreditCost(t)
    ensures ok ==> user.totalGenerations == old(user.totalGenerations) + 1
    ensures !ok ==> user.credits == old(user.credits) && user.totalGenerations == old(user.totalGenerations)
    ensures ok ==> user.credits < old(user.credits)
  {
    var cost := CreditCost(t);
    if !user.HasCredits(cost) {
      return false;
    }
    ok := user.DeductCredits(cost);
  }

  /** `refundCredits`: give back the price of `t`, unconditionally. */
  method RefundCredits(user: User, t: ContentType)
    modifies user
    ensures user.credits == old(user.credits) + CreditCost(t)
    ensures user.totalGenerations == old(user.totalGenerations)
  {
    user.AddCredits(CreditCost(t));
  }

  /** A successful charge followed by a refund of the same type restores the
      balance, but the generation it paid for stays counted. */
  method ChargeThenRefund(user: User, t: ContentType) returns (charged: bool)
    modifies user
    ensures charged <==> old(user.credits) >= CreditCost(t)
    ensures user.credits == old(user.credits)
    ensures charged ==> user.totalGenerations == old(user.totalGenerations) + 1
    ensures !charged ==> user.totalGenerations == old(user.totalGenerations)
  {
    charged := DeductCredits(user, t);
    if charged {
      RefundCredits(user, t);
    }
  }

  /** One row of `getPricing`. */
  datatype Pricing = Pricing(contentType: string, typeLabel: string, credits: int)

  /** `getPricing`: one entry per content type, keyed by its backing value and
      carrying that type's value, label and price; no other keys. */
  function GetPricing(): (r: map<string, Pricing>)
    ensures |r| == |AllContentTypes|
    ensures forall k :: k in r ==> ParseType(k).Some?
    ensures forall t: ContentType ::
              TypeValue(t) in r && r[TypeValue(t)] == Pricing(TypeValue(t), TypeLabel(t), CreditCost(t))
  {
    var r := PricingOf(AllContentTypes);
    forall t: ContentType
      ensures TypeValue(t) in r && r[TypeValue(t)] == Pricing(TypeValue(t), TypeLabel(t), CreditCost(t))
    {
      AllContentTypesComplete(t);
    }
    KeysAreTheFiveValues(r);
    r
  }

  /** The pricing entries of the listed types. */
  function PricingOf(ts: seq<ContentType>): (r: map<string, Pricing>)
    ensures forall k :: k in r ==> ParseType(k).Some?
    ensures forall t :: t in ts ==>
              TypeValue(t) in r && r[TypeValue(t)] == Pricing(TypeValue(t), TypeLabel(t), CreditCost(t))
  {
    if ts == [] then map[]
    else
      var t := ts[|ts| - 1];
      assert forall u :: u in ts ==> u == t || u in ts[..|ts| - 1];
      ParseTypeRoundTrip(t, TypeValue(t));
      PricingOf(ts[..|ts| - 1])[TypeValue(t) := Pricing(TypeValue(t), TypeLabel(t), CreditCost(t))]
  }

  lemma KeysAreTheFiveValues(r: map<string, Pricing>)
    requires forall k :: k in r ==> ParseType(k).Some?
    requires forall t: ContentType :: TypeValue(t) in r
    ensures |r| == 5
  {
    var values := {TypeValue(Article), TypeValue(Rewrite), TypeValue(Summary), TypeValue(Email), TypeValue(Translation)};
    forall k | k in r
      ensures k in values
    {
      var t := ParseType(k).value;
      assert k == TypeValue(t);
    }
    assert r.Keys == values;
  }
}
