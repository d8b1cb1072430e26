/** The account side of the ledger: a user's spendable balance (`credits`) and
    lifetime count of paid generations (`total_generations`), both updated in place. */
module Accounts {

  /** Balance given to every newly registered user. */
  const StartingCredits: int := 100

  class User {
    const id: nat
    var credits: int
    var totalGenerations: int

    /** A freshly registered user: the starting balance and no generations yet. */
    constructor Register(id: nat)
      ensures this.id == id
      ensures credits == StartingCredits && totalGenerations == 0
    {
      this.id := id;
      credits := StartingCredits;
      totalGenerations := 0;
    }

    /** `hasCredits`: the balance covers `amount`. */
    predicate HasCredits(amount: int)
      reads this
    {
      credits >= amount
    }

    /** `deductCredits`: a guarded withdrawal. When the balance does not cover
        `amount` nothing changes; otherwise the balance drops by exactly `amount` and
        one more generation is counted. A successful withdrawal never leaves a
        negative balance, whatever the balance was before. */
    method DeductCredits(amount: int) returns (ok: bool)
      modifies this
      ensures ok <==> old(credits) >= amount
      ensures ok ==> credits == old(credits) - amount && totalGenerations == old(totalGenerations) + 1
      ensures !ok ==> credits == old(credits) && totalGenerations == old(totalGenerations)
      ensures ok ==> credits >= 0
    {
      if !HasCredits(amount) {
        return false;
      }
      credits := credits - amount;
      totalGenerations := totalGenerations + 1;
      return true;
    }

    /** `addCredits`: the balance rises by exactly `amount`; the generation count
        is untouched. */
    method AddCredits(amount: int)
      modifies this
      ensures credits == old(credits) + amount
      ensures totalGenerations == old(totalGenerations)
    {
      credits := credits + amount;
    }
  }
}
