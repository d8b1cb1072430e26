/** `ContentHistoryController`: the caller's history with optional type and status
    filters and a capped page size, one record by uuid, and usage statistics. */
module History {
  import opened Php
  import opened Enums
  import opened Accounts
  import opened Generations
  import opened Store
  import opened Orchestration

  const DefaultPerPage := 15
  const MaxPerPage := 100

  /** The query string of `index`: each filter absent or the raw value sent, and the
      requested page size if any. */
  datatype IndexRequest = IndexRequest(typeFilter: Option<string>, statusFilter: Option<string>,
                                       perPage: Option<int>)

  /** `min($request->input('per_page', 15), 100)`. */
  function PerPage(requested: Option<int>): (n: int)
    ensures n <= MaxPerPage
    ensures requested.None? ==> n == DefaultPerPage
    ensures requested.Some? && requested.value <= MaxPerPage ==> n == requested.value
    ensures requested.Some? && requested.value >= MaxPerPage ==> n == MaxPerPage
  {
    var wanted := requested.GetOr(DefaultPerPage);
    if wanted < MaxPerPage then wanted else MaxPerPage
  }

  /** The `where` clauses `index` puts on the caller's records: one for the type
      and one for the status, each only when that parameter was sent. */
  function IndexCriteria(user: User, req: IndexRequest): seq<Criterion> {
    var owned := [UserIs(user.id)];
    var typed := if req.typeFilter.Some? then owned + [TypeValueIs(req.typeFilter.value)] else owned;
    if req.statusFilter.Some? then typed + [StatusValueIs(req.statusFilter.value)] else typed
  }

  /** What a record must satisfy to be listed by `index`. */
  predicate Listed(g: ContentGeneration, user: User, req: IndexRequest)
    reads g
  {
    && g.userId == user.id
    && (req.typeFilter.Some? ==> TypeValue(g.contentType) == req.typeFilter.value)
    && (req.statusFilter.Some? ==> StatusValue(g.status) == req.statusFilter.value)
  }

  /** The clauses select exactly the listed records. */
  lemma IndexCriteriaMeaning(g: ContentGeneration, user: User, req: IndexRequest)
    ensures MatchesAll(g, IndexCriteria(user, req)) <==> Listed(g, user, req)
  {
    var owned := [UserIs(user.id)];
    assert owned[1..] == [];
    assert MatchesAll(g, owned) <==> g.userId == user.id;
    var typed := if req.typeFilter.Some? then owned + [TypeValueIs(req.typeFilter.value)] else owned;
    if req.typeFilter.Some? {
      MatchesAppend(g, owned, TypeValueIs(req.typeFilter.value));
    }
    if req.statusFilter.Some? {
      MatchesAppend(g, typed, StatusValueIs(req.statusFilter.value));
    }
  }

  /** `index`: the caller's records, newest first, narrowed by the filters that were
      sent, with the capped page size. */
  function Index(gs: seq<ContentGeneration>, user: User, req: IndexRequest): (r: Listing)
    reads set g | g in gs
    ensures r.perPage == PerPage(req.perPage) && r.perPage <= MaxPerPage
    ensures forall g :: g in r.items ==> g in gs && Listed(g, user, req)
    ensures forall g :: g in gs && Listed(g, user, req) ==> g in r.items
    ensures multiset(r.items) <= multiset(gs)
    ensures forall g :: g in gs && Listed(g, user, req) ==> multiset(r.items)[g] == multiset(gs)[g]
    ensures NewestFirst(r.items)
  {
    var items := LatestWhere(gs, IndexCriteria(user, req));
    forall g | g in gs
      ensures MatchesAll(g, IndexCriteria(user, req)) <==> Listed(g, user, req)
    {
      IndexCriteriaMeaning(g, user, req);
    }
    Listing(items, PerPage(req.perPage))
  }

  /** Without filters `index` lists every record of the caller and no other. */
  lemma UnfilteredIndexListsAllOwn(gs: seq<ContentGeneration>, user: User, perPage: Option<int>, g: ContentGeneration)
    requires g in gs
    ensures g in Index(gs, user, IndexRequest(None, None, perPage)).items <==> g.userId == user.id
  {
  }

  /** `show`: the caller's record with that uuid, of any type, or not found. */
  function Show(gs: seq<ContentGeneration>, user: User, uuid: string): (r: Option<ContentGeneration>)
    reads set g | g in gs
    ensures r.Some? ==> r.value in gs && r.value.userId == user.id && r.value.uuid == uuid
    ensures r.None? <==> forall g :: g in gs ==> !(g.userId == user.id && g.uuid == uuid)
  {
    var found := Where(gs, [UserIs(user.id), UuidIs(uuid)]);
    MatchesTwo(UserIs(user.id), UuidIs(uuid));
    assert found != [] ==> found[0] in found;
    First(found)
  }

  /** With unique uuids `show` finds the caller's record whatever its type, and
      another user's record is never shown: asking for its uuid is not found. */
  lemma ShowIsScopedToOwner(gs: seq<ContentGeneration>, user: User, g: ContentGeneration)
    requires UuidsUnique(gs) && g in gs
    ensures g.userId == user.id ==> Show(gs, user, g.uuid) == Some(g)
    ensures g.userId != user.id ==> Show(gs, user, g.uuid).None?
  {
    if g.userId == user.id {
      MatchesTwo(UserIs(user.id), UuidIs(g.uuid));
      assert [UserIs(user.id), UuidIs(g.uuid)] == [UserIs(user.id)] + [UuidIs(g.uuid)];
      assert [UserIs(user.id)][1..] == [];
      LookupFindsUnique(gs, [UserIs(user.id)], g);
    } else {
      forall h | h in gs && h.userId == user.id && h.uuid == g.uuid
        ensures false
      {
        UniqueUuidsIdentify(gs, g, h);
      }
    }
  }

  /** Number of records of type `t`. */
  function CountOfType(gs: seq<ContentGeneration>, t: ContentType): (n: nat)
    reads set g | g in gs
    ensures n <= |gs|
    ensures n == 0 <==> forall g :: g in gs ==> g.contentType != t
  {
    if gs == [] then 0
    else (if gs[0].contentType == t then 1 else 0) + CountOfType(gs[1..], t)
  }

  /** Sum of `credits_used` over the records of type `t`. */
  function CreditsOfType(gs: seq<ContentGeneration>, t: ContentType): int
    reads set g | g in gs
  {
    if gs == [] then 0
    else (if gs[0].contentType == t then gs[0].creditsUsed else 0) + CreditsOfType(gs[1..], t)
  }

  /** Number of records with status `s`. */
  function CountOfStatus(gs: seq<ContentGeneration>, s: ContentStatus): (n: nat)
    reads set g | g in gs
    ensures n <= |gs|
    ensures n == 0 <==> forall g :: g in gs ==> g.status != s
  {
    if gs == [] then 0
    else (if gs[0].status == s then 1 else 0) + CountOfStatus(gs[1..], s)
  }

  /** The status count is the size of the query `->where('status', s)->count()`. */
  lemma {:induction false} StatusCountIsQueryCount(gs: seq<ContentGeneration>, s: ContentStatus)
    ensures CountOfStatus(gs, s) == |Where(gs, [StatusIs(s)])|
  {
    if gs != [] {
      assert [StatusIs(s)][1..] == [];
      assert MatchesAll(gs[0], [StatusIs(s)]) <==> gs[0].status == s;
      StatusCountIsQueryCount(gs[1..], s);
    }
  }

  /** Sum of `credits_used`. */
  function CreditsSpent(gs: seq<ContentGeneration>): int
    reads set g | g in gs
  {
    if gs == [] then 0 else gs[0].creditsUsed + CreditsSpent(gs[1..])
  }

  /** One `by_type` entry. */
  datatype TypeStats = TypeStats(count: nat, creditsSpent: int)

  /** The `overview` block. */
  datatype Overview = Overview(totalGenerations: nat, completed: nat, failed: nat,
                               totalCreditsSpent: int, currentBalance: int)

  datatype Stats = Stats(overview: Overview, byType: map<string, TypeStats>)

  /** The grouped rows of the listed types that occur, keyed by the type's value. */
  function GroupByType(gs: seq<ContentGeneration>, ts: seq<ContentType>): (m: map<string, TypeStats>)
    reads set g | g in gs
    ensures forall k :: k in m ==> ParseType(k).Some? && ParseType(k).value in ts && CountOfType(gs, ParseType(k).value) > 0
    ensures forall t :: t in ts && CountOfType(gs, t) > 0 ==>
              TypeValue(t) in m && m[TypeValue(t)] == TypeStats(CountOfType(gs, t), CreditsOfType(gs, t))
  {
    if ts == [] then map[]
    else
      var t := ts[|ts| - 1];
      var rest := GroupByType(gs, ts[..|ts| - 1]);
      assert forall u :: u in ts ==> u == t || u in ts[..|ts| - 1];
      ParseTypeRoundTrip(t, TypeValue(t));
      if CountOfType(gs, t) > 0 then
        var m := rest[TypeValue(t) := TypeStats(CountOfType(gs, t), CreditsOfType(gs, t))];
        assert forall u :: u in ts && TypeValue(u) == TypeValue(t) ==> u == t by {
          forall u | u in ts && TypeValue(u) == TypeValue(t) {
            TypeValueInjective(u, t);
          }
        }
        m
      else rest
  }

  /** `stats`: aggregates over the caller's records and the caller's balance. */
  function UsageStats(gs: seq<ContentGeneration>, user: User): (r: Stats)
    reads user, set g | g in gs
    ensures var mine := Where(gs, [UserIs(user.id)]);
            && r.overview == Overview(|mine|, CountOfStatus(mine, Completed), CountOfStatus(mine, Failed),
                                      CreditsSpent(mine), user.credits)
            && (forall t: ContentType :: TypeValue(t) in r.byType <==> CountOfType(mine, t) > 0)
            && (forall t: ContentType :: TypeValue(t) in r.byType ==>
                  r.byType[TypeValue(t)] == TypeStats(CountOfType(mine, t), CreditsOfType(mine, t)))
            && (forall k :: k in r.byType ==> ParseType(k).Some?)
  {
    var mine := Where(gs, [UserIs(user.id)]);
    var byType := GroupByType(mine, AllContentTypes);
    forall t: ContentType
      ensures TypeValue(t) in byType <==> CountOfType(mine, t) > 0
    {
      AllContentTypesComplete(t);
      ParseTypeRoundTrip(t, TypeValue(t));
    }
    Stats(Overview(|mine|, CountOfStatus(mine, Completed), CountOfStatus(mine, Failed),
                   CreditsSpent(mine), user.credits),
          byType)
  }

  /** The five per-type counts add up to the number of records. */
  lemma {:induction false} TypeCountsPartition(gs: seq<ContentGeneration>)
    ensures CountOfType(gs, Article) + CountOfType(gs, Rewrite) + CountOfType(gs, Summary)
            + CountOfType(gs, Email) + CountOfType(gs, Translation) == |gs|
  {
    if gs != [] {
      TypeCountsPartition(gs[1..]);
    }
  }

  /** The five per-type credit sums add up to the total credits spent. */
  lemma {:induction false} TypeCreditsPartition(gs: seq<ContentGeneration>)
    ensures CreditsOfType(gs, Article) + CreditsOfType(gs, Rewrite) + CreditsOfType(gs, Summary)
            + CreditsOfType(gs, Email) + CreditsOfType(gs, Translation) == CreditsSpent(gs)
  {
    if gs != [] {
      TypeCreditsPartition(gs[1..]);
    }
  }

  /** A type with no records contributes no credits. */
  lemma {:induction false} AbsentTypeSpendsNothing(gs: seq<ContentGeneration>, t: ContentType)
    requires CountOfType(gs, t) == 0
    ensures CreditsOfType(gs, t) == 0
  {
    if gs != [] {
      AbsentTypeSpendsNothing(gs[1..], t);
    }
  }

  /** Completed and failed records are disjoint, so together they are at most all. */
  lemma {:induction false} CompletedAndFailedAtMostTotal(gs: seq<ContentGeneration>)
    ensures CountOfStatus(gs, Completed) + CountOfStatus(gs, Failed) <= |gs|
  {
    if gs != [] {
      CompletedAndFailedAtMostTotal(gs[1..]);
    }
  }

  /** The `by_type` entry of `t`, or zero when absent. */
  function EntryOr(byType: map<string, TypeStats>, t: ContentType): TypeStats {
    if TypeValue(t) in byType then byType[TypeValue(t)] else TypeStats(0, 0)
  }

  /** The `by_type` counts add up to `total_generations` and their credits to
      `total_credits_spent`; completed plus failed never exceed the total. */
  lemma StatsAreConsistent(gs: seq<ContentGeneration>, user: User)
    ensures var r := UsageStats(gs, user);
            && EntryOr(r.byType, Article).count + EntryOr(r.byType, Rewrite).count
               + EntryOr(r.byType, Summary).count + EntryOr(r.byType, Email).count
               + EntryOr(r.byType, Translation).count == r.overview.totalGenerations
            && EntryOr(r.byType, Article).creditsSpent + EntryOr(r.byType, Rewrite).creditsSpent
               + EntryOr(r.byType, Summary).creditsSpent + EntryOr(r.byType, Email).creditsSpent
               + EntryOr(r.byType, Translation).creditsSpent == r.overview.totalCreditsSpent
            && r.overview.completed + r.overview.failed <= r.overview.totalGenerations
  {
    var mine := Where(gs, [UserIs(user.id)]);
    var r := UsageStats(gs, user);
    forall t: ContentType
      ensures EntryOr(r.byType, t) == TypeStats(CountOfType(mine, t), CreditsOfType(mine, t))
    {
      if TypeValue(t) !in r.byType {
        AbsentTypeSpendsNothing(mine, t);
      }
    }
    TypeCountsPartition(mine);
    TypeCreditsPartition(mine);
    CompletedAndFailedAtMostTotal(mine);
  }
}
