/** The persistence the services and controllers query: the `content_generations`
    table as a sequence of records in insertion order, the job queue as a sequence,
    and the `where` / `latest` / `first` query steps the code chains together. */
module Store {
  import opened Php
  import opened Enums
  import opened Generations

  /** The job classes that the services dispatch. */
  datatype JobKind = GenerateArticle | RewriteText | SummarizeText | GenerateEmail | TranslateText

  /** A dispatched job: which job class, for which record. */
  datatype QueuedJob = QueuedJob(kind: JobKind, generation: ContentGeneration)

  /** One equality constraint of a query (`->where(column, value)`). Type and status
      can be constrained by case or by the raw string a client sent. */
  datatype Criterion =
    | UserIs(userId: nat)
    | TypeIs(contentType: ContentType)
    | TypeValueIs(typeValue: string)
    | UuidIs(uuid: string)
    | StatusIs(status: ContentStatus)
    | StatusValueIs(statusValue: string)

  predicate Matches(g: ContentGeneration, c: Criterion)
    reads g
  {
    match c
    case UserIs(id) => g.userId == id
    case TypeIs(t) => g.contentType == t
    case TypeValueIs(v) => TypeValue(g.contentType) == v
    case UuidIs(u) => g.uuid == u
    case StatusIs(s) => g.status == s
    case StatusValueIs(v) => StatusValue(g.status) == v
  }

  /** The record satisfies every one of the clauses. */
  predicate MatchesAll(g: ContentGeneration, criteria: seq<Criterion>)
    reads g
  {
    criteria == [] || (Matches(g, criteria[0]) && MatchesAll(g, criteria[1..]))
  }

  /** A query with two clauses holds exactly when both do. */
  lemma MatchesTwo(a: Criterion, b: Criterion)
    ensures forall g: ContentGeneration {:trigger MatchesAll(g, [a, b])} ::
              MatchesAll(g, [a, b]) <==> Matches(g, a) && Matches(g, b)
  {
    forall g: ContentGeneration
      ensures MatchesAll(g, [a, b]) <==> Matches(g, a) && Matches(g, b)
    {
      assert [a, b][1..] == [b];
      assert [b][1..] == [];
      assert MatchesAll(g, []);
      assert MatchesAll(g, [b]) <==> Matches(g, b);
    }
  }

  /** Adding a clause to a query narrows it by exactly that clause. */
  lemma {:induction false} MatchesAppend(g: ContentGeneration, criteria: seq<Criterion>, c: Criterion)
    ensures MatchesAll(g, criteria + [c]) <==> MatchesAll(g, criteria) && Matches(g, c)
  {
    if criteria == [] {
      assert [c][1..] == [];
    } else {
      assert (criteria + [c])[1..] == criteria[1..] + [c];
      MatchesAppend(g, criteria[1..], c);
    }
  }

  /** A query with three clauses holds exactly when all three do. */
  lemma MatchesThree(a: Criterion, b: Criterion, c: Criterion)
    ensures forall g: ContentGeneration {:trigger MatchesAll(g, [a, b, c])} ::
              MatchesAll(g, [a, b, c]) <==> Matches(g, a) && Matches(g, b) && Matches(g, c)
  {
    assert [a, b, c][1..] == [b, c];
    MatchesTwo(b, c);
  }

  /** Records are listed newest first: creation times never increase along the list. */
  ghost predicate NewestFirst(gs: seq<ContentGeneration>) {
    forall i, j :: 0 <= i < j < |gs| ==> gs[i].createdAt >= gs[j].createdAt
  }

  /** `gs` keeps some of the elements of `hs`, in their relative order. */
  ghost predicate Subsequence(gs: seq<ContentGeneration>, hs: seq<ContentGeneration>)
    decreases |hs|
  {
    if gs == [] then true
    else if hs == [] then false
    else if gs[0] == hs[0] then Subsequence(gs[1..], hs[1..])
    else Subsequence(gs, hs[1..])
  }

  /** A query with the given `where` clauses: exactly the records that satisfy all of
      them, in the order of `gs`. */
  function Where(gs: seq<ContentGeneration>, criteria: seq<Criterion>): (r: seq<ContentGeneration>)
    reads set g | g in gs
    ensures forall g :: g in r ==> g in gs && MatchesAll(g, criteria)
    ensures forall g :: g in gs && MatchesAll(g, criteria) ==> g in r
    ensures |r| <= |gs|
    ensures Subsequence(r, gs)
  {
    if gs == [] then []
    else
      var rest := Where(gs[1..], criteria);
      if MatchesAll(gs[0], criteria) then [gs[0]] + rest else rest
  }

  /** A query keeps each matching record as many times as it is stored, and adds none. */
  lemma {:induction false} WhereCounts(gs: seq<ContentGeneration>, criteria: seq<Criterion>)
    ensures multiset(Where(gs, criteria)) <= multiset(gs)
    ensures forall g :: g in gs && MatchesAll(g, criteria) ==> multiset(Where(gs, criteria))[g] == multiset(gs)[g]
  {
    if gs != [] {
      WhereCounts(gs[1..], criteria);
      assert gs == [gs[0]] + gs[1..];
    }
  }

  /** `->where(...)->latest()`: the records matching every criterion, each as often as
      it is stored, newest first. */
  function LatestWhere(gs: seq<ContentGeneration>, criteria: seq<Criterion>): (r: seq<ContentGeneration>)
    reads set g | g in gs
    ensures forall g :: g in r ==> g in gs && MatchesAll(g, criteria)
    ensures forall g :: g in gs && MatchesAll(g, criteria) ==> g in r
    ensures multiset(r) <= multiset(gs)
    ensures forall g :: g in gs && MatchesAll(g, criteria) ==> multiset(r)[g] == multiset(gs)[g]
    ensures NewestFirst(r)
  {
    var latest := Latest(gs);
    var items := Where(latest, criteria);
    WhereCounts(latest, criteria);
    SubsequenceNewestFirst(items, latest);
    items
  }

  /** A subsequence of a list in newest-first order is in newest-first order. */
  lemma {:induction false} SubsequenceNewestFirst(gs: seq<ContentGeneration>, hs: seq<ContentGeneration>)
    requires Subsequence(gs, hs)
    ensures NewestFirst(hs) ==> NewestFirst(gs)
    decreases |hs|
  {
    if gs != [] && hs != [] && NewestFirst(hs) {
      assert NewestFirst(hs[1..]);
      if gs[0] == hs[0] {
        SubsequenceNewestFirst(gs[1..], hs[1..]);
        SubsequenceMembers(gs[1..], hs[1..]);
        forall j | 0 < j < |gs|
          ensures gs[0].createdAt >= gs[j].createdAt
        {
          assert gs[j] == gs[1..][j - 1];
          assert gs[j] in gs[1..];
          assert gs[j] in hs[1..];
          var k :| 0 <= k < |hs[1..]| && hs[1..][k] == gs[j];
          assert hs[k + 1] == gs[j];
        }
      } else {
        SubsequenceNewestFirst(gs, hs[1..]);
      }
    }
  }

  /** Every element of a subsequence is in the sequence it was taken from. */
  lemma {:induction false} SubsequenceMembers(gs: seq<ContentGeneration>, hs: seq<ContentGeneration>)
    requires Subsequence(gs, hs)
    ensures forall g :: g in gs ==> g in hs
    decreases |hs|
  {
    if gs != [] && hs != [] {
      if gs[0] == hs[0] {
        SubsequenceMembers(gs[1..], hs[1..]);
        assert forall g :: g in gs ==> g == gs[0] || g in gs[1..];
      } else {
        SubsequenceMembers(gs, hs[1..]);
      }
    }
  }

  /** Places `g` into a newest-first list: before the first record strictly older than
      it, so after the records created at the same time. */
  function InsertByTime(g: ContentGeneration, s: seq<ContentGeneration>): (r: seq<ContentGeneration>)
    requires NewestFirst(s)
    ensures NewestFirst(r)
    ensures |r| == |s| + 1
    ensures multiset(r) == multiset(s) + multiset{g}
    ensures forall h :: h in r ==> h == g || h in s
    ensures g in r && forall h :: h in s ==> h in r
  {
    if s == [] || s[0].createdAt < g.createdAt then
      ConsNewestFirst(g, s);
      [g] + s
    else
      var rest := InsertByTime(g, s[1..]);
      assert s == [s[0]] + s[1..];
      ConsNewestFirst(s[0], rest);
      [s[0]] + rest
  }

  /** A record no older than the head of a newest-first list can go in front of it. */
  lemma ConsNewestFirst(x: ContentGeneration, t: seq<ContentGeneration>)
    requires NewestFirst(t)
    requires t != [] ==> t[0].createdAt <= x.createdAt
    ensures NewestFirst([x] + t)
  {
    var r := [x] + t;
    forall i, j | 0 <= i < j < |r|
      ensures r[i].createdAt >= r[j].createdAt
    {
      if i == 0 && j > 1 {
        assert r[j] == t[j - 1] && t[0].createdAt >= t[j - 1].createdAt;
      }
    }
  }

  /** `->latest()`: `ORDER BY created_at DESC`. The records sorted newest first,
      whatever order they were inserted in; records created at the same time come
      in reverse insertion order. */
  function Latest(gs: seq<ContentGeneration>): (r: seq<ContentGeneration>)
    ensures |r| == |gs|
    ensures multiset(r) == multiset(gs)
    ensures forall g :: g in r ==> g in gs
    ensures forall g :: g in gs ==> g in r
    ensures NewestFirst(r)
  {
    if gs == [] then []
    else
      assert gs == [gs[0]] + gs[1..];
      InsertByTime(gs[0], Latest(gs[1..]))
  }

  /** `->first()`: the first matching record, or null. */
  function First(gs: seq<ContentGeneration>): (r: Option<ContentGeneration>)
    ensures r.None? <==> gs == []
    ensures r.Some? ==> r.value == gs[0]
  {
    if gs == [] then None else Some(gs[0])
  }

  /** Uuids identify records: no two records share one. */
  ghost predicate UuidsUnique(gs: seq<ContentGeneration>) {
    forall i, j :: 0 <= i < j < |gs| ==> gs[i].uuid != gs[j].uuid
  }

  /** Under unique uuids, a record with uuid `u` that satisfies a query is what the
      query with `u` finds first. */
  lemma LookupFindsUnique(gs: seq<ContentGeneration>, criteria: seq<Criterion>, g: ContentGeneration)
    requires UuidsUnique(gs)
    requires g in gs && MatchesAll(g, criteria + [UuidIs(g.uuid)])
    ensures First(Where(gs, criteria + [UuidIs(g.uuid)])) == Some(g)
  {
    var r := Where(gs, criteria + [UuidIs(g.uuid)]);
    assert g in r;
    SubsequenceMembers(r, gs);
    forall h | h in r
      ensures h == g
    {
      MatchesAppend(h, criteria, UuidIs(g.uuid));
      UniqueUuidsIdentify(gs, g, h);
    }
    assert r[0] in r;
  }

  lemma UniqueUuidsIdentify(gs: seq<ContentGeneration>, g: ContentGeneration, h: ContentGeneration)
    requires UuidsUnique(gs) && g in gs && h in gs && g.uuid == h.uuid
    ensures g == h
  {
    var i :| 0 <= i < |gs| && gs[i] == g;
    var j :| 0 <= j < |gs| && gs[j] == h;
    assert !(i < j) && !(j < i);
  }

  /** The whole database: the generations table and the job queue. */
  class Database {
    var generations: seq<ContentGeneration>
    var jobs: seq<QueuedJob>

    /** Uuids are unique and non-empty, and every queued job refers to a stored
        record. */
    ghost predicate Valid()
      reads this
    {
      && UuidsUnique(generations)
      && (forall g :: g in generations ==> !EmptyString(g.uuid))
      && (forall j :: j in jobs ==> j.generation in generations)
    }

    constructor Empty()
      ensures Valid() && generations == [] && jobs == []
    {
      generations := [];
      jobs := [];
    }

    /** True when `uuid` is not yet used by any record. */
    ghost predicate FreshUuid(uuid: string)
      reads this
    {
      forall g :: g in generations ==> g.uuid != uuid
    }

    /** Insert a new record (an `INSERT`). */
    method Insert(g: ContentGeneration)
      requires Valid() && FreshUuid(g.uuid) && !EmptyString(g.uuid)
      modifies this
      ensures Valid()
      ensures generations == old(generations) + [g] && jobs == old(jobs)
    {
      generations := generations + [g];
      assert forall j :: j in jobs ==> j.generation in generations;
    }

    /** Dispatch a job for a stored record. */
    method Enqueue(job: QueuedJob)
      requires Valid() && job.generation in generations
      modifies this
      ensures Valid()
      ensures jobs == old(jobs) + [job] && generations == old(generations)
    {
      jobs := jobs + [job];
    }
  }
}
