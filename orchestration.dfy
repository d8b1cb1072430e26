/** The shape every content service shares: `create` checks the balance, charges the
    price, inserts a pending record and dispatches one job; `getByUuid` and
    `getAllForUser` are queries scoped to the caller and to the service's type. */
module Orchestration {
  import opened Php
  import opened Enums
  import opened Accounts
  import opened Credits
  import opened Generations
  import opened Store

  /** A page request over a query result: the matching records newest first and the
      page size used. Cutting the list into pages is done by the framework. */
  datatype Listing = Listing(items: seq<ContentGeneration>, perPage: int)

  /** The outcome of a refused `create`: nothing changed, neither on the account
      nor in the database. Arguments ending in 0 are the values before the call. */
  ghost predicate Refused(db: Database, user: User, credits0: int, total0: int,
                          generations0: seq<ContentGeneration>, jobs0: seq<QueuedJob>)
    reads db, user
  {
    && user.credits == credits0 && user.totalGenerations == total0
    && db.generations == generations0 && db.jobs == jobs0
  }

  /** The outcome of an accepted `create`: the price of `t` was charged and one more
      generation counted; `g` is a new pending record of type `t` with the given input,
      parameters, uuid and creation time, charged at the price of `t`; it was appended
      to the table, and exactly one `kind` job for it was appended to the queue. */
  ghost predicate Accepted(db: Database, user: User, g: ContentGeneration, t: ContentType, kind: JobKind,
                           inputText: string, params: Params, uuid: string, now: Timestamp,
                           credits0: int, total0: int,
                           generations0: seq<ContentGeneration>, jobs0: seq<QueuedJob>)
    reads db, user, g
  {
    && user.credits == credits0 - CreditCost(t)
    && user.totalGenerations == total0 + 1
    && g.uuid == uuid && g.userId == user.id && g.contentType == t
    && g.inputText == inputText && g.inputParameters == params
    && g.creditsUsed == CreditCost(t) && g.createdAt == now
    && g.State() == InitialState(Pending)
    && db.generations == generations0 + [g]
    && db.jobs == jobs0 + [QueuedJob(kind, g)]
  }

  /** Check, charge, insert a pending record of type `t` and dispatch a `kind` job for
      it. `uuid` is the value the uuid generator yields and `now` the clock reading. */
  method CreateGeneration(db: Database, user: User, t: ContentType, kind: JobKind,
                          inputText: string, params: Params, uuid: string, now: Timestamp)
    returns (r: Option<ContentGeneration>)
    requires db.Valid() && db.FreshUuid(uuid) && !EmptyString(uuid)
    modifies db, user
    ensures db.Valid()
    ensures r.None? <==> old(user.credits) < CreditCost(t)
    ensures r.None? ==> Refused(db, user, old(user.credits), old(user.totalGenerations), old(db.generations), old(db.jobs))
    ensures r.Some? ==> fresh(r.value) && Accepted(db, user, r.value, t, kind, inputText, params, uuid, now,
                                                   old(user.credits), old(user.totalGenerations),
                                                   old(db.generations), old(db.jobs))
  {
    if !HasEnoughCredits(user, t) {
      return None;
    }
    var charged := DeductCredits(user, t);
    if !charged {
      return None;
    }
    var g := new ContentGeneration.Create(None, uuid, user.id, t, Pending, inputText, params, CreditCost(t), now);
    db.Insert(g);
    db.Enqueue(QueuedJob(kind, g));
    return Some(g);
  }

  /** `getByUuid` of the service for type `t`: the caller's record of that type with
      that uuid, or null. */
  function GetByUuid(gs: seq<ContentGeneration>, user: User, t: ContentType, uuid: string): (r: Option<ContentGeneration>)
    reads set g | g in gs
    ensures r.Some? ==> r.value in gs && r.value.userId == user.id && r.value.contentType == t && r.value.uuid == uuid
    ensures r.None? <==> forall g :: g in gs ==> !(g.userId == user.id && g.contentType == t && g.uuid == uuid)
  {
    var criteria := [UserIs(user.id), TypeIs(t), UuidIs(uuid)];
    var found := Where(gs, criteria);
    MatchesThree(UserIs(user.id), TypeIs(t), UuidIs(uuid));
    assert found != [] ==> found[0] in found;
    First(found)
  }

  /** `getAllForUser` of the service for type `t`: all of the caller's records of that
      type, newest first, with the page size passed through unchanged. */
  function GetAllForUser(gs: seq<ContentGeneration>, user: User, t: ContentType, perPage: int): (r: Listing)
    reads set g | g in gs
    ensures r.perPage == perPage
    ensures forall g :: g in r.items ==> g in gs && g.userId == user.id && g.contentType == t
    ensures forall g :: g in gs && g.userId == user.id && g.contentType == t ==> g in r.items
    ensures multiset(r.items) <= multiset(gs)
    ensures forall g :: g in gs && g.userId == user.id && g.contentType == t ==> multiset(r.items)[g] == multiset(gs)[g]
    ensures NewestFirst(r.items)
  {
    var criteria := [UserIs(user.id), TypeIs(t)];
    var items := LatestWhere(gs, criteria);
    forall g | g in gs
      ensures MatchesAll(g, criteria) <==> g.userId == user.id && g.contentType == t
    {
      MatchesTwo(UserIs(user.id), TypeIs(t));
    }
    Listing(items, perPage)
  }
}
