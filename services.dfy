/** `ArticleService`: article generation requests (price 3). */
module ArticleService {
  import opened Php
  import opened Enums
  import opened Accounts
  import opened Generations
  import opened Store
  import opened Orchestration

  /** `create` reads the topic as the record's input text. */
  predicate Creatable(data: Params) {
    "topic" in data && data["topic"].JStr?
  }

  /** The stored parameters: the given tone and word count, defaulting to
      'professional' and 500 when missing or null. */
  function Parameters(data: Params): (p: Params)
    ensures p.Keys == {"tone", "word_count"}
    ensures p["tone"] == CoalesceOr(data, "tone", JStr("professional"))
    ensures p["word_count"] == CoalesceOr(data, "word_count", JInt(500))
  {
    map["tone" := CoalesceOr(data, "tone", JStr("professional")),
        "word_count" := CoalesceOr(data, "word_count", JInt(500))]
  }

  method Create(db: Database, user: User, data: Params, uuid: string, now: Timestamp)
    returns (r: Option<ContentGeneration>)
    requires Creatable(data)
    requires db.Valid() && db.FreshUuid(uuid) && !EmptyString(uuid)
    modifies db, user
    ensures db.Valid()
    ensures r.None? <==> old(user.credits) < 3
    ensures r.None? ==> Refused(db, user, old(user.credits), old(user.totalGenerations), old(db.generations), old(db.jobs))
    ensures r.Some? ==> fresh(r.value) && Accepted(db, user, r.value, Article, GenerateArticle,
                                                   data["topic"].str, Parameters(data), uuid, now,
                                                   old(user.credits), old(user.totalGenerations),
                                                   old(db.generations), old(db.jobs))
  {
    r := CreateGeneration(db, user, Article, GenerateArticle, data["topic"].str, Parameters(data), uuid, now);
  }

  function GetByUuid(gs: seq<ContentGeneration>, user: User, uuid: string): (r: Option<ContentGeneration>)
    reads set g | g in gs
    ensures r.Some? ==> r.value in gs && r.value.userId == user.id && r.value.contentType == Article && r.value.uuid == uuid
    ensures r.None? <==> forall g :: g in gs ==> !(g.userId == user.id && g.contentType == Article && g.uuid == uuid)
  {
    Orchestration.GetByUuid(gs, user, Article, uuid)
  }

  function GetAllForUser(gs: seq<ContentGeneration>, user: User, perPage: int): (r: Listing)
    reads set g | g in gs
    ensures r.perPage == perPage
    ensures forall g :: g in r.items ==> g in gs && g.userId == user.id && g.contentType == Article
    ensures forall g :: g in gs && g.userId == user.id && g.contentType == Article ==> g in r.items
    ensures multiset(r.items) <= multiset(gs)
    ensures forall g :: g in gs && g.userId == user.id && g.contentType == Article ==> multiset(r.items)[g] == multiset(gs)[g]
    ensures NewestFirst(r.items)
  {
    Orchestration.GetAllForUser(gs, user, Article, perPage)
  }
}

/** `RewriteService`: text rewriting requests (price 2). */
module RewriteService {
  import opened Php
  import opened Enums
  import opened Accounts
  import opened Generations
  import opened Store
  import opened Orchestration

  predicate Creatable(data: Params) {
    "text" in data && data["text"].JStr?
  }

  /** The stored parameters: the given tone, defaulting to 'professional'. */
  function Parameters(data: Params): (p: Params)
    ensures p.Keys == {"tone"}
    ensures p["tone"] == CoalesceOr(data, "tone", JStr("professional"))
  {
    map["tone" := CoalesceOr(data, "tone", JStr("professional"))]
  }

  method Create(db: Database, user: User, data: Params, uuid: string, now: Timestamp)
    returns (r: Option<ContentGeneration>)
    requires Creatable(data)
    requires db.Valid() && db.FreshUuid(uuid) && !EmptyString(uuid)
    modifies db, user
    ensures db.Valid()
    ensures r.None? <==> old(user.credits) < 2
    ensures r.None? ==> Refused(db, user, old(user.credits), old(user.totalGenerations), old(db.generations), old(db.jobs))
    ensures r.Some? ==> fresh(r.value) && Accepted(db, user, r.value, Rewrite, RewriteText,
                                                   data["text"].str, Parameters(data), uuid, now,
                                                   old(user.credits), old(user.totalGenerations),
                                                   old(db.generations), old(db.jobs))
  {
    r := CreateGeneration(db, user, Rewrite, RewriteText, data["text"].str, Parameters(data), uuid, now);
  }

  function GetByUuid(gs: seq<ContentGeneration>, user: User, uuid: string): (r: Option<ContentGeneration>)
    reads set g | g in gs
    ensures r.Some? ==> r.value in gs && r.value.userId == user.id && r.value.contentType == Rewrite && r.value.uuid == uuid
    ensures r.None? <==> forall g :: g in gs ==> !(g.userId == user.id && g.contentType == Rewrite && g.uuid == uuid)
  {
    Orchestration.GetByUuid(gs, user, Rewrite, uuid)
  }

  function GetAllForUser(gs: seq<ContentGeneration>, user: User, perPage: int): (r: Listing)
    reads set g | g in gs
    ensures r.perPage == perPage
    ensures forall g :: g in r.items ==> g in gs && g.userId == user.id && g.contentType == Rewrite
    ensures forall g :: g in gs && g.userId == user.id && g.contentType == Rewrite ==> g in r.items
    ensures multiset(r.items) <= multiset(gs)
    ensures forall g :: g in gs && g.userId == user.id && g.contentType == Rewrite ==> multiset(r.items)[g] == multiset(gs)[g]
    ensures NewestFirst(r.items)
  {
    Orchestration.GetAllForUser(gs, user, Rewrite, perPage)
  }
}

/** `SummaryService`: text summary requests (price 1). */
module SummaryService {
  import opened Php
  import opened Enums
  import opened Accounts
  import opened Generations
  import opened Store
  import opened Orchestration

  predicate Creatable(data: Params) {
    "text" in data && data["text"].JStr?
  }

  /** The stored parameters: the given format, defaulting to 'bullets'. */
  function Parameters(data: Params): (p: Params)
    ensures p.Keys == {"format"}
    ensures p["format"] == CoalesceOr(data, "format", JStr("bullets"))
  {
    map["format" := CoalesceOr(data, "format", JStr("bullets"))]
  }

  method Create(db: Database, user: User, data: Params, uuid: string, now: Timestamp)
    returns (r: Option<ContentGeneration>)
    requires Creatable(data)
    requires db.Valid() && db.FreshUuid(uuid) && !EmptyString(uuid)
    modifies db, user
    ensures db.Valid()
    ensures r.None? <==> old(user.credits) < 1
    ensures r.None? ==> Refused(db, user, old(user.credits), old(user.totalGenerations), old(db.generations), old(db.jobs))
    ensures r.Some? ==> fresh(r.value) && Accepted(db, user, r.value, Summary, SummarizeText,
                                                   data["text"].str, Parameters(data), uuid, now,
                                                   old(user.credits), old(user.totalGenerations),
                                                   old(db.generations), old(db.jobs))
  {
    r := CreateGeneration(db, user, Summary, SummarizeText, data["text"].str, Parameters(data), uuid, now);
  }

  function GetByUuid(gs: seq<ContentGeneration>, user: User, uuid: string): (r: Option<ContentGeneration>)
    reads set g | g in gs
    ensures r.Some? ==> r.value in gs && r.value.userId == user.id && r.value.contentType == Summary && r.value.uuid == uuid
    ensures r.None? <==> forall g :: g in gs ==> !(g.userId == user.id && g.contentType == Summary && g.uuid == uuid)
  {
    Orchestration.GetByUuid(gs, user, Summary, uuid)
  }

  function GetAllForUser(gs: seq<ContentGeneration>, user: User, perPage: int): (r: Listing)
    reads set g | g in gs
    ensures r.perPage == perPage
    ensures forall g :: g in r.items ==> g in gs && g.userId == user.id && g.contentType == Summary
    ensures forall g :: g in gs && g.userId == user.id && g.contentType == Summary ==> g in r.items
    ensures multiset(r.items) <= multiset(gs)
    ensures forall g :: g in gs && g.userId == user.id && g.contentType == Summary ==> multiset(r.items)[g] == multiset(gs)[g]
    ensures NewestFirst(r.items)
  {
    Orchestration.GetAllForUser(gs, user, Summary, perPage)
  }
}

/** `EmailService`: email generation requests (price 2). */
module EmailService {
  import opened Php
  import opened Enums
  import opened Accounts
  import opened Generations
  import opened Store
  import opened Orchestration

  predicate Creatable(data: Params) {
    "purpose" in data && data["purpose"].JStr?
  }

  /** The stored parameters: the given tone (default 'professional') and the
      recipient, sender and additional information, each null when not given. */
  function Parameters(data: Params): (p: Params)
    ensures p.Keys == {"tone", "recipient_name", "sender_name", "additional_info"}
    ensures p["tone"] == CoalesceOr(data, "tone", JStr("professional"))
    ensures p["recipient_name"] == CoalesceOr(data, "recipient_name", JNull)
    ensures p["sender_name"] == CoalesceOr(data, "sender_name", JNull)
    ensures p["additional_info"] == CoalesceOr(data, "additional_info", JNull)
  {
    map["tone" := CoalesceOr(data, "tone", JStr("professional")),
        "recipient_name" := CoalesceOr(data, "recipient_name", JNull),
        "sender_name" := CoalesceOr(data, "sender_name", JNull),
        "additional_info" := CoalesceOr(data, "additional_info", JNull)]
  }

  method Create(db: Database, user: User, data: Params, uuid: string, now: Timestamp)
    returns (r: Option<ContentGeneration>)
    requires Creatable(data)
    requires db.Valid() && db.FreshUuid(uuid) && !EmptyString(uuid)
    modifies db, user
    ensures db.Valid()
    ensures r.None? <==> old(user.credits) < 2
    ensures r.None? ==> Refused(db, user, old(user.credits), old(user.totalGenerations), old(db.generations), old(db.jobs))
    ensures r.Some? ==> fresh(r.value) && Accepted(db, user, r.value, Email, GenerateEmail,
                                                   data["purpose"].str, Parameters(data), uuid, now,
                                                   old(user.credits), old(user.totalGenerations),
                                                   old(db.generations), old(db.jobs))
  {
    r := CreateGeneration(db, user, Email, GenerateEmail, data["purpose"].str, Parameters(data), uuid, now);
  }

  function GetByUuid(gs: seq<ContentGeneration>, user: User, uuid: string): (r: Option<ContentGeneration>)
    reads set g | g in gs
    ensures r.Some? ==> r.value in gs && r.value.userId == user.id && r.value.contentType == Email && r.value.uuid == uuid
    ensures r.None? <==> forall g :: g in gs ==> !(g.userId == user.id && g.contentType == Email && g.uuid == uuid)
  {
    Orchestration.GetByUuid(gs, user, Email, uuid)
  }

  function GetAllForUser(gs: seq<ContentGeneration>, user: User, perPage: int): (r: Listing)
    reads set g | g in gs
    ensures r.perPage == perPage
    ensures forall g :: g in r.items ==> g in gs && g.userId == user.id && g.contentType == Email
    ensures forall g :: g in gs && g.userId == user.id && g.contentType == Email ==> g in r.items
    ensures multiset(r.items) <= multiset(gs)
    ensures forall g :: g in gs && g.userId == user.id && g.contentType == Email ==> multiset(r.items)[g] == multiset(gs)[g]
    ensures NewestFirst(r.items)
  {
    Orchestration.GetAllForUser(gs, user, Email, perPage)
  }
}

/** `TranslationService`: translation requests (price 2) and the supported languages. */
module TranslationService {
  import opened Php
  import opened Enums
  import opened Accounts
  import opened Generations
  import opened Store
  import opened Orchestration

  /** `SUPPORTED_LANGUAGES`: language code to language name. */
  const SupportedLanguages: map<string, string> := map[
    "en" := "English", "fr" := "French", "es" := "Spanish", "de" := "German",
    "it" := "Italian", "pt" := "Portuguese", "nl" := "Dutch", "ru" := "Russian",
    "zh" := "Chinese", "ja" := "Japanese", "ko" := "Korean", "ar" := "Arabic"]

  /** `isLanguageSupported`: a listed code, or "auto". */
  predicate IsLanguageSupported(code: string) {
    code in SupportedLanguages || code == "auto"
  }

  /** "auto" is accepted by `isLanguageSupported` without being a listed code. */
  lemma AutoIsNotALanguage()
    ensures "auto" !in SupportedLanguages && IsLanguageSupported("auto")
  {
  }

  predicate Creatable(data: Params) {
    "text" in data && data["text"].JStr? && "target_language" in data
  }

  /** The stored parameters: the given source language (default 'auto') and the
      target language as given. */
  function Parameters(data: Params): (p: Params)
    requires "target_language" in data
    ensures p.Keys == {"source_language", "target_language"}
    ensures p["source_language"] == CoalesceOr(data, "source_language", JStr("auto"))
    ensures p["target_language"] == data["target_language"]
  {
    map["source_language" := CoalesceOr(data, "source_language", JStr("auto")),
        "target_language" := data["target_language"]]
  }

  method Create(db: Database, user: User, data: Params, uuid: string, now: Timestamp)
    returns (r: Option<ContentGeneration>)
    requires Creatable(data)
    requires db.Valid() && db.FreshUuid(uuid) && !EmptyString(uuid)
    modifies db, user
    ensures db.Valid()
    ensures r.None? <==> old(user.credits) < 2
    ensures r.None? ==> Refused(db, user, old(user.credits), old(user.totalGenerations), old(db.generations), old(db.jobs))
    ensures r.Some? ==> fresh(r.value) && Accepted(db, user, r.value, Translation, TranslateText,
                                                   data["text"].str, Parameters(data), uuid, now,
                                                   old(user.credits), old(user.totalGenerations),
                                                   old(db.generations), old(db.jobs))
  {
    r := CreateGeneration(db, user, Translation, TranslateText, data["text"].str, Parameters(data), uuid, now);
  }

  function GetByUuid(gs: seq<ContentGeneration>, user: User, uuid: string): (r: Option<ContentGeneration>)
    reads set g | g in gs
    ensures r.Some? ==> r.value in gs && r.value.userId == user.id && r.value.contentType == Translation && r.value.uuid == uuid
    ensures r.None? <==> forall g :: g in gs ==> !(g.userId == user.id && g.contentType == Translation && g.uuid == uuid)
  {
    Orchestration.GetByUuid(gs, user, Translation, uuid)
  }

  function GetAllForUser(gs: seq<ContentGeneration>, user: User, perPage: int): (r: Listing)
    reads set g | g in gs
    ensures r.perPage == perPage
    ensures forall g :: g in r.items ==> g in gs && g.userId == user.id && g.contentType == Translation
    ensures forall g :: g in gs && g.userId == user.id && g.contentType == Translation ==> g in r.items
    ensures multiset(r.items) <= multiset(gs)
    ensures forall g :: g in gs && g.userId == user.id && g.contentType == Translation ==> multiset(r.items)[g] == multiset(gs)[g]
    ensures NewestFirst(r.items)
  {
    Orchestration.GetAllForUser(gs, user, Translation, perPage)
  }
}
