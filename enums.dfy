/** The two closed tags of a generation record: its content type (with its
    credit price and label) and its processing status. */
module Enums {
  import opened Php

  datatype ContentType = Article | Rewrite | Summary | Email | Translation

  /** `ContentType::cases()`, in declaration order. */
  const AllContentTypes: seq<ContentType> := [Article, Rewrite, Summary, Email, Translation]

  /** The backing string of a content type. */
  function TypeValue(t: ContentType): string {
    match t
    case Article => "article"
    case Rewrite => "rewrite"
    case Summary => "summary"
    case Email => "email"
    case Translation => "translation"
  }

  /** `ContentType::tryFrom`: the case whose backing string is `s`, if any. */
  function ParseType(s: string): (r: Option<ContentType>)
    ensures r.Some? ==> TypeValue(r.value) == s
  {
    if s == "article" then Some(Article)
    else if s == "rewrite" then Some(Rewrite)
    else if s == "summary" then Some(Summary)
    else if s == "email" then Some(Email)
    else if s == "translation" then Some(Translation)
    else None
  }

  /** The price of one generation of type `t`, in credits. */
  function CreditCost(t: ContentType): (c: int)
    ensures 1 <= c <= 3
  {
    match t
    case Article => 3
    case Rewrite => 2
    case Summary => 1
    case Email => 2
    case Translation => 2
  }

  function TypeLabel(t: ContentType): string {
    match t
    case Article => "Article Generation"
    case Rewrite => "Text Rewriting"
    case Summary => "Text Summary"
    case Email => "Email Generation"
    case Translation => "Translation"
  }

  /** Parsing a backing string succeeds exactly on the five backing strings and
      gives back the case it came from: the backing values are pairwise distinct. */
  lemma ParseTypeRoundTrip(t: ContentType, s: string)
    ensures ParseType(s) == Some(t) <==> s == TypeValue(t)
  {
    match t
    case Article =>
    case Rewrite =>
    case Summary =>
    case Email =>
    case Translation =>
  }

  lemma TypeValueInjective(t: ContentType, u: ContentType)
    ensures TypeValue(t) == TypeValue(u) ==> t == u
  {
    ParseTypeRoundTrip(t, TypeValue(t));
    ParseTypeRoundTrip(u, TypeValue(u));
  }

  /** `cases()` lists every content type exactly once. */
  lemma AllContentTypesComplete(t: ContentType)
    ensures t in AllContentTypes
    ensures |AllContentTypes| == 5
    ensures forall i, j :: 0 <= i < j < |AllContentTypes| ==> AllContentTypes[i] != AllContentTypes[j]
  {
  }

  /** The price table, and the fact that every deduction strictly lowers a balance. */
  lemma CostTable()
    ensures CreditCost(Article) == 3 && CreditCost(Rewrite) == 2 && CreditCost(Summary) == 1
    ensures CreditCost(Email) == 2 && CreditCost(Translation) == 2
    ensures forall t: ContentType :: CreditCost(t) > 0
  {
  }

  datatype ContentStatus = Pending | Processing | Completed | Failed

  function StatusValue(s: ContentStatus): string {
    match s
    case Pending => "pending"
    case Processing => "processing"
    case Completed => "completed"
    case Failed => "failed"
  }

  /** `ContentStatus::tryFrom`. */
  function ParseStatus(v: string): (r: Option<ContentStatus>)
    ensures r.Some? ==> StatusValue(r.value) == v
  {
    if v == "pending" then Some(Pending)
    else if v == "processing" then Some(Processing)
    else if v == "completed" then Some(Completed)
    else if v == "failed" then Some(Failed)
    else None
  }

  function StatusLabel(s: ContentStatus): string {
    match s
    case Pending => "Pending"
    case Processing => "Processing"
    case Completed => "Completed"
    case Failed => "Failed"
  }

  /** `ContentStatus::canRetry`. */
  predicate StatusCanRetry(s: ContentStatus) {
    s == Failed
  }

  /** `ContentStatus::isReady`. */
  predicate StatusIsReady(s: ContentStatus) {
    s == Completed
  }

  lemma ParseStatusRoundTrip(s: ContentStatus, v: string)
    ensures ParseStatus(v) == Some(s) <==> v == StatusValue(s)
  {
    match s
    case Pending =>
    case Processing =>
    case Completed =>
    case Failed =>
  }

  lemma StatusValueInjective(s: ContentStatus, u: ContentStatus)
    ensures StatusValue(s) == StatusValue(u) ==> s == u
  {
    ParseStatusRoundTrip(s, StatusValue(s));
    ParseStatusRoundTrip(u, StatusValue(u));
  }

  /** A status is never both ready and retryable; only a failed status is
      retryable and only a completed one is ready. */
  lemma ReadyExcludesRetry(s: ContentStatus)
    ensures !(StatusIsReady(s) && StatusCanRetry(s))
    ensures StatusCanRetry(s) <==> StatusValue(s) == "failed"
    ensures StatusIsReady(s) <==> StatusValue(s) == "completed"
  {
  }
}
