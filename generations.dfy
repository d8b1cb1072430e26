/** `ContentGeneration`: one generation request and its result. The attributes fixed
    at creation are `const` fields; the ones the transition methods update are `var`
    fields, and `State()` packs them into a value so that each transition is specified
    by a pure function of the previous state. */
module Generations {
  import opened Php
  import opened Enums

  /** A point in time, as supplied by the caller's clock. */
  type Timestamp = nat

  /** The provider's token usage report, as an opaque map. */
  type Usage = map<string, int>

  /** What a worker stores as `metadata` on completion. */
  datatype Metadata = Metadata(model: string, usage: Usage, generatedAt: Timestamp)

  /** Attempts allowed before a failed record is no longer retryable. */
  const MaxRetries: int := 3

  /** The part of a record that the transition methods change. */
  datatype RecordState = RecordState(
    status: ContentStatus,
    outputText: Option<string>,
    metadata: Option<Metadata>,
    errorMessage: Option<string>,
    retryCount: int,
    processedAt: Option<Timestamp>)

  /** The state of a newly inserted record: the given status and the column defaults
      (no output, no metadata, no error, zero retries, never processed). */
  function InitialState(status: ContentStatus): RecordState {
    RecordState(status, None, None, None, 0, None)
  }

  /** `markAsProcessing`: only the status changes, whatever it was. */
  function ToProcessing(s: RecordState): (r: RecordState)
    ensures r.status == Processing
    ensures r.outputText == s.outputText && r.metadata == s.metadata && r.errorMessage == s.errorMessage
    ensures r.retryCount == s.retryCount && r.processedAt == s.processedAt
  {
    s.(status := Processing)
  }

  /** `markAsCompleted`: status, output, metadata and processing time are set; the
      error message and the retry count stay as they were. */
  function ToCompleted(s: RecordState, output: string, metadata: Metadata, now: Timestamp): (r: RecordState)
    ensures r.status == Completed && r.outputText == Some(output) && r.metadata == Some(metadata)
    ensures r.processedAt == Some(now)
    ensures r.errorMessage == s.errorMessage && r.retryCount == s.retryCount
  {
    s.(status := Completed, outputText := Some(output), metadata := Some(metadata), processedAt := Some(now))
  }

  /** `markAsFailed`: status and error message are set and one more attempt is counted;
      a previous output, metadata and processing time are not cleared. */
  function ToFailed(s: RecordState, message: string): (r: RecordState)
    ensures r.status == Failed && r.errorMessage == Some(message)
    ensures r.retryCount == s.retryCount + 1
    ensures r.outputText == s.outputText && r.metadata == s.metadata && r.processedAt == s.processedAt
  {
    s.(status := Failed, errorMessage := Some(message), retryCount := s.retryCount + 1)
  }

  /** `canRetry` on a record: failed and fewer than three attempts counted. */
  predicate StateCanRetry(s: RecordState) {
    StatusCanRetry(s.status) && s.retryCount < MaxRetries
  }

  /** No transition lowers the retry count; only a failure raises it. */
  lemma RetryCountNeverDecreases(s: RecordState, output: string, metadata: Metadata, now: Timestamp, message: string)
    ensures ToProcessing(s).retryCount == s.retryCount
    ensures ToCompleted(s, output, metadata, now).retryCount == s.retryCount
    ensures ToFailed(s, message).retryCount == s.retryCount + 1
  {
  }

  /** A completed record is ready and not retryable; a failed one is retryable
      exactly while fewer than three attempts have been counted. */
  lemma RetryEligibility(s: RecordState, output: string, metadata: Metadata, now: Timestamp, message: string)
    ensures !StateCanRetry(ToCompleted(s, output, metadata, now))
    ensures StatusIsReady(ToCompleted(s, output, metadata, now).status)
    ensures StateCanRetry(ToFailed(s, message)) <==> s.retryCount < MaxRetries - 1
    ensures !StateCanRetry(ToProcessing(s))
  {
  }

  /** The creating hook: a uuid that is missing or empty in PHP's sense is replaced by
      the generated one; any other supplied uuid is kept. So a record always gets a
      non-empty uuid as long as the generator never yields an empty one. */
  function AssignUuid(supplied: Option<string>, generated: string): (uuid: string)
    ensures Empty(supplied) ==> uuid == generated
    ensures !Empty(supplied) ==> uuid == supplied.value
    ensures !EmptyString(generated) ==> !EmptyString(uuid)
  {
    if Empty(supplied) then generated else supplied.value
  }

  class ContentGeneration {
    const uuid: string
    const userId: nat
    const contentType: ContentType
    const inputText: string
    const inputParameters: Params
    const creditsUsed: int
    const createdAt: Timestamp

    var status: ContentStatus
    var outputText: Option<string>
    var metadata: Option<Metadata>
    var errorMessage: Option<string>
    var retryCount: int
    var processedAt: Option<Timestamp>

    /** The fields the transition methods update, as one value. */
    function State(): RecordState
      reads this
    {
      RecordState(status, outputText, metadata, errorMessage, retryCount, processedAt)
    }

    /** `ContentGeneration::create` with the given attributes, after the creating hook
        has settled the uuid; the attributes not given take their column defaults. */
    constructor Create(suppliedUuid: Option<string>, generatedUuid: string, userId: nat,
                       contentType: ContentType, status: ContentStatus, inputText: string,
                       inputParameters: Params, creditsUsed: int, createdAt: Timestamp)
      ensures uuid == AssignUuid(suppliedUuid, generatedUuid)
      ensures this.userId == userId && this.contentType == contentType
      ensures this.inputText == inputText && this.inputParameters == inputParameters
      ensures this.creditsUsed == creditsUsed && this.createdAt == createdAt
      ensures State() == InitialState(status)
    {
      uuid := AssignUuid(suppliedUuid, generatedUuid);
      this.userId := userId;
      this.contentType := contentType;
      this.inputText := inputText;
      this.inputParameters := inputParameters;
      this.creditsUsed := creditsUsed;
      this.createdAt := createdAt;
      this.status := status;
      outputText := None;
      metadata := None;
      errorMessage := None;
      retryCount := 0;
      processedAt := None;
    }

    method MarkAsProcessing()
      modifies this
      ensures State() == ToProcessing(old(State()))
    {
      status := Processing;
    }

    method MarkAsCompleted(output: string, metadata: Metadata, now: Timestamp)
      modifies this
      ensures State() == ToCompleted(old(State()), output, metadata, now)
    {
      status := Completed;
      outputText := Some(output);
      this.metadata := Some(metadata);
      processedAt := Some(now);
    }

    method MarkAsFailed(message: string)
      modifies this
      ensures State() == ToFailed(old(State()), message)
    {
      status := Failed;
      errorMessage := Some(message);
      retryCount := retryCount + 1;
    }

    predicate CanRetry()
      reads this
    {
      StateCanRetry(State())
    }

    predicate IsReady()
      reads this
    {
      StatusIsReady(status)
    }
  }
}
