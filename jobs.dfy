/** The queued workers `RewriteTextJob`, `SummarizeTextJob` and `GenerateEmailJob`.
    Each holds one record; `handle` marks it processing, asks the provider and
    settles the record as completed or failed; `failed` is the hook the queue calls
    once the attempts are used up. Only the record is modified: no worker touches a
    user's credits. */
module Workers {
  import opened Php
  import opened Enums
  import opened Generations
  import opened Prompts

  /** What the call into `OpenAIService` yields: its result array, or an exception. */
  datatype ProviderOutcome = Returned(result: ChatResult) | Threw(message: string)

  /** True when the provider answered with `success => true`. */
  predicate Succeeded(outcome: ProviderOutcome) {
    outcome.Returned? && outcome.result.ChatSuccess?
  }

  /** The message `handleFailure` is called with: the reported error, 'Unknown error'
      when the result has none, or the exception's message. */
  function FailureMessage(outcome: ProviderOutcome): string
    requires !Succeeded(outcome)
  {
    match outcome
    case Returned(result) => result.error.GetOr("Unknown error")
    case Threw(message) => message
  }

  /** The state `handle` leaves once the record is marked processing. */
  function Settled(s: RecordState, outcome: ProviderOutcome, now: Timestamp): RecordState {
    if Succeeded(outcome) then
      var r := outcome.result;
      ToCompleted(s, r.content, Metadata(r.model, r.usage, now), now)
    else
      ToFailed(s, FailureMessage(outcome))
  }

  /** The state a record is in after `handle`. */
  function AfterHandle(s: RecordState, outcome: ProviderOutcome, now: Timestamp): RecordState {
    Settled(ToProcessing(s), outcome, now)
  }

  /** `handle` always settles the record: completed exactly when the provider
      succeeded, failed otherwise; never left pending or processing. */
  lemma HandleSettles(s: RecordState, outcome: ProviderOutcome, now: Timestamp)
    ensures AfterHandle(s, outcome, now).status == Completed <==> Succeeded(outcome)
    ensures AfterHandle(s, outcome, now).status == Failed <==> !Succeeded(outcome)
  {
  }

  /** A success stores the content as output and the model, usage and time as
      metadata; the error message and the retry count are as they were. */
  lemma HandleSuccess(s: RecordState, content: string, usage: Usage, model: string, now: Timestamp)
    ensures var r := AfterHandle(s, Returned(ChatSuccess(content, usage, model)), now);
            && r.outputText == Some(content)
            && r.metadata == Some(Metadata(model, usage, now))
            && r.processedAt == Some(now)
            && r.errorMessage == s.errorMessage && r.retryCount == s.retryCount
            && StatusIsReady(r.status) && !StateCanRetry(r)
  {
  }

  /** A failure stores its message and counts one more attempt; the previous output,
      metadata and processing time stay. The message is the reported error,
      'Unknown error' when there is none, or the exception's message. */
  lemma HandleFailure(s: RecordState, outcome: ProviderOutcome, now: Timestamp)
    requires !Succeeded(outcome)
    ensures var r := AfterHandle(s, outcome, now);
            && r.retryCount == s.retryCount + 1
            && r.outputText == s.outputText && r.metadata == s.metadata && r.processedAt == s.processedAt
            && (outcome == Returned(ChatFailure(None)) ==> r.errorMessage == Some("Unknown error"))
            && (outcome.Returned? && outcome.result.error.Some? ==> r.errorMessage == outcome.result.error)
            && (outcome.Threw? ==> r.errorMessage == Some(outcome.message))
            && (StateCanRetry(r) <==> s.retryCount < MaxRetries - 1)
  {
  }

  /** Fed by `chat`, the failure branch always has a reported error, so the
      'Unknown error' default is never the stored message unless that is the text
      of the exception itself. */
  lemma ChatFailureMessages(s: RecordState, h: HttpOutcome, configuredModel: string, now: Timestamp)
    ensures h.Rejected? ==> AfterHandle(s, Returned(Chat(h, configuredModel)), now).errorMessage
                              == Some("OpenAI API request failed: " + h.body)
    ensures h.Raised? ==> AfterHandle(s, Returned(Chat(h, configuredModel)), now).errorMessage == Some(h.message)
  {
  }

  const PermanentFailurePrefix := "Job failed permanently: "

  /** `handleFailure`: record the error on the record. */
  method RecordFailure(generation: ContentGeneration, message: string)
    modifies generation
    ensures generation.State() == ToFailed(old(generation.State()), message)
  {
    generation.MarkAsFailed(message);
  }

  /** The branch of `handle` after the provider answered or threw. */
  method Settle(generation: ContentGeneration, outcome: ProviderOutcome, now: Timestamp)
    modifies generation
    ensures generation.State() == Settled(old(generation.State()), outcome, now)
  {
    match outcome
    case Returned(result) =>
      if result.ChatSuccess? {
        generation.MarkAsCompleted(result.content, Metadata(result.model, result.usage, now), now);
      } else {
        RecordFailure(generation, result.error.GetOr("Unknown error"));
      }
    case Threw(message) =>
      RecordFailure(generation, message);
  }

  /** The permanent-failure hook leaves a failed, prefixed message and one more
      counted attempt, whatever state the record was in. */
  lemma PermanentFailure(s: RecordState, message: string)
    ensures ToFailed(s, PermanentFailurePrefix + message).status == Failed
    ensures ToFailed(s, PermanentFailurePrefix + message).errorMessage == Some(PermanentFailurePrefix + message)
    ensures ToFailed(s, PermanentFailurePrefix + message).retryCount == s.retryCount + 1
  {
  }

  class RewriteTextJob {
    const generation: ContentGeneration

    constructor(generation: ContentGeneration)
      ensures this.generation == generation
    {
      this.generation := generation;
    }

    /** `handle`: the text is rewritten in the stored tone ('professional' when none);
        `sent` is the request the provider receives, `atCall` the record's state at
        that moment. */
    method Handle(provider: ChatRequest -> ProviderOutcome, now: Timestamp)
      returns (sent: ChatRequest, ghost atCall: RecordState)
      modifies generation
      ensures sent == RewriteRequest(generation.inputText, StringOr(generation.inputParameters, "tone", "professional"))
      ensures atCall == ToProcessing(old(generation.State())) && atCall.status == Processing
      ensures generation.State() == AfterHandle(old(generation.State()), provider(sent), now)
    {
      generation.MarkAsProcessing();
      atCall := generation.State();
      var params := generation.inputParameters;
      sent := RewriteRequest(generation.inputText, StringOr(params, "tone", "professional"));
      var outcome := provider(sent);
      Settle(generation, outcome, now);
    }

    /** `failed`. */
    method Failed(message: string)
      modifies generation
      ensures generation.State() == ToFailed(old(generation.State()), PermanentFailurePrefix + message)
    {
      generation.MarkAsFailed(PermanentFailurePrefix + message);
    }
  }

  class SummarizeTextJob {
    const generation: ContentGeneration

    constructor(generation: ContentGeneration)
      ensures this.generation == generation
    {
      this.generation := generation;
    }

    /** `handle`: the text is summarised in the stored format ('bullets' when none). */
    method Handle(provider: ChatRequest -> ProviderOutcome, now: Timestamp)
      returns (sent: ChatRequest, ghost atCall: RecordState)
      modifies generation
      ensures sent == SummaryRequest(generation.inputText, StringOr(generation.inputParameters, "format", "bullets"))
      ensures atCall == ToProcessing(old(generation.State())) && atCall.status == Processing
      ensures generation.State() == AfterHandle(old(generation.State()), provider(sent), now)
    {
      generation.MarkAsProcessing();
      atCall := generation.State();
      var params := generation.inputParameters;
      sent := SummaryRequest(generation.inputText, StringOr(params, "format", "bullets"));
      var outcome := provider(sent);
      Settle(generation, outcome, now);
    }

    /** `failed`. */
    method Failed(message: string)
      modifies generation
      ensures generation.State() == ToFailed(old(generation.State()), PermanentFailurePrefix + message)
    {
      generation.MarkAsFailed(PermanentFailurePrefix + message);
    }
  }

  /** The context `GenerateEmailJob` passes on: the three stored values, each null
      when missing. */
  function EmailContext(params: Params): (ctx: Params)
    ensures ctx.Keys == {"recipient_name", "sender_name", "additional_info"}
    ensures forall k :: k in ctx ==> ctx[k] == CoalesceOr(params, k, JNull)
  {
    map["recipient_name" := CoalesceOr(params, "recipient_name", JNull),
        "sender_name" := CoalesceOr(params, "sender_name", JNull),
        "additional_info" := CoalesceOr(params, "additional_info", JNull)]
  }

  /** Forwarding the stored values through the context changes no line of the email
      user message: it is the message the stored parameters themselves call for. */
  lemma ForwardedContextSameMessage(purpose: string, params: Params)
    ensures EmailUserMessage(purpose, EmailContext(params)) == EmailUserMessage(purpose, params)
  {
    var ctx := EmailContext(params);
    assert Given(ctx, "recipient_name") <==> Given(params, "recipient_name");
    assert Given(ctx, "sender_name") <==> Given(params, "sender_name");
    assert Given(ctx, "additional_info") <==> Given(params, "additional_info");
    assert ContextLines(ctx) == ContextLines(params);
  }

  class GenerateEmailJob {
    const generation: ContentGeneration

    constructor(generation: ContentGeneration)
      ensures this.generation == generation
    {
      this.generation := generation;
    }

    /** `handle`: the email for the stored purpose, in the stored tone
        ('professional' when none), with the stored context values. */
    method Handle(provider: ChatRequest -> ProviderOutcome, now: Timestamp)
      returns (sent: ChatRequest, ghost atCall: RecordState)
      modifies generation
      ensures sent == EmailRequest(generation.inputText, StringOr(generation.inputParameters, "tone", "professional"),
                                   EmailContext(generation.inputParameters))
      ensures atCall == ToProcessing(old(generation.State())) && atCall.status == Processing
      ensures generation.State() == AfterHandle(old(generation.State()), provider(sent), now)
    {
      generation.MarkAsProcessing();
      atCall := generation.State();
      var params := generation.inputParameters;
      var tone := StringOr(params, "tone", "professional");
      var message := BuildEmailUserMessage(generation.inputText, EmailContext(params));
      sent := ChatRequest(EmailSystemPrompt(tone), message);
      var outcome := provider(sent);
      Settle(generation, outcome, now);
    }

    /** `failed`. */
    method Failed(message: string)
      modifies generation
      ensures generation.State() == ToFailed(old(generation.State()), PermanentFailurePrefix + message)
    {
      generation.MarkAsFailed(PermanentFailurePrefix + message);
    }
  }
}
