/** `ContentGenerationResource`: the JSON shape of one record. The `output` and
    `metadata` keys appear only for a completed record and the `error` key only for a
    failed one; every other key is always there. */
module Resource {
  import opened Php
  import opened Enums
  import opened Generations
  import opened Workers

  /** A key under `$this->when(...)`: left out of the array, or present with a value. */
  datatype Key<T> = Omitted | Shown(value: T)

  /** The `error` block. */
  datatype ErrorView = ErrorView(message: Option<string>, canRetry: bool)

  /** The array `toArray` returns. */
  datatype View = View(
    uuid: string,
    typeValue: string,
    typeLabel: string,
    statusValue: string,
    statusLabel: string,
    inputText: string,
    inputParameters: Params,
    output: Key<Option<string>>,
    error: Key<ErrorView>,
    creditsUsed: int,
    metadata: Key<Option<Metadata>>,
    processedAt: Option<Timestamp>,
    createdAt: Timestamp)

  /** The array for a record with the given fixed attributes in state `s`. */
  function Render(uuid: string, t: ContentType, inputText: string, inputParameters: Params,
                  creditsUsed: int, createdAt: Timestamp, s: RecordState): (v: View)
    ensures v.output.Shown? <==> s.status == Completed
    ensures v.metadata.Shown? <==> s.status == Completed
    ensures v.error.Shown? <==> s.status == Failed
    ensures v.output.Shown? ==> v.output.value == s.outputText
    ensures v.metadata.Shown? ==> v.metadata.value == s.metadata
    ensures v.error.Shown? ==>
              v.error.value.message == s.errorMessage && (v.error.value.canRetry <==> s.retryCount < MaxRetries)
    ensures ParseType(v.typeValue) == Some(t) && ParseStatus(v.statusValue) == Some(s.status)
    ensures v.typeLabel == TypeLabel(t) && v.statusLabel == StatusLabel(s.status)
    ensures v.uuid == uuid && v.inputText == inputText && v.inputParameters == inputParameters
    ensures v.creditsUsed == creditsUsed && v.processedAt == s.processedAt && v.createdAt == createdAt
  {
    ParseTypeRoundTrip(t, TypeValue(t));
    ParseStatusRoundTrip(s.status, StatusValue(s.status));
    var ready := StatusIsReady(s.status);
    View(uuid, TypeValue(t), TypeLabel(t), StatusValue(s.status), StatusLabel(s.status),
         inputText, inputParameters,
         if ready then Shown(s.outputText) else Omitted,
         if StatusValue(s.status) == "failed" then Shown(ErrorView(s.errorMessage, StateCanRetry(s))) else Omitted,
         creditsUsed,
         if ready then Shown(s.metadata) else Omitted,
         s.processedAt, createdAt)
  }

  /** `toArray` of a record. */
  function ToArray(g: ContentGeneration): (v: View)
    reads g
    ensures v.output.Shown? <==> g.status == Completed
    ensures v.error.Shown? <==> g.status == Failed
    ensures v.uuid == g.uuid && v.creditsUsed == g.creditsUsed && v.inputText == g.inputText
  {
    Render(g.uuid, g.contentType, g.inputText, g.inputParameters, g.creditsUsed, g.createdAt, g.State())
  }

  /** A view never shows both an output and an error. */
  lemma OutputAndErrorExclusive(uuid: string, t: ContentType, inputText: string, inputParameters: Params,
                                creditsUsed: int, createdAt: Timestamp, s: RecordState)
    ensures var v := Render(uuid, t, inputText, inputParameters, creditsUsed, createdAt, s);
            !(v.output.Shown? && v.error.Shown?)
  {
  }

  /** After a worker's `handle`, the record's view shows the generated text when the
      provider succeeded, and otherwise the error with `can_retry` true exactly while
      fewer than two attempts had failed before. */
  lemma ViewAfterHandle(uuid: string, t: ContentType, inputText: string, inputParameters: Params,
                        creditsUsed: int, createdAt: Timestamp, s: RecordState,
                        outcome: ProviderOutcome, now: Timestamp)
    ensures var v := Render(uuid, t, inputText, inputParameters, creditsUsed, createdAt, AfterHandle(s, outcome, now));
            && (Succeeded(outcome) ==> v.output == Shown(Some(outcome.result.content)) && v.error.Omitted?)
            && (!Succeeded(outcome) ==> v.output.Omitted? && v.error.Shown?
                                        && v.error.value.message == Some(FailureMessage(outcome))
                                        && (v.error.value.canRetry <==> s.retryCount < MaxRetries - 1))
  {
    HandleSettles(s, outcome, now);
  }
}
