# Content Genius API — a Dafny model of the credit ledger and the generation pipeline

Content Genius is a Laravel service that sells AI-generated text for credits. A user
starts with 100 credits. Each request costs a fixed price: an article costs 3, a
rewrite 2, a summary 1, an email 2 and a translation 2. Every request goes through the
same pipeline:

1. A form request validates the input.
2. A content service checks the balance, charges the price, and inserts a *pending*
   `ContentGeneration` record holding the input and its defaulted parameters.
3. The service dispatches one queued job for that record.
4. The job marks the record *processing*, asks the language-model provider, and marks
   the record *completed* (output and metadata) or *failed* (error message, one more
   counted attempt).
5. The history controller lists, shows and aggregates the caller's records.
6. A resource serialises one record, showing the output only when the record is
   completed and the error only when it failed.

This project models that core in Dafny and proves what the code promises about it.

| file | module | models |
|---|---|---|
| `php.dfy` | `Php` | PHP value semantics the code relies on: `??` on arrays, `empty()`, integer-to-string conversion |
| `enums.dfy` | `Enums` | `ContentType` (values, prices, labels) and `ContentStatus` (values, labels, `canRetry`, `isReady`) |
| `accounts.dfy` | `Accounts` | `User` as a class with the `credits` and `total_generations` counters |
| `credits.dfy` | `Credits` | `CreditService` |
| `generations.dfy` | `Generations` | `ContentGeneration` as a class; its transitions as pure functions on a state value |
| `store.dfy` | `Store` | the `content_generations` table and the job queue as a `Database` class; `where`/`latest`/`first` |
| `orchestration.dfy` | `Orchestration` | the check–charge–insert–dispatch sequence shared by the five content services |
| `services.dfy` | `ArticleService` … `TranslationService` | the five content services and `SUPPORTED_LANGUAGES` |
| `prompts.dfy` | `Prompts` | `OpenAIService` without HTTP: result shaping in `chat`, the prompts, the email user message |
| `jobs.dfy` | `Workers` | `RewriteTextJob`, `SummarizeTextJob`, `GenerateEmailJob` as classes over one record |
| `history.dfy` | `History` | `ContentHistoryController`: `index`, `show`, `stats` |
| `resource.dfy` | `Resource` | `ContentGenerationResource::toArray` |
| `validation.dfy` | `Validation` | the five form requests' rule lists as validity predicates |

## How the model is built

- **Mutable state as classes.**
  - A user's two counters and a record's changing columns (`status`, `output_text`,
    `metadata`, `error_message`, `retry_count`, `processed_at`) are `var` fields.
  - The columns fixed at creation are `const` fields, so no transition can change a
    record's uuid, owner, type, input or price.
  - The table and the queue are `seq` fields of a `Database` object. Methods append to
    them.
- **Transitions specified by functions.** Each `markAs*` method is specified by a pure
  function on a `RecordState` value: `ToProcessing`, `ToCompleted` and `ToFailed`. The
  lemmas about workers, retries and the resource are stated over those functions.
- **The provider is a parameter.** A worker's `Handle` takes it as a function from
  request to outcome. The outcome is a `ChatResult`, the array `chat` returns, or an
  exception message.
- **Uuids and the clock are parameters.** The caller supplies both. `Create` requires a
  uuid not yet used in the table; the time may be any natural number.
- **`latest()` is a sort.** The table is kept in insertion order, with no assumption
  about creation times along it. `Store.Latest` sorts by creation time, newest first,
  as a stable insertion into a newest-first list, and every listing is proved newest
  first and a permutation of the matching records.
- **Validation input.** The validity predicates take the data the validator sees. The
  framework's default middleware (trimming strings, converting empty strings to null) is
  left in place by `bootstrap/app.php`. So a blank optional field reaches the rules as
  null and fails `string`. Laravel's rule of skipping non-implicit rules for empty
  strings never applies, and it is not modelled.

## Where the model follows the code rather than the design notes

- **The record's transitions are unguarded.** The design describes a forward-only
  lifecycle. The code does not guard it: `markAsProcessing` works from any status,
  `markAsCompleted` keeps an earlier error message, and `markAsFailed` keeps an earlier
  output. `ToProcessing`, `ToCompleted` and `ToFailed` state exactly that.
- **`stats` counts records, not the account counter.** `total_generations` in `stats` is
  the number of the caller's records, not the user's `total_generations` counter.
  `UsageStats` models the count.

## Model

| member | source | states |
|---|---|---|
| Php.CoalesceOr | content-genius-api/app/Services/Content/ArticleService.php:40-41 | `$data[k] ?? d` yields the stored value when the key is present and not null, and the default when it is missing or null |
| Php.StringOr | content-genius-api/app/Jobs/RewriteTextJob.php:48 | a stored string parameter is passed on unchanged; a missing or null one becomes the default |
| Php.DecimalStringEmpty | content-genius-api/app/Services/OpenAI/OpenAIService.php:244-253 | an integer renders as a string that PHP's `empty()` rejects exactly when the integer is 0 |
| Php.JsonEmptyAgreesWithText | content-genius-api/app/Services/OpenAI/OpenAIService.php:244-253 | a value is empty in PHP's sense exactly when the text it is interpolated as is "" or "0" |
| Enums.ParseType | content-genius-api/app/Enums/ContentType.php:7-11 | parsing a backing string gives a case whose backing string it is |
| Enums.ParseTypeRoundTrip | content-genius-api/app/Enums/ContentType.php:7-11 | parsing succeeds with case t exactly on t's backing string, so the five values round-trip |
| Enums.TypeValueInjective | content-genius-api/app/Enums/ContentType.php:7-11 | distinct content types have distinct backing strings |
| Enums.AllContentTypesComplete | content-genius-api/app/Enums/ContentType.php:5-11 | `cases()` lists each of the five types exactly once |
| Enums.CreditCost | content-genius-api/app/Enums/ContentType.php:16-24 | every price lies between 1 and 3 |
| Enums.CostTable | content-genius-api/app/Enums/ContentType.php:18-24 | article 3, rewrite 2, summary 1, email 2, translation 2; every price is positive |
| Enums.TypeLabel | content-genius-api/app/Enums/ContentType.php:30-39 | the display label of each content type, one per case |
| Enums.ParseStatus | content-genius-api/app/Enums/ContentStatus.php:7-10 | parsing a status string gives a status whose value it is |
| Enums.ParseStatusRoundTrip | content-genius-api/app/Enums/ContentStatus.php:7-10 | parsing succeeds with status s exactly on s's value |
| Enums.StatusValueInjective | content-genius-api/app/Enums/ContentStatus.php:7-10 | distinct statuses have distinct values |
| Enums.ReadyExcludesRetry | content-genius-api/app/Enums/ContentStatus.php:15-26 | only "failed" is retryable, only "completed" is ready, and no status is both |
| Enums.StatusCanRetry | content-genius-api/app/Enums/ContentStatus.php:15-18 | a status is retryable exactly when it is failed |
| Enums.StatusIsReady | content-genius-api/app/Enums/ContentStatus.php:23-26 | a status is ready exactly when it is completed |
| Enums.StatusLabel | content-genius-api/app/Enums/ContentStatus.php:31-39 | the display label of each status, one per case |
| Accounts.User.Register | content-genius-api/app/Http/Controllers/Api/AuthController.php:25-30 | a new user starts with 100 credits and no generations |
| Accounts.User.HasCredits | content-genius-api/app/Models/User.php:64-67 | the balance is at least the amount asked for |
| Accounts.User.DeductCredits | content-genius-api/app/Models/User.php:72-82 | succeeds exactly when the balance covers the amount; then the balance drops by the amount and the count rises by 1; otherwise nothing changes; a success never leaves a negative balance |
| Accounts.User.AddCredits | content-genius-api/app/Models/User.php:87-90 | the balance rises by exactly the amount; the generation count is unchanged |
| Credits.DeductCredits | content-genius-api/app/Services/CreditService.php:30-44 | succeeds exactly when the balance covers the type's price; a success lowers the balance by the price (strictly) and counts one generation; a refusal changes nothing |
| Credits.RefundCredits | content-genius-api/app/Services/CreditService.php:49-52 | the balance rises by the type's price; the generation count is unchanged |
| Credits.ChargeThenRefund | content-genius-api/app/Services/CreditService.php:30-52 | a charge followed by a refund restores the balance, while the generation stays counted |
| Credits.GetPricing | content-genius-api/app/Services/CreditService.php:65-76 | exactly five entries; each type's value maps to its value, label and price; every key is a type's value |
| Credits.PricingOf | content-genius-api/app/Services/CreditService.php:67-75 | each listed type has its entry; every key parses as a type |
| Credits.KeysAreTheFiveValues | content-genius-api/app/Services/CreditService.php:67-75 | a map keyed by type values that has every type has exactly five keys |
| Credits.HasEnoughCredits | content-genius-api/app/Services/CreditService.php:14-17 | the balance covers the price of one generation of the type |
| Credits.GetBalance | content-genius-api/app/Services/CreditService.php:57-60 | the user's current credit balance |
| Generations.ToProcessing | content-genius-api/app/Models/ContentGeneration.php:109-112 | status becomes processing from any status; every other column stays |
| Generations.ToCompleted | content-genius-api/app/Models/ContentGeneration.php:117-125 | status, output, metadata and processing time are set; error message and retry count stay |
| Generations.ToFailed | content-genius-api/app/Models/ContentGeneration.php:130-137 | status failed, the message stored, retry count plus 1; output, metadata and processing time stay |
| Generations.RetryCountNeverDecreases | content-genius-api/app/Models/ContentGeneration.php:109-137 | processing and completion keep the retry count; failure raises it by exactly 1 |
| Generations.RetryEligibility | content-genius-api/app/Models/ContentGeneration.php:142-145 | a completed or processing record is not retryable; after a failure the record is retryable exactly when fewer than 2 attempts were counted before |
| Generations.AssignUuid | content-genius-api/app/Models/ContentGeneration.php:59-63 | an empty or missing uuid is replaced by the generated one; any other is kept; the result is non-empty when the generated one is |
| Generations.ContentGeneration.Create | content-genius-api/database/migrations/2024_01_15_000002_create_content_generations_table.php:16-36 | a new record has the settled uuid, the given attributes, no output, metadata or error, and zero retries |
| Generations.ContentGeneration.MarkAsProcessing | content-genius-api/app/Models/ContentGeneration.php:109-112 | the new state is `ToProcessing` of the old |
| Generations.ContentGeneration.MarkAsCompleted | content-genius-api/app/Models/ContentGeneration.php:117-125 | the new state is `ToCompleted` of the old |
| Generations.ContentGeneration.MarkAsFailed | content-genius-api/app/Models/ContentGeneration.php:130-137 | the new state is `ToFailed` of the old |
| Generations.ContentGeneration.CanRetry | content-genius-api/app/Models/ContentGeneration.php:142-145 | the record is failed and has been retried fewer than three times (`Generations.RetryEligibility` states it) |
| Generations.ContentGeneration.IsReady | content-genius-api/app/Models/ContentGeneration.php:150-153 | the record's status is completed |
| Store.MatchesAppend | content-genius-api/app/Http/Controllers/Api/ContentHistoryController.php:25-32 | chaining one more `where` narrows the query by exactly that clause |
| Store.Where | content-genius-api/app/Services/Content/ArticleService.php:57-59 | exactly the records satisfying every clause, in table order |
| Store.WhereCounts | content-genius-api/app/Services/Content/ArticleService.php:57-59 | a query keeps each matching record as many times as it is stored and adds no record |
| Store.LatestWhere | content-genius-api/app/Services/Content/ArticleService.php:68-71 | `where(...)->latest()`: exactly the matching records, each as many times as it is stored, newest first |
| Store.Latest | content-genius-api/app/Services/Content/ArticleService.php:70 | `ORDER BY created_at DESC`: a permutation of the records (same multiset, same length), newest first |
| Store.InsertByTime | content-genius-api/app/Services/Content/ArticleService.php:70 | one step of that sort: inserting a record into a newest-first list keeps it newest first and adds exactly that record |
| Store.First | content-genius-api/app/Services/Content/ArticleService.php:60 | the first result, or null exactly when there is none |
| Store.SubsequenceNewestFirst | content-genius-api/app/Http/Controllers/Api/ContentHistoryController.php:22-32 | filtering a newest-first list keeps it newest first |
| Store.LookupFindsUnique | content-genius-api/database/migrations/2024_01_15_000002_create_content_generations_table.php:16 | with unique uuids, a query ending in the uuid clause finds exactly that record first |
| Store.Database.Insert | content-genius-api/app/Services/Content/ArticleService.php:34-44 | the record is appended; the queue is unchanged; the invariant (unique non-empty uuids, jobs point to records) holds |
| Store.Database.Enqueue | content-genius-api/app/Services/Content/ArticleService.php:47 | the job is appended; the table is unchanged; the invariant holds |
| Orchestration.CreateGeneration | content-genius-api/app/Services/Content/ArticleService.php:21-50 | refused exactly when the balance is below the price, then nothing changes; otherwise the price is charged, one pending record with the input is appended, and one job for it is queued |
| Orchestration.GetByUuid | content-genius-api/app/Services/Content/ArticleService.php:55-61 | a caller's record of the service's type with that uuid, or null exactly when none exists |
| Orchestration.GetAllForUser | content-genius-api/app/Services/Content/ArticleService.php:66-72 | exactly the caller's records of the type, each as many times as it is stored (no record dropped or repeated), newest first; the page size is passed through uncapped |
| ArticleService.Parameters | content-genius-api/app/Services/Content/ArticleService.php:39-42 | stores tone and word count, defaulting to 'professional' and 500 |
| ArticleService.Create | content-genius-api/app/Services/Content/ArticleService.php:21-50 | refused below 3 credits with no change; otherwise charges 3 and stores a pending article for the topic, with one article job |
| ArticleService.GetByUuid | content-genius-api/app/Services/Content/ArticleService.php:55-61 | scoped to the caller, type article and the uuid |
| ArticleService.GetAllForUser | content-genius-api/app/Services/Content/ArticleService.php:66-72 | exactly the caller's articles, each as many times as it is stored, newest first |
| RewriteService.Parameters | content-genius-api/app/Services/Content/RewriteService.php:39-41 | stores the tone, defaulting to 'professional' |
| RewriteService.Create | content-genius-api/app/Services/Content/RewriteService.php:21-49 | refused below 2 credits with no change; otherwise charges 2 and stores a pending rewrite of the text, with one rewrite job |
| RewriteService.GetByUuid | content-genius-api/app/Services/Content/RewriteService.php:54-60 | scoped to the caller, type rewrite and the uuid |
| RewriteService.GetAllForUser | content-genius-api/app/Services/Content/RewriteService.php:65-71 | exactly the caller's rewrites, each as many times as it is stored, newest first |
| SummaryService.Parameters | content-genius-api/app/Services/Content/SummaryService.php:39-41 | stores the format, defaulting to 'bullets' |
| SummaryService.Create | content-genius-api/app/Services/Content/SummaryService.php:21-49 | refused below 1 credit with no change; otherwise charges 1 and stores a pending summary of the text, with one summary job |
| SummaryService.GetByUuid | content-genius-api/app/Services/Content/SummaryService.php:54-60 | scoped to the caller, type summary and the uuid |
| SummaryService.GetAllForUser | content-genius-api/app/Services/Content/SummaryService.php:65-71 | exactly the caller's summaries, each as many times as it is stored, newest first |
| EmailService.Parameters | content-genius-api/app/Services/Content/EmailService.php:39-44 | stores the tone (default 'professional') and recipient, sender and additional information (each null when not given) |
| EmailService.Create | content-genius-api/app/Services/Content/EmailService.php:21-52 | refused below 2 credits with no change; otherwise charges 2 and stores a pending email for the purpose, with one email job |
| EmailService.GetByUuid | content-genius-api/app/Services/Content/EmailService.php:57-63 | scoped to the caller, type email and the uuid |
| EmailService.GetAllForUser | content-genius-api/app/Services/Content/EmailService.php:68-74 | exactly the caller's emails, each as many times as it is stored, newest first |
| TranslationService.AutoIsNotALanguage | content-genius-api/app/Services/Content/TranslationService.php:103-106 | 'auto' is accepted by `isLanguageSupported` without being one of the listed codes |
| TranslationService.IsLanguageSupported | content-genius-api/app/Services/Content/TranslationService.php:103-106 | a code is accepted when it is one of the twelve listed or is "auto" |
| TranslationService.Parameters | content-genius-api/app/Services/Content/TranslationService.php:57-60 | stores the source language (default 'auto') and the target language as given |
| TranslationService.Create | content-genius-api/app/Services/Content/TranslationService.php:39-68 | refused below 2 credits with no change; otherwise charges 2 and stores a pending translation of the text, with one translation job |
| TranslationService.GetByUuid | content-genius-api/app/Services/Content/TranslationService.php:73-79 | scoped to the caller, type translation and the uuid |
| TranslationService.GetAllForUser | content-genius-api/app/Services/Content/TranslationService.php:84-90 | exactly the caller's translations, each as many times as it is stored, newest first |
| Prompts.Chat | content-genius-api/app/Services/OpenAI/OpenAIService.php:56-86 | success exactly when an answer was decoded, with content, usage and model defaulting to "", [] and the configured model; an error status gives the prefixed body as the error; a thrown exception gives its message |
| Prompts.ChatFailuresExplained | content-genius-api/app/Services/OpenAI/OpenAIService.php:76-85 | every failure `chat` reports carries an error message |
| Prompts.JoinContains | content-genius-api/app/Services/OpenAI/OpenAIService.php:146-160 | each heredoc line occurs in the prompt |
| Prompts.ArticlePromptMentions | content-genius-api/app/Services/OpenAI/OpenAIService.php:144-161 | the article prompt states the tone and the word count in decimal |
| Prompts.RewriteToneFallback | content-genius-api/app/Services/OpenAI/OpenAIService.php:166-189 | a listed tone's description is in the prompt; any other tone gets exactly the 'professional' prompt |
| Prompts.SummaryFormatFallback | content-genius-api/app/Services/OpenAI/OpenAIService.php:194-215 | a format other than the three named ones gets exactly the 'bullets' prompt |
| Prompts.SummaryPromptMentions | content-genius-api/app/Services/OpenAI/OpenAIService.php:196-208 | the prompt holds the chosen format's instruction |
| Prompts.SummaryFormatsDistinct | content-genius-api/app/Services/OpenAI/OpenAIService.php:196-201 | the three named formats have three different instructions |
| Prompts.EmailPromptMentions | content-genius-api/app/Services/OpenAI/OpenAIService.php:220-235 | the email prompt states the tone as given |
| Prompts.ContextLines | content-genius-api/app/Services/OpenAI/OpenAIService.php:244-254 | one line per non-empty context value, carrying its text, in the order recipient, sender, additional |
| Prompts.EmailMessageStartsWithPurpose | content-genius-api/app/Services/OpenAI/OpenAIService.php:242 | the email user message opens with the purpose line |
| Prompts.EmptyContextMessage | content-genius-api/app/Services/OpenAI/OpenAIService.php:240-257 | with no non-empty context value the message is the purpose line alone |
| Prompts.ContextLinesText | content-genius-api/app/Services/OpenAI/OpenAIService.php:244-254 | the three conditional appends produce exactly the lines `ContextLines` lists |
| Prompts.BuildEmailUserMessage | content-genius-api/app/Services/OpenAI/OpenAIService.php:240-257 | the message built step by step is the purpose line followed by the context lines |
| Prompts.SourceInfoCases | content-genius-api/app/Services/OpenAI/OpenAIService.php:264-266 | the prompt asks for detection exactly when the source is 'auto', and otherwise names the source |
| Prompts.TranslationPromptMentions | content-genius-api/app/Services/OpenAI/OpenAIService.php:262-281 | the translation prompt holds the source line and the target language |
| Prompts.TextIsTheUserMessage | content-genius-api/app/Services/OpenAI/OpenAIService.php:103-139 | rewriting, summarising and translating send the input text verbatim as the user message |
| Prompts.ArticleUserMessage | content-genius-api/app/Services/OpenAI/OpenAIService.php:92-98 | the article user message is the fixed lead-in followed by the topic, and nothing else |
| Prompts.ArticleSystemPrompt | content-genius-api/app/Services/OpenAI/OpenAIService.php:144-161 | the article system prompt: its lines with the tone and word count substituted (`Prompts.ArticlePromptMentions` states what it contains) |
| Prompts.ArticleRequest | content-genius-api/app/Services/OpenAI/OpenAIService.php:92-98 | `generateArticle` sends the article system prompt and the lead-in followed by the topic |
| Prompts.ToneDescription | content-genius-api/app/Services/OpenAI/OpenAIService.php:168-176 | the listed rewrite tone's description, "professional"'s for any other (`Prompts.RewriteToneFallback`) |
| Prompts.RewriteSystemPrompt | content-genius-api/app/Services/OpenAI/OpenAIService.php:166-189 | the rewrite system prompt built around the tone's description |
| Prompts.RewriteRequest | content-genius-api/app/Services/OpenAI/OpenAIService.php:103-108 | `rewriteText` sends the rewrite system prompt with the text as user message |
| Prompts.SummaryFormatInstruction | content-genius-api/app/Services/OpenAI/OpenAIService.php:196-201 | the instruction for each named format, the bullets one otherwise (`Prompts.SummaryFormatFallback`) |
| Prompts.SummarySystemPrompt | content-genius-api/app/Services/OpenAI/OpenAIService.php:194-215 | the summary system prompt built around the format instruction (`Prompts.SummaryPromptMentions`) |
| Prompts.SummaryRequest | content-genius-api/app/Services/OpenAI/OpenAIService.php:113-118 | `summarizeText` sends the summary system prompt with the text as user message |
| Prompts.EmailSystemPrompt | content-genius-api/app/Services/OpenAI/OpenAIService.php:220-235 | the email system prompt with the tone substituted (`Prompts.EmailPromptMentions`) |
| Prompts.EmailUserMessage | content-genius-api/app/Services/OpenAI/OpenAIService.php:240-257 | the purpose followed by one context line per non-empty field (`Prompts.BuildEmailUserMessage`) |
| Prompts.EmailRequest | content-genius-api/app/Services/OpenAI/OpenAIService.php:123-129 | `generateEmail` sends the email system prompt and the built user message |
| Prompts.SourceInfo | content-genius-api/app/Services/OpenAI/OpenAIService.php:264-266 | the source-language phrase: detection for "auto", the named language otherwise (`Prompts.SourceInfoCases`) |
| Prompts.TranslationSystemPrompt | content-genius-api/app/Services/OpenAI/OpenAIService.php:262-281 | the translation system prompt naming target and source (`Prompts.TranslationPromptMentions`) |
| Prompts.TranslationRequest | content-genius-api/app/Services/OpenAI/OpenAIService.php:134-139 | `translateText` sends the translation system prompt with the text as user message |
| Workers.HandleSettles | content-genius-api/app/Jobs/RewriteTextJob.php:38-71 | `handle` leaves the record completed exactly when the provider succeeded, and failed otherwise |
| Workers.HandleSuccess | content-genius-api/app/Jobs/RewriteTextJob.php:51-59 | a success stores the content, the model, usage and time as metadata, and the time as processed; the record is ready and not retryable |
| Workers.HandleFailure | content-genius-api/app/Jobs/RewriteTextJob.php:65-70 | a failure stores the provider error, 'Unknown error', or the exception message, and counts one attempt; the record stays retryable exactly while fewer than 2 attempts were counted before |
| Workers.ChatFailureMessages | content-genius-api/app/Services/OpenAI/OpenAIService.php:59-85 | fed by `chat`, an error status stores the prefixed body and an exception stores its message |
| Workers.PermanentFailure | content-genius-api/app/Jobs/RewriteTextJob.php:90-99 | the permanent-failure hook leaves the record failed with the prefixed message and one more attempt counted |
| Workers.RecordFailure | content-genius-api/app/Jobs/RewriteTextJob.php:76-85 | `handleFailure` makes the record's new state `ToFailed` of the old |
| Workers.Settle | content-genius-api/app/Jobs/RewriteTextJob.php:50-70 | after the provider call, the record is settled by the provider's outcome |
| Workers.FailureMessage | content-genius-api/app/Jobs/RewriteTextJob.php:63-70 | the message `handleFailure` receives: the reported error, "Unknown error" when none is reported, or the exception's message |
| Workers.Settled | content-genius-api/app/Jobs/RewriteTextJob.php:50-70 | from processing: completed with the provider's content and metadata on success, failed with the failure message otherwise |
| Workers.AfterHandle | content-genius-api/app/Jobs/RewriteTextJob.php:38-71 | the state after `handle`: processing, then settled by the provider outcome (`Workers.HandleSettles`) |
| Workers.RewriteTextJob.Handle | content-genius-api/app/Jobs/RewriteTextJob.php:38-71 | processing before the call; the provider gets the rewrite prompt for the stored tone ('professional' by default) and the text; the record ends in the settled state |
| Workers.RewriteTextJob.Failed | content-genius-api/app/Jobs/RewriteTextJob.php:90-99 | the record is failed with 'Job failed permanently: ' before the message |
| Workers.SummarizeTextJob.Handle | content-genius-api/app/Jobs/SummarizeTextJob.php:38-71 | processing before the call; the provider gets the summary prompt for the stored format ('bullets' by default) and the text; the record ends in the settled state |
| Workers.SummarizeTextJob.Failed | content-genius-api/app/Jobs/SummarizeTextJob.php:90-99 | the record is failed with 'Job failed permanently: ' before the message |
| Workers.EmailContext | content-genius-api/app/Jobs/GenerateEmailJob.php:49-53 | the context holds the three keys, each the stored value or null |
| Workers.ForwardedContextSameMessage | content-genius-api/app/Jobs/GenerateEmailJob.php:44-54 | forwarding the stored values through the context gives the same user message as the stored parameters themselves |
| Workers.GenerateEmailJob.Handle | content-genius-api/app/Jobs/GenerateEmailJob.php:38-76 | processing before the call; the provider gets the email prompt for the stored tone and the message built from the purpose and the context; the record ends in the settled state |
| Workers.GenerateEmailJob.Failed | content-genius-api/app/Jobs/GenerateEmailJob.php:95-104 | the record is failed with 'Job failed permanently: ' before the message |
| History.PerPage | content-genius-api/app/Http/Controllers/Api/ContentHistoryController.php:34 | the page size is 15 when none is asked for, the request when at most 100, and never above 100 |
| History.IndexCriteriaMeaning | content-genius-api/app/Http/Controllers/Api/ContentHistoryController.php:22-32 | the clauses select the caller's records, narrowed by type and status only when those were sent |
| History.Index | content-genius-api/app/Http/Controllers/Api/ContentHistoryController.php:18-50 | exactly the caller's records matching the filters sent, each as many times as it is stored, newest first, with the capped page size |
| History.UnfilteredIndexListsAllOwn | content-genius-api/app/Http/Controllers/Api/ContentHistoryController.php:22 | without filters, a record is listed exactly when it is the caller's |
| History.Show | content-genius-api/app/Http/Controllers/Api/ContentHistoryController.php:55-69 | the caller's record with the uuid, of any type, or not found exactly when there is none |
| History.ShowIsScopedToOwner | content-genius-api/app/Http/Controllers/Api/ContentHistoryController.php:57-64 | with unique uuids, the caller's record is found and another user's record is never shown |
| History.CountOfType | content-genius-api/app/Http/Controllers/Api/ContentHistoryController.php:78-81 | a type's count is at most the total and is 0 exactly when no record has the type |
| History.CountOfStatus | content-genius-api/app/Http/Controllers/Api/ContentHistoryController.php:93-94 | a status count is at most the total, and is 0 exactly when no record has that status |
| History.StatusCountIsQueryCount | content-genius-api/app/Http/Controllers/Api/ContentHistoryController.php:93-94 | the status count equals the size of the query `where('status', s)` over the caller's records |
| History.GroupByType | content-genius-api/app/Http/Controllers/Api/ContentHistoryController.php:78-89 | one entry per present type, keyed by its value, with its count and credit sum; no other keys |
| History.UsageStats | content-genius-api/app/Http/Controllers/Api/ContentHistoryController.php:74-106 | the overview counts, sums and balance over the caller's records; `by_type` has exactly the present types with their count and credit sum |
| History.TypeCountsPartition | content-genius-api/app/Http/Controllers/Api/ContentHistoryController.php:78-91 | the five per-type counts add up to the number of records |
| History.TypeCreditsPartition | content-genius-api/app/Http/Controllers/Api/ContentHistoryController.php:78-92 | the five per-type credit sums add up to the total credits spent |
| History.AbsentTypeSpendsNothing | content-genius-api/app/Http/Controllers/Api/ContentHistoryController.php:78-89 | a type with no records contributes no credits |
| History.CompletedAndFailedAtMostTotal | content-genius-api/app/Http/Controllers/Api/ContentHistoryController.php:91-94 | completed plus failed never exceed the total |
| History.StatsAreConsistent | content-genius-api/app/Http/Controllers/Api/ContentHistoryController.php:78-104 | the `by_type` counts add up to `total_generations` and their credits to `total_credits_spent`; completed plus failed are at most the total |
| Resource.Render | content-genius-api/app/Http/Resources/ContentGenerationResource.php:13-37 | output and metadata are shown exactly when completed; error exactly when failed, with `can_retry` exactly when fewer than 3 attempts; type and status round-trip; the other fields pass through |
| Resource.ToArray | content-genius-api/app/Http/Resources/ContentGenerationResource.php:13-37 | the record's view: output exactly when completed, error exactly when failed, uuid, input and price unchanged |
| Resource.OutputAndErrorExclusive | content-genius-api/app/Http/Resources/ContentGenerationResource.php:25-31 | a view never shows both an output and an error |
| Resource.ViewAfterHandle | content-genius-api/app/Http/Resources/ContentGenerationResource.php:25-33 | after a worker's `handle`, the view shows the generated text on success, and otherwise the error with `can_retry` exactly while fewer than 2 earlier attempts had failed |
| Validation.ValidatedIsCreatable | content-genius-api/app/Http/Requests/Content/TranslateTextRequest.php:27-28 | data accepted by any of the five rule lists has what that service's `create` reads: its text as a string, and for a translation the target language |
| Validation.OnlyTextAccepted | content-genius-api/app/Http/Requests/Content/GenerateArticleRequest.php:23-25 | a request with only an acceptable main text is accepted by the article, rewrite, summary and email rules |
| Validation.ValidRewriteToneIsDescribed | content-genius-api/app/Http/Requests/Content/RewriteTextRequest.php:24 | every accepted rewrite tone, stored and read back, is a key of the tone table, so the 'professional' fallback is never taken |
| Validation.ValidSummaryFormatIsNamed | content-genius-api/app/Http/Requests/Content/SummarizeTextRequest.php:24 | every accepted format, stored and read back, is one of the three named arms |
| Validation.ValidTranslationLanguages | content-genius-api/app/Http/Requests/Content/TranslateTextRequest.php:24-29 | an accepted target is a listed code and never 'auto'; the stored source language passes `isLanguageSupported` |
| Validation.ValidEmailTone | content-genius-api/app/Http/Requests/Content/GenerateEmailRequest.php:24 | an accepted email tone is one of the four allowed and reaches the email prompt unchanged |
| Validation.ValidArticle | content-genius-api/app/Http/Requests/Content/GenerateArticleRequest.php:23-25 | topic required, a string of 10 to 500 characters; tone, when sent, one of five; word_count, when sent, an integer from 100 to 2000 |
| Validation.ValidRewrite | content-genius-api/app/Http/Requests/Content/RewriteTextRequest.php:23-24 | text required, a string of 20 to 5000 characters; tone, when sent, one of five |
| Validation.ValidSummary | content-genius-api/app/Http/Requests/Content/SummarizeTextRequest.php:23-24 | text required, a string of 100 to 10000 characters; format, when sent, bullets, paragraph or executive |
| Validation.ValidEmail | content-genius-api/app/Http/Requests/Content/GenerateEmailRequest.php:23-27 | purpose required, a string of 10 to 1000 characters; tone, when sent, one of four; the names at most 100 and the extra information at most 1000 characters |
| Validation.ValidTranslation | content-genius-api/app/Http/Requests/Content/TranslateTextRequest.php:24-29 | text required, a string of 5 to 5000 characters; target a listed code; source, when sent, "auto" or a listed code |

## Left out

- HTTP, routing and response envelopes are left out: the per-type controllers,
  `ProfileController`, `routes/api.php` and the exception rendering in
  `bootstrap/app.php`. They only map a refused `create` to an insufficient-credits
  response.
- `AuthController` is left out (password hashing, tokens, sessions). Only its starting
  balance of 100 is kept, in `Accounts.User.Register`. The users table schema is not
  part of this model; a new user's generation count of 0 is taken as its default.
- The outbound HTTP call in `OpenAIService::client`/`chat` is a parameter. The request
  payload (`max_tokens`, the floating-point `temperature`) and `config/openai.php` are
  not modelled. The decoded response is an `HttpOutcome`.
- Concurrency is left out. `CreditService::deductCredits` runs in a transaction but
  takes no row lock; the model is sequential and claims nothing about races. The
  `refresh()` before the re-check reads back the value already held.
- Queue mechanics are left out: `$tries`, `$backoff`, delivery and redelivery. The
  permanent-failure hook `failed` is modelled as a method the queue may call at any time.
- Logging is left out.
- `GenerateArticleJob` and `TranslateTextJob` are not part of this model.
  `ArticleRequest` and `TranslationRequest` model what `generateArticle` and
  `translateText` send.
- Pagination arithmetic (`currentPage`, `lastPage`, slicing into pages) lives in the
  framework and is left out. A listing is all matching records with the page size
  handed to `paginate`.
- `getSupportedLanguages` returns the constant `TranslationService.SupportedLanguages`;
  it has no separate member.
- `getCreditCost` is `Enums.CreditCost`, and `getBalance` is `Credits.GetBalance`.
- Timestamps are natural numbers; their ISO-8601 rendering is not modelled. One clock
  reading serves both `processed_at` and `generated_at`.
- Throwing paths other than the provider call are not modelled: a database error
  inside `markAsCompleted`, or a missing `target_language` in a translation's `create`.
  `Creatable` requires the fields `create` reads, which the form requests guarantee
  (`Validation.ValidatedIsCreatable`).
- Lengths are counted in Dafny characters, which are Unicode scalar values. That is what
  Laravel's `min`/`max` count with `mb_strlen` on valid UTF-8, so the two agree on every
  valid UTF-8 string. Request bodies that are not valid UTF-8 are not modelled.
- Store.Latest: among records with equal `created_at`, SQL leaves the order unspecified;
  the model fixes one (later insertions first). The proved properties (newest first, a
  permutation) do not depend on that choice.
- History.PerPage: a `per_page` that is not an integer is not modelled. Neither is the
  framework's substitution of the model's default page size for 0.
- History.Index: a filter sent empty (`?type=`) reaches the query as null, and
  `where('type', null)` matches no record. The model filters on the empty string,
  which matches no record either; the null comparison itself is not modelled.
- Validation.ValidArticle: the `integer` rule also accepts numeric strings such as
  "500"; the predicate accepts only integer values.
- Generations.ContentGeneration.Create: the creating hook's uuid generator is a
  parameter. Uniqueness of uuids is a precondition of inserting, not a property of the
  generator.
- TranslationService: the number of supported languages (12) is not stated as a lemma.
  The twelve codes are the map's literal entries.
