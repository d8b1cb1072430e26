/** `OpenAIService` without the HTTP client: the shaping of a chat completion
    response into a result, the system prompts and user messages each generator
    sends, and the email user message assembled from optional context lines. */
module Prompts {
  import opened Php
  import opened Generations

  /** The two messages of one chat completion request. */
  datatype ChatRequest = ChatRequest(systemPrompt: string, userMessage: string)

  /** What `chat` returns: `success => true` with content, usage and model, or
      `success => false` with an optional `error`. */
  datatype ChatResult =
    | ChatSuccess(content: string, usage: Usage, model: string)
    | ChatFailure(error: Option<string>)

  /** What the HTTP exchange yields: an error status with its body, a decoded answer
      whose fields may be missing, or an exception thrown by the client. */
  datatype HttpOutcome =
    | Rejected(body: string)
    | Answered(content: Option<string>, usage: Option<Usage>, model: Option<string>)
    | Raised(message: string)

  /** `chat` after the request is sent: a failed response becomes an exception that
      the handler turns into an error result, like a thrown one; an answer fills in
      the empty content, the empty usage and the configured model when missing. */
  function Chat(outcome: HttpOutcome, configuredModel: string): (r: ChatResult)
    ensures r.ChatSuccess? <==> outcome.Answered?
    ensures outcome.Rejected? ==> r == ChatFailure(Some("OpenAI API request failed: " + outcome.body))
    ensures outcome.Raised? ==> r == ChatFailure(Some(outcome.message))
    ensures outcome.Answered? ==>
              && r.content == outcome.content.GetOr("")
              && r.usage == outcome.usage.GetOr(map[])
              && r.model == outcome.model.GetOr(configuredModel)
  {
    match outcome
    case Rejected(body) => ChatFailure(Some("OpenAI API request failed: " + body))
    case Raised(message) => ChatFailure(Some(message))
    case Answered(content, usage, model) =>
      ChatSuccess(content.GetOr(""), usage.GetOr(map[]), model.GetOr(configuredModel))
  }

  /** Every failure `chat` reports carries an error message. */
  lemma ChatFailuresExplained(outcome: HttpOutcome, configuredModel: string)
    ensures Chat(outcome, configuredModel).ChatFailure? ==> Chat(outcome, configuredModel).error.Some?
  {
  }

  /** The lines of a heredoc joined by line breaks, with no line break at the end. */
  function Join(lines: seq<string>): string {
    if |lines| == 0 then ""
    else if |lines| == 1 then lines[0]
    else lines[0] + "\n" + Join(lines[1..])
  }

  /** `part` occurs somewhere in `text`. */
  ghost predicate Contains(text: string, part: string) {
    exists i, j :: 0 <= i <= j <= |text| && text[i..j] == part
  }

  lemma ContainsPrefix(a: string, b: string)
    ensures Contains(a + b, a)
  {
    assert (a + b)[0..|a|] == a;
  }

  lemma ContainsInSuffix(a: string, b: string, part: string)
    requires Contains(b, part)
    ensures Contains(a + b, part)
  {
    var i, j :| 0 <= i <= j <= |b| && b[i..j] == part;
    assert (a + b)[|a| + i..|a| + j] == b[i..j];
  }

  /** Each line of a heredoc occurs in the joined text. */
  lemma {:induction false} JoinContains(lines: seq<string>, k: int)
    requires 0 <= k < |lines|
    ensures Contains(Join(lines), lines[k])
  {
    if |lines| == 1 {
      assert Join(lines)[0..|lines[0]|] == lines[0];
    } else if k == 0 {
      assert Join(lines) == lines[0] + ("\n" + Join(lines[1..]));
      ContainsPrefix(lines[0], "\n" + Join(lines[1..]));
    } else {
      JoinContains(lines[1..], k - 1);
      ContainsInSuffix(lines[0] + "\n", Join(lines[1..]), lines[k]);
    }
  }

  /** `buildArticleSystemPrompt`, line by line. */
  function ArticleLines(tone: string, wordCount: int): seq<string> {
    [ "You are an expert content writer. Your task is to write engaging, well-structured articles.",
      "",
      "Guidelines:",
      "- Tone: " + tone,
      "- Target word count: approximately " + DecimalString(wordCount) + " words",
      "- Include a compelling introduction",
      "- Use clear headings and subheadings (markdown format)",
      "- Provide valuable, actionable information",
      "- End with a strong conclusion",
      "- Write in a natural, human-like style",
      "- Ensure content is original and informative",
      "",
      "Output the article in markdown format." ]
  }

  function ArticleSystemPrompt(tone: string, wordCount: int): string {
    Join(ArticleLines(tone, wordCount))
  }

  /** The article prompt states the requested tone and the word count in decimal. */
  lemma ArticlePromptMentions(tone: string, wordCount: int)
    ensures Contains(ArticleSystemPrompt(tone, wordCount), "- Tone: " + tone)
    ensures Contains(ArticleSystemPrompt(tone, wordCount),
                     "- Target word count: approximately " + DecimalString(wordCount) + " words")
  {
    JoinContains(ArticleLines(tone, wordCount), 3);
    JoinContains(ArticleLines(tone, wordCount), 4);
  }

  /** The tone descriptions of `buildRewriteSystemPrompt`. */
  const RewriteTones: map<string, string> := map[
    "professional" := "formal, business-appropriate, clear and concise",
    "casual" := "friendly, conversational, approachable",
    "academic" := "scholarly, precise, well-researched",
    "creative" := "engaging, imaginative, expressive",
    "persuasive" := "compelling, convincing, action-oriented"]

  /** `$toneDescriptions[$tone] ?? $toneDescriptions['professional']`. */
  function ToneDescription(tone: string): string {
    if tone in RewriteTones then RewriteTones[tone] else RewriteTones["professional"]
  }

  function RewriteLines(description: string): seq<string> {
    [ "You are an expert editor and rewriter. Your task is to rewrite the provided text while:",
      "",
      "- Maintaining the original meaning and key information",
      "- Adapting the tone to be: " + description,
      "- Improving clarity and readability",
      "- Fixing any grammatical errors",
      "- Enhancing the overall flow",
      "",
      "Output only the rewritten text without any explanations or prefixes." ]
  }

  function RewriteSystemPrompt(tone: string): string {
    Join(RewriteLines(ToneDescription(tone)))
  }

  /** A listed tone puts its own description into the prompt; any other tone gets
      exactly the prompt of 'professional'. */
  lemma RewriteToneFallback(tone: string)
    ensures tone in RewriteTones ==> Contains(RewriteSystemPrompt(tone), "- Adapting the tone to be: " + RewriteTones[tone])
    ensures tone !in RewriteTones ==> RewriteSystemPrompt(tone) == RewriteSystemPrompt("professional")
  {
    JoinContains(RewriteLines(ToneDescription(tone)), 3);
  }

  /** The format instruction of `buildSummarySystemPrompt`. */
  function SummaryFormatInstruction(format: string): string {
    match format
    case "bullets" => "Present the summary as a bullet point list with key takeaways."
    case "paragraph" => "Write a concise paragraph summarizing the main points."
    case "executive" => "Write an executive summary suitable for business stakeholders."
    case _ => "Present the summary as a bullet point list with key takeaways."
  }

  function SummaryLines(instruction: string): seq<string> {
    [ "You are an expert at summarizing complex information. Your task is to create clear, accurate summaries.",
      "",
      "Guidelines:",
      "- Extract the most important information",
      "- " + instruction,
      "- Be concise but comprehensive",
      "- Maintain accuracy to the source material",
      "- Highlight key insights and conclusions",
      "",
      "Output only the summary without any introductory phrases." ]
  }

  function SummarySystemPrompt(format: string): string {
    Join(SummaryLines(SummaryFormatInstruction(format)))
  }

  /** Any format other than the three named ones gets exactly the prompt of
      'bullets'. */
  lemma SummaryFormatFallback(format: string)
    ensures format != "bullets" && format != "paragraph" && format != "executive" ==>
              SummarySystemPrompt(format) == SummarySystemPrompt("bullets")
  {
    if format != "bullets" && format != "paragraph" && format != "executive" {
      var instruction := SummaryFormatInstruction(format);
      assert instruction == SummaryFormatInstruction("bullets");
    }
  }

  /** Every format's instruction is in its prompt. */
  lemma SummaryPromptMentions(format: string)
    ensures Contains(SummarySystemPrompt(format), "- " + SummaryFormatInstruction(format))
  {
    JoinContains(SummaryLines(SummaryFormatInstruction(format)), 4);
  }

  /** The three named formats have three different instructions. */
  lemma SummaryFormatsDistinct()
    ensures SummaryFormatInstruction("bullets") != SummaryFormatInstruction("paragraph")
    ensures SummaryFormatInstruction("bullets") != SummaryFormatInstruction("executive")
    ensures SummaryFormatInstruction("paragraph") != SummaryFormatInstruction("executive")
  {
    var bullets := "Present the summary as a bullet point list with key takeaways.";
    var paragraph := "Write a concise paragraph summarizing the main points.";
    var executive := "Write an executive summary suitable for business stakeholders.";
    assert bullets != paragraph && bullets != executive && paragraph != executive;
  }

  function EmailLines(tone: string): seq<string> {
    [ "You are an expert business communication specialist. Your task is to write professional emails.",
      "",
      "Guidelines:",
      "- Tone: " + tone,
      "- Include appropriate greeting and closing",
      "- Be clear and concise",
      "- Structure content logically",
      "- Use professional language",
      "- Include a clear call-to-action when appropriate",
      "",
      "Output the complete email including subject line (prefixed with \"Subject: \")." ]
  }

  function EmailSystemPrompt(tone: string): string {
    Join(EmailLines(tone))
  }

  /** The email prompt states the tone as given, whatever it is. */
  lemma EmailPromptMentions(tone: string)
    ensures Contains(EmailSystemPrompt(tone), "- Tone: " + tone)
  {
    JoinContains(EmailLines(tone), 3);
  }

  /** One optional line of the email user message. */
  datatype EmailLine = Recipient(name: string) | Sender(name: string) | Additional(info: string)

  /** Position of a line kind in the message. */
  function Rank(l: EmailLine): int {
    match l
    case Recipient(_) => 0
    case Sender(_) => 1
    case Additional(_) => 2
  }

  /** The context key a line is taken from. */
  function Key(l: EmailLine): string {
    match l
    case Recipient(_) => "recipient_name"
    case Sender(_) => "sender_name"
    case Additional(_) => "additional_info"
  }

  /** The value a line carries. */
  function Value(l: EmailLine): string {
    match l
    case Recipient(v) => v
    case Sender(v) => v
    case Additional(v) => v
  }

  /** `!empty($context[$key])`: the key is present and its value is not null, "", "0"
      or the integer 0. */
  predicate Given(ctx: Params, key: string) {
    key in ctx && !JsonEmpty(ctx[key])
  }

  /** The text a present value is interpolated as. */
  function Text(ctx: Params, key: string): string
    requires key in ctx
  {
    AsString(ctx[key])
  }

  /** How many of the three context values are given. */
  function GivenCount(ctx: Params): int {
    (if Given(ctx, "recipient_name") then 1 else 0)
    + (if Given(ctx, "sender_name") then 1 else 0)
    + (if Given(ctx, "additional_info") then 1 else 0)
  }

  /** The optional lines that the context calls for: one for each given value,
      carrying that value's text, in the order recipient, sender, additional. */
  function ContextLines(ctx: Params): (ls: seq<EmailLine>)
    ensures |ls| == GivenCount(ctx)
    ensures forall i, j :: 0 <= i < j < |ls| ==> Rank(ls[i]) < Rank(ls[j])
    ensures forall l :: l in ls ==> Given(ctx, Key(l)) && Value(l) == Text(ctx, Key(l))
    ensures Given(ctx, "recipient_name") ==> Recipient(Text(ctx, "recipient_name")) in ls
    ensures Given(ctx, "sender_name") ==> Sender(Text(ctx, "sender_name")) in ls
    ensures Given(ctx, "additional_info") ==> Additional(Text(ctx, "additional_info")) in ls
  {
    var r := if Given(ctx, "recipient_name") then [Recipient(Text(ctx, "recipient_name"))] else [];
    var s := if Given(ctx, "sender_name") then [Sender(Text(ctx, "sender_name"))] else [];
    var a := if Given(ctx, "additional_info") then [Additional(Text(ctx, "additional_info"))] else [];
    assert forall l :: l in r + s + a ==> l in r || l in s || l in a;
    r + s + a
  }

  const PurposeLead := "Write an email for the following purpose: "
  const RecipientLead := "\nRecipient: "
  const SenderLead := "\nSender: "
  const AdditionalLead := "\nAdditional context: "

  /** The first line of every email user message. */
  function PurposeLine(purpose: string): string {
    PurposeLead + purpose
  }

  /** The text of one optional line, starting with its line break. */
  function LineText(l: EmailLine): string {
    match l
    case Recipient(name) => RecipientLead + name
    case Sender(name) => SenderLead + name
    case Additional(info) => AdditionalLead + info
  }

  /** The texts of the given optional lines. */
  function Texts(ls: seq<EmailLine>): (ts: seq<string>)
    ensures |ts| == |ls|
    ensures forall i :: 0 <= i < |ls| ==> ts[i] == LineText(ls[i])
  {
    if ls == [] then [] else [LineText(ls[0])] + Texts(ls[1..])
  }

  /** Strings one after the other. */
  function Concat(ts: seq<string>): string
    decreases |ts|
  {
    if ts == [] then "" else Concat(ts[..|ts| - 1]) + ts[|ts| - 1]
  }

  /** The given optional lines, one after the other. */
  function Tail(ls: seq<EmailLine>): string {
    Concat(Texts(ls))
  }

  /** The email user message for a purpose and a context: the purpose line, then the
      lines the context calls for. */
  function EmailUserMessage(purpose: string, ctx: Params): string {
    PurposeLine(purpose) + Tail(ContextLines(ctx))
  }

  /** The message always opens with the purpose line. */
  lemma EmailMessageStartsWithPurpose(purpose: string, ctx: Params)
    ensures Contains(EmailUserMessage(purpose, ctx), PurposeLine(purpose))
    ensures EmailUserMessage(purpose, ctx)[..|PurposeLine(purpose)|] == PurposeLine(purpose)
  {
    ContainsPrefix(PurposeLine(purpose), Tail(ContextLines(ctx)));
  }

  /** With no usable context value the message is the purpose line alone. */
  lemma EmptyContextMessage(purpose: string, ctx: Params)
    requires !Given(ctx, "recipient_name") && !Given(ctx, "sender_name") && !Given(ctx, "additional_info")
    ensures EmailUserMessage(purpose, ctx) == PurposeLine(purpose)
  {
    assert ContextLines(ctx) == [];
    AppendNothing(PurposeLine(purpose));
  }

  lemma AppendNothing(m: string)
    ensures m + "" == m
  {
  }

  /** What one `if (!empty(...)) $message .= ...` step appends. */
  function OptionalLine(ctx: Params, key: string, lead: string): string {
    if Given(ctx, key) then lead + Text(ctx, key) else ""
  }

  lemma Assoc(a: string, b: string, c: string)
    ensures (a + b) + c == a + (b + c)
  {
  }

  lemma {:induction false} ConcatAppend(xs: seq<string>, ys: seq<string>)
    ensures Concat(xs + ys) == Concat(xs) + Concat(ys)
    decreases |ys|
  {
    if ys == [] {
      assert xs + ys == xs;
      AppendNothing(Concat(xs));
    } else {
      var zs := xs + ys;
      assert zs[..|zs| - 1] == xs + ys[..|ys| - 1];
      ConcatAppend(xs, ys[..|ys| - 1]);
      Assoc(Concat(xs), Concat(ys[..|ys| - 1]), ys[|ys| - 1]);
    }
  }

  lemma ConcatSingle(t: string)
    ensures Concat([t]) == t
  {
    assert [t][..0] == [];
  }

  /** The three optional steps append exactly the lines `ContextLines` lists. */
  lemma ContextLinesText(ctx: Params)
    ensures Tail(ContextLines(ctx)) == OptionalLine(ctx, "recipient_name", RecipientLead)
                                       + OptionalLine(ctx, "sender_name", SenderLead)
                                       + OptionalLine(ctx, "additional_info", AdditionalLead)
  {
    var r := if Given(ctx, "recipient_name") then [Recipient(Text(ctx, "recipient_name"))] else [];
    var s := if Given(ctx, "sender_name") then [Sender(Text(ctx, "sender_name"))] else [];
    var a := if Given(ctx, "additional_info") then [Additional(Text(ctx, "additional_info"))] else [];
    assert ContextLines(ctx) == r + s + a;
    assert Texts(r + s + a) == Texts(r) + Texts(s) + Texts(a);
    ConcatAppend(Texts(r) + Texts(s), Texts(a));
    ConcatAppend(Texts(r), Texts(s));
    if r != [] { ConcatSingle(Texts(r)[0]); }
    if s != [] { ConcatSingle(Texts(s)[0]); }
    if a != [] { ConcatSingle(Texts(a)[0]); }
  }

  /** `buildEmailUserMessage`: start from the purpose line and append each context
      line whose value is non-empty, in the order recipient, sender, additional. */
  method BuildEmailUserMessage(purpose: string, ctx: Params) returns (message: string)
    ensures message == EmailUserMessage(purpose, ctx)
  {
    message := PurposeLead + purpose;
    ghost var start := message;
    if Given(ctx, "recipient_name") {
      message := message + (RecipientLead + Text(ctx, "recipient_name"));
    } else {
      AppendNothing(message);
    }
    assert message == start + OptionalLine(ctx, "recipient_name", RecipientLead);
    ghost var afterRecipient := message;
    if Given(ctx, "sender_name") {
      message := message + (SenderLead + Text(ctx, "sender_name"));
    } else {
      AppendNothing(message);
    }
    assert message == afterRecipient + OptionalLine(ctx, "sender_name", SenderLead);
    ghost var afterSender := message;
    if Given(ctx, "additional_info") {
      message := message + (AdditionalLead + Text(ctx, "additional_info"));
    } else {
      AppendNothing(message);
    }
    assert message == afterSender + OptionalLine(ctx, "additional_info", AdditionalLead);
    ContextLinesText(ctx);
    Assoc(start, OptionalLine(ctx, "recipient_name", RecipientLead), OptionalLine(ctx, "sender_name", SenderLead));
    Assoc(start, OptionalLine(ctx, "recipient_name", RecipientLead) + OptionalLine(ctx, "sender_name", SenderLead),
          OptionalLine(ctx, "additional_info", AdditionalLead));
  }

  /** The source-language line of `buildTranslationSystemPrompt`. */
  function SourceInfo(sourceLanguage: string): string {
    if sourceLanguage == "auto" then "Auto-detect the source language"
    else "Source language: " + sourceLanguage
  }

  /** The prompt asks for detection exactly when the source is 'auto'; otherwise it
      names the source language. */
  lemma SourceInfoCases(sourceLanguage: string)
    ensures SourceInfo(sourceLanguage) == "Auto-detect the source language" <==> sourceLanguage == "auto"
    ensures sourceLanguage != "auto" ==> SourceInfo(sourceLanguage)[|"Source language: "|..] == sourceLanguage
  {
    if sourceLanguage != "auto" {
      assert SourceInfo(sourceLanguage)[0] == 'S';
    }
  }

  function TranslationLines(targetLanguage: string, sourceLanguage: string): seq<string> {
    [ "You are an expert translator with deep cultural knowledge. Your task is to translate text accurately.",
      "",
      "Guidelines:",
      "- " + SourceInfo(sourceLanguage),
      "- Target language: " + targetLanguage,
      "- Maintain the original meaning and tone",
      "- Adapt cultural references appropriately",
      "- Use natural expressions in the target language",
      "- Preserve formatting when possible",
      "",
      "Output only the translated text without any explanations." ]
  }

  function TranslationSystemPrompt(targetLanguage: string, sourceLanguage: string): string {
    Join(TranslationLines(targetLanguage, sourceLanguage))
  }

  /** The translation prompt states the source line and the target language. */
  lemma TranslationPromptMentions(targetLanguage: string, sourceLanguage: string)
    ensures Contains(TranslationSystemPrompt(targetLanguage, sourceLanguage), "- " + SourceInfo(sourceLanguage))
    ensures Contains(TranslationSystemPrompt(targetLanguage, sourceLanguage), "- Target language: " + targetLanguage)
  {
    JoinContains(TranslationLines(targetLanguage, sourceLanguage), 3);
    JoinContains(TranslationLines(targetLanguage, sourceLanguage), 4);
  }

  const ArticleLeadIn := "Write an article about: "

  /** `generateArticle`: the article prompt and the topic after the lead-in. */
  function ArticleRequest(topic: string, tone: string, wordCount: int): ChatRequest {
    ChatRequest(ArticleSystemPrompt(tone, wordCount), ArticleLeadIn + topic)
  }

  /** `rewriteText`: the text itself is the user message. */
  function RewriteRequest(text: string, tone: string): ChatRequest {
    ChatRequest(RewriteSystemPrompt(tone), text)
  }

  /** `summarizeText`: the text itself is the user message. */
  function SummaryRequest(text: string, format: string): ChatRequest {
    ChatRequest(SummarySystemPrompt(format), text)
  }

  /** `generateEmail`: the email prompt and the assembled user message. */
  function EmailRequest(purpose: string, tone: string, ctx: Params): ChatRequest {
    ChatRequest(EmailSystemPrompt(tone), EmailUserMessage(purpose, ctx))
  }

  /** `translateText`: the text itself is the user message. */
  function TranslationRequest(text: string, targetLanguage: string, sourceLanguage: string): ChatRequest {
    ChatRequest(TranslationSystemPrompt(targetLanguage, sourceLanguage), text)
  }

  /** Rewriting, summarising and translating send the input text verbatim as the
      whole user message. */
  lemma TextIsTheUserMessage(input: string, tone: string, format: string,
                             targetLanguage: string, sourceLanguage: string)
    ensures RewriteRequest(input, tone).userMessage == input
    ensures SummaryRequest(input, format).userMessage == input
    ensures TranslationRequest(input, targetLanguage, sourceLanguage).userMessage == input
  {
  }

  /** Articles send the topic after a fixed lead-in, and nothing else. */
  lemma ArticleUserMessage(topic: string, tone: string, wordCount: int)
    ensures ArticleRequest(topic, tone, wordCount).userMessage[..|ArticleLeadIn|] == ArticleLeadIn
    ensures ArticleRequest(topic, tone, wordCount).userMessage[|ArticleLeadIn|..] == topic
  {
  }
}
