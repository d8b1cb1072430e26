/** The five form requests' rule lists as validity predicates over the request data
    the validator receives (after the framework has trimmed strings and turned
    empty ones into null). A request is accepted when every rule of every field
    passes. */
module Validation {
  import opened Php
  import opened Prompts
  import ArticleService
  import RewriteService
  import SummaryService
  import EmailService
  import TranslationService

  /** `trim($s) === ''`: only spaces, tabs, line breaks, NUL and vertical tabs. */
  predicate Blank(s: string) {
    forall i :: 0 <= i < |s| ==> s[i] in {' ', '\t', '\n', '\r', '\0', '\U{000B}'}
  }

  /** The `required` rule: present, not null, and not a blank string. */
  predicate Required(data: Params, key: string) {
    key in data && data[key] != JNull && !(data[key].JStr? && Blank(data[key].str))
  }

  /** The `string`, `min` and `max` rules on a string field. */
  predicate StringOfLength(v: Json, min: int, max: int) {
    v.JStr? && min <= |v.str| <= max
  }

  /** The `string` and `in:` rules. */
  predicate StringIn(v: Json, options: seq<string>) {
    v.JStr? && v.str in options
  }

  /** The `integer`, `min` and `max` rules. */
  predicate IntegerBetween(v: Json, min: int, max: int) {
    v.JInt? && min <= v.num <= max
  }

  const Tones: seq<string> := ["professional", "casual", "academic", "creative", "persuasive"]
  const SummaryFormats: seq<string> := ["bullets", "paragraph", "executive"]
  const EmailTones: seq<string> := ["professional", "casual", "formal", "friendly"]

  /** `GenerateArticleRequest::rules`. */
  predicate ValidArticle(data: Params) {
    && Required(data, "topic") && StringOfLength(data["topic"], 10, 500)
    && ("tone" in data ==> StringIn(data["tone"], Tones))
    && ("word_count" in data ==> IntegerBetween(data["word_count"], 100, 2000))
  }

  /** `RewriteTextRequest::rules`. */
  predicate ValidRewrite(data: Params) {
    && Required(data, "text") && StringOfLength(data["text"], 20, 5000)
    && ("tone" in data ==> StringIn(data["tone"], Tones))
  }

  /** `SummarizeTextRequest::rules`. */
  predicate ValidSummary(data: Params) {
    && Required(data, "text") && StringOfLength(data["text"], 100, 10000)
    && ("format" in data ==> StringIn(data["format"], SummaryFormats))
  }

  /** `GenerateEmailRequest::rules`. */
  predicate ValidEmail(data: Params) {
    && Required(data, "purpose") && StringOfLength(data["purpose"], 10, 1000)
    && ("tone" in data ==> StringIn(data["tone"], EmailTones))
    && ("recipient_name" in data ==> StringOfLength(data["recipient_name"], 0, 100))
    && ("sender_name" in data ==> StringOfLength(data["sender_name"], 0, 100))
    && ("additional_info" in data ==> StringOfLength(data["additional_info"], 0, 1000))
  }

  /** `TranslateTextRequest::rules`: the target must be a listed code, the source a
      listed code or 'auto'. */
  predicate ValidTranslation(data: Params) {
    && Required(data, "text") && StringOfLength(data["text"], 5, 5000)
    && Required(data, "target_language") && data["target_language"].JStr?
    && data["target_language"].str in TranslationService.SupportedLanguages
    && ("source_language" in data ==>
          data["source_language"].JStr?
          && (data["source_language"].str == "auto" || data["source_language"].str in TranslationService.SupportedLanguages))
  }

  /** Validated data is what each service's `create` reads: the input text is a
      string, and a translation has its target language. */
  lemma ValidatedIsCreatable(data: Params)
    ensures ValidArticle(data) ==> ArticleService.Creatable(data)
    ensures ValidRewrite(data) ==> RewriteService.Creatable(data)
    ensures ValidSummary(data) ==> SummaryService.Creatable(data)
    ensures ValidEmail(data) ==> EmailService.Creatable(data)
    ensures ValidTranslation(data) ==> TranslationService.Creatable(data)
  {
  }

  /** A request with only an acceptable main text is valid: every other field is
      optional (`sometimes`). */
  lemma OnlyTextAccepted(text: string)
    requires !Blank(text)
    ensures 10 <= |text| <= 500 ==> ValidArticle(map["topic" := JStr(text)])
    ensures 20 <= |text| <= 5000 ==> ValidRewrite(map["text" := JStr(text)])
    ensures 100 <= |text| <= 10000 ==> ValidSummary(map["text" := JStr(text)])
    ensures 10 <= |text| <= 1000 ==> ValidEmail(map["purpose" := JStr(text)])
  {
  }

  /** Every accepted rewrite tone is a key of the rewrite tone table, so the stored
      tone a worker reads back never takes the 'professional' fallback. */
  lemma ValidRewriteToneIsDescribed(data: Params)
    requires ValidRewrite(data)
    ensures StringOr(RewriteService.Parameters(data), "tone", "professional") in RewriteTones
  {
    var p := RewriteService.Parameters(data);
    assert forall t :: t in Tones ==> t in RewriteTones;
    if "tone" in data {
      assert p["tone"] == data["tone"];
    }
  }

  /** Every accepted summary format is one of the named arms of the format match. */
  lemma ValidSummaryFormatIsNamed(data: Params)
    requires ValidSummary(data)
    ensures var f := StringOr(SummaryService.Parameters(data), "format", "bullets");
            f == "bullets" || f == "paragraph" || f == "executive"
  {
    var p := SummaryService.Parameters(data);
    if "format" in data {
      assert p["format"] == data["format"];
    }
  }

  /** An accepted target language is a listed code and never 'auto'; the stored
      source language, given or defaulted, passes `isLanguageSupported`. */
  lemma ValidTranslationLanguages(data: Params)
    requires ValidTranslation(data)
    ensures data["target_language"].str in TranslationService.SupportedLanguages
    ensures data["target_language"].str != "auto"
    ensures TranslationService.IsLanguageSupported(
              StringOr(TranslationService.Parameters(data), "source_language", "auto"))
  {
    TranslationService.AutoIsNotALanguage();
    var p := TranslationService.Parameters(data);
    if "source_language" in data {
      assert p["source_language"] == data["source_language"];
    }
  }

  /** Every accepted email tone reaches the email prompt unchanged. */
  lemma ValidEmailTone(data: Params)
    requires ValidEmail(data)
    ensures var tone := StringOr(EmailService.Parameters(data), "tone", "professional");
            tone in EmailTones && Contains(EmailSystemPrompt(tone), "- Tone: " + tone)
  {
    var tone := StringOr(EmailService.Parameters(data), "tone", "professional");
    var p := EmailService.Parameters(data);
    if "tone" in data {
      assert p["tone"] == data["tone"];
    }
    EmailPromptMentions(tone);
  }
}
