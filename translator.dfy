/**
 * The decision logic of `TranslationService` (src/translator.py). The two
 * chat-completion calls are oracles: `DetectOracle` gives the model's raw
 * reply to the language question, `TranslateOracle` the raw reply to the
 * translation request, and `None` stands for a call that raised.
 */
module Translator {
  import opened Wrappers
  import opened Text

  type DetectOracle = string -> Option<string>
  type TranslateOracle = (string, string) -> Option<string>

  const Unknown := "Unknown"

  /** The dictionary built by `_create_translation_result`. */
  datatype TranslationResult = TranslationResult(
    original: string,
    translated: string,
    sourceLanguage: string,
    needsTranslation: bool)

  /**
   * `detect_language`: texts with fewer than three characters once stripped
   * are "Unknown" without a call; a failed call is "Unknown"; otherwise the
   * stripped reply. Whatever it returns has no whitespace at either end.
   */
  function DetectLanguage(detect: DetectOracle, text: string): (r: string)
    ensures IsStripped(r)
    ensures |Strip(text)| < 3 ==> r == Unknown
    ensures |Strip(text)| >= 3 ==>
              r == (if detect(text).Some? then Strip(detect(text).value) else Unknown)
  {
    assert IsStripped(Unknown) by {
      assert Unknown[0] == 'U' && Unknown[|Unknown| - 1] == 'n';
    }
    if text == [] || |Strip(text)| < 3 then Unknown
    else
      match detect(text)
      case Some(reply) => Strip(reply)
      case None => Unknown
  }

  /** Short texts are decided before the model is asked: any two oracles agree on them. */
  lemma ShortTextSkipsDetection(d1: DetectOracle, d2: DetectOracle, text: string)
    requires |Strip(text)| < 3
    ensures DetectLanguage(d1, text) == DetectLanguage(d2, text) == Unknown
  {
  }

  /**
   * `_should_translate`: the language, lower-cased, is neither "english" nor
   * "unknown". Translation is skipped exactly for those two names, spelt in
   * any mix of upper and lower case.
   */
  function ShouldTranslate(language: string): (r: bool)
    ensures !r <==> SpellsIgnoringCase(language, "english") || SpellsIgnoringCase(language, "unknown")
  {
    LowerIsWordIff(language, "english");
    LowerIsWordIff(language, "unknown");
    Lower(language) !in ["english", "unknown"]
  }

  /** The sentinel itself is never translated. */
  lemma UnknownNotTranslated()
    ensures !ShouldTranslate(Unknown)
  {
  }

  /**
   * `_call_translation_api` as seen by its caller: the reply is stripped
   * before it is returned, so a successful translation never has whitespace
   * at either end.
   */
  function TranslationCall(translate: TranslateOracle, text: string, language: string): (r: Option<string>)
    ensures r.Some? <==> translate(text, language).Some?
    ensures r.Some? ==> IsStripped(r.value)
    ensures r.Some? ==> r.value == Strip(translate(text, language).value)
  {
    match translate(text, language)
    case Some(reply) => Some(Strip(reply))
    case None => None
  }

  /** The language `translate_to_english` works with: the one given, or else the detected one. */
  function ChosenLanguage(detect: DetectOracle, text: string, sourceLanguage: Option<string>): string {
    if sourceLanguage.Some? then sourceLanguage.value else DetectLanguage(detect, text)
  }

  /**
   * `translate_to_english`. Blank text is returned as is with "Unknown";
   * otherwise the language is the given one or else the detected one, the
   * model is asked only when `ShouldTranslate` holds, and a failed call
   * falls back to the original text with the language kept.
   */
  function TranslateToEnglish(
    detect: DetectOracle, translate: TranslateOracle, text: string, sourceLanguage: Option<string>
  ): (r: TranslationResult)
    ensures r.original == text
    ensures AllSpace(text) ==> r == TranslationResult(text, text, Unknown, false)
    ensures !AllSpace(text) ==> r.sourceLanguage == ChosenLanguage(detect, text, sourceLanguage)
    ensures r.needsTranslation <==>
              !AllSpace(text) && ShouldTranslate(ChosenLanguage(detect, text, sourceLanguage))
              && translate(text, ChosenLanguage(detect, text, sourceLanguage)).Some?
    ensures r.needsTranslation ==>
              r.translated == Strip(translate(text, ChosenLanguage(detect, text, sourceLanguage)).value)
    ensures r.needsTranslation ==> IsStripped(r.translated)
    ensures !r.needsTranslation ==> r.translated == text
  {
    if text == [] || |Strip(text)| < 1 then
      TranslationResult(text, text, Unknown, false)
    else
      var language := ChosenLanguage(detect, text, sourceLanguage);
      if !ShouldTranslate(language) then
        TranslationResult(text, text, language, false)
      else
        match TranslationCall(translate, text, language)
        case Some(translated) => TranslationResult(text, translated, language, true)
        case None => TranslationResult(text, text, language, false)
  }

  /** With a language given, detection is never consulted: any two detectors agree. */
  lemma GivenLanguageSkipsDetection(
    d1: DetectOracle, d2: DetectOracle, translate: TranslateOracle, text: string, language: string)
    ensures TranslateToEnglish(d1, translate, text, Some(language))
         == TranslateToEnglish(d2, translate, text, Some(language))
  {
  }

  /**
   * Text with fewer than three characters once stripped is never sent for
   * translation when no language is given: it comes back unchanged, as
   * "Unknown", whatever either model would have said.
   */
  lemma ShortTextNeverTranslated(detect: DetectOracle, translate: TranslateOracle, text: string)
    requires |Strip(text)| < 3
    ensures TranslateToEnglish(detect, translate, text, None)
         == TranslationResult(text, text, Unknown, false)
  {
    UnknownNotTranslated();
  }

  /**
   * A translation is only ever marked as performed for a language other
   * than English or Unknown (in any case), and only when the call succeeded.
   */
  lemma TranslatedOnlyForeignLanguages(
    detect: DetectOracle, translate: TranslateOracle, text: string, sourceLanguage: Option<string>)
    ensures var r := TranslateToEnglish(detect, translate, text, sourceLanguage);
            r.needsTranslation ==>
              !SpellsIgnoringCase(r.sourceLanguage, "english")
              && !SpellsIgnoringCase(r.sourceLanguage, "unknown")
              && translate(text, r.sourceLanguage).Some?
  {
  }

  /** `batch_translate`: one result per text, in order, each with its language detected. */
  method BatchTranslate(detect: DetectOracle, translate: TranslateOracle, texts: seq<string>)
    returns (results: seq<TranslationResult>)
    ensures |results| == |texts|
    ensures forall i :: 0 <= i < |texts| ==> results[i] == TranslateToEnglish(detect, translate, texts[i], None)
    ensures forall i :: 0 <= i < |texts| ==> results[i].original == texts[i]
  {
    results := [];
    for i := 0 to |texts|
      invariant |results| == i
      invariant forall k :: 0 <= k < i ==> results[k] == TranslateToEnglish(detect, translate, texts[k], None)
    {
      results := results + [TranslateToEnglish(detect, translate, texts[i], None)];
    }
  }
}
