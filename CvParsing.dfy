/**
 * The parse-cv edge function (supabase/functions/parse-cv/index.ts): it refuses a missing or
 * too short CV text with a fixed "Unknown" record, and otherwise asks the model to read the
 * text and answers `{cv}`: the parsed model output, or a fixed record when that output does
 * not parse.
 */
module CvParsing {
  import opened Wrappers
  import opened Text
  import opened Http
  import opened ModelOutput
  import opened CvRecord

  const MissingKeyMessage := "GOOGLE_API_KEY is not configured"
  const FailureMessage := "Failed to parse CV"
  const RequestPrefix := "CV Text:\n"

  /** Line 24: the shortest accepted text, in UTF-16 code units after trimming. */
  const MinimumLength := 50

  /** `!cvText || cvText.trim().length < 50`: an absent, empty or short text is refused; `length` counts code units. */
  predicate TooShort(cvText: Option<string>)
  {
    cvText.None? || Utf16Length(Trim(cvText.value)) < MinimumLength
  }

  /** `{ cv: Unknown }`, sent with status 200. */
  function UnknownResponse(): Response<Json>
  {
    Response(200, Payload(JObject([Field("cv", CvJson(UnknownCv))])))
  }

  /**
   * One invocation, from the parsed body on. `cvText` is None when the body has no such
   * property. The request is the second user part sent to the model (the fixed instruction
   * part before it is not modelled); None when the model is not called.
   */
  function HandleParse(googleApiKey: Option<string>, cvText: Option<string>, upstream: Upstream, parse: string -> Option<Json>)
    : (ex: Exchange<string, Json>)
    ensures !Configured(googleApiKey) ==> ex == Exchange(None, ServerError(MissingKeyMessage))
    ensures Configured(googleApiKey) && TooShort(cvText) ==> ex == Exchange(None, UnknownResponse())
    ensures Configured(googleApiKey) && !TooShort(cvText) ==>
      ex.request == Some(RequestPrefix + cvText.value)
      && ex.response == StructuredResponse(upstream, FailureMessage, parse, "cv", CvJson(ParsedFallback))
  {
    if !Configured(googleApiKey) then Exchange(None, ServerError(MissingKeyMessage))
    else if TooShort(cvText) then Exchange(None, UnknownResponse())
    else
      Exchange(Some(RequestPrefix + cvText.value),
               StructuredResponse(upstream, FailureMessage, parse, "cv", CvJson(ParsedFallback)))
  }

  /** The model is called exactly when the key is configured and the trimmed text has at least 50 code units. */
  lemma ModelCalledOnlyForLongText(googleApiKey: Option<string>, cvText: Option<string>, upstream: Upstream, parse: string -> Option<Json>)
    ensures HandleParse(googleApiKey, cvText, upstream, parse).request.Some?
        <==> Configured(googleApiKey) && cvText.Some? && Utf16Length(Trim(cvText.value)) >= 50
  {
  }

  /** White space around a text does not count towards its length: a short text stays refused however it is padded. */
  lemma PaddingDoesNotCount(googleApiKey: Option<string>, before: string, text: string, after: string, upstream: Upstream, parse: string -> Option<Json>)
    requires Configured(googleApiKey)
    requires AllSpace(before) && AllSpace(after) && Trimmed(text) && Utf16Length(text) < 50
    ensures HandleParse(googleApiKey, Some(before + text + after), upstream, parse) == Exchange(None, UnknownResponse())
  {
    TrimOfPadded(before, text, after);
  }

  /** A text of plain (ASCII or other BMP) characters is measured by its number of characters. */
  lemma BmpTextCountsCharacters(googleApiKey: Option<string>, text: string, upstream: Upstream, parse: string -> Option<Json>)
    requires Configured(googleApiKey) && Trimmed(text)
    requires forall i :: 0 <= i < |text| ==> !IsAstral(text[i])
    ensures HandleParse(googleApiKey, Some(text), upstream, parse).request.Some? <==> |text| >= 50
  {
    TrimOfPadded("", text, "");
    assert "" + text + "" == text;
    Utf16LengthOfBmp(text);
  }

  /** Characters beyond the Basic Multilingual Plane count twice: 25 of them are long enough for the model to be called. */
  lemma AstralTextCountsTwice(googleApiKey: Option<string>, text: string, upstream: Upstream, parse: string -> Option<Json>)
    requires Configured(googleApiKey) && |text| == 25
    requires forall i :: 0 <= i < |text| ==> IsAstral(text[i])
    ensures HandleParse(googleApiKey, Some(text), upstream, parse).request == Some(RequestPrefix + text)
  {
    assert IsAstral(text[0]) && IsAstral(text[24]);
    TrimOfPadded("", text, "");
    assert "" + text + "" == text;
    Utf16LengthOfAstral(text);
  }

  /** For instance 25 copies of the mathematical capital A (U+1D400). */
  lemma MathematicalCapitalsAreLongEnough(googleApiKey: Option<string>, upstream: Upstream, parse: string -> Option<Json>)
    requires Configured(googleApiKey)
    ensures var text := seq(25, _ => '\U{1D400}');
      HandleParse(googleApiKey, Some(text), upstream, parse).request == Some(RequestPrefix + text)
  {
    AstralTextCountsTwice(googleApiKey, seq(25, _ => '\U{1D400}'), upstream, parse);
  }

  /** The refusal reads back as the "Unknown" record, with no education, experience or skills. */
  lemma RefusalIsUnknown()
    ensures UnknownResponse().body.value.fields[0].key == "cv"
    ensures CvOf(UnknownResponse().body.value.fields[0].value) == Some(UnknownCv)
    ensures UnknownCv.name == "Unknown"
    ensures UnknownCv.education == [] && UnknownCv.experience == [] && UnknownCv.skills == []
  {
    CvRoundTrip(UnknownCv);
  }

  /**
   * Output that parses is sent unchanged; output that does not is replaced by the fallback,
   * which reads back as the fallback record; neither is an error.
   */
  lemma ParsedOrFallback(googleApiKey: Option<string>, cvText: Option<string>, upstream: Upstream, parse: string -> Option<Json>)
    requires Configured(googleApiKey) && !TooShort(cvText) && IsOk(upstream.status) && upstream.content.Success?
    ensures var ex := HandleParse(googleApiKey, cvText, upstream, parse);
      var text := StripFences(upstream.content.value);
      ex.response.status == 200 && ex.response.body.Payload?
      && ex.response.body.value.JObject? && |ex.response.body.value.fields| == 1
      && ex.response.body.value.fields[0].key == "cv"
      && (parse(text).Some? ==> ex.response.body.value.fields[0].value == parse(text).value)
      && (parse(text).None? ==> CvOf(ex.response.body.value.fields[0].value) == Some(ParsedFallback))
  {
    CvRoundTrip(ParsedFallback);
  }

  /** The two CV handlers send different fallbacks: what the client reads tells them apart. */
  lemma FallbacksDiffer()
    ensures CvJson(ParsedFallback) != CvJson(GeneratedFallback)
    ensures ParsedFallback.experience[0].company == "Company" && ParsedFallback.experience[0].period == "2020-2024"
    ensures ParsedFallback.skills == ["Communication", "Problem Solving", "Teamwork"]
  {
    CvRoundTrip(ParsedFallback);
    CvRoundTrip(GeneratedFallback);
    assert ParsedFallback.experience[0].company != GeneratedFallback.experience[0].company;
  }
}
