/**
 * The generate-cv edge function (supabase/functions/generate-cv/index.ts): it sums up the
 * user's turns, asks the model for a CV, and answers `{cv}`: the parsed model output, or a
 * fixed record when that output does not parse.
 */
module CvGeneration {
  import opened Wrappers
  import opened Transcript
  import opened Http
  import opened ModelOutput
  import opened CvRecord

  const MissingKeyMessage := "GOOGLE_API_KEY is not configured"
  const FailureMessage := "Failed to generate CV"
  const RequestPrefix := "Generate CV from: "

  /**
   * One invocation, from the parsed body on. The request is the second user part sent to
   * the model (the fixed instruction part before it is not modelled); None when the model is
   * not called.
   */
  function HandleGenerate(googleApiKey: Option<string>, messages: seq<Message>, upstream: Upstream, parse: string -> Option<Json>)
    : (ex: Exchange<string, Json>)
    ensures !Configured(googleApiKey) ==> ex == Exchange(None, ServerError(MissingKeyMessage))
    ensures Configured(googleApiKey) ==> ex.request == Some(RequestPrefix + UserSummary(messages))
    ensures Configured(googleApiKey) ==>
      ex.response == StructuredResponse(upstream, FailureMessage, parse, "cv", CvJson(GeneratedFallback))
  {
    if !Configured(googleApiKey) then Exchange(None, ServerError(MissingKeyMessage))
    else
      var conversationSummary := UserSummary(messages);
      Exchange(Some(RequestPrefix + conversationSummary),
               StructuredResponse(upstream, FailureMessage, parse, "cv", CvJson(GeneratedFallback)))
  }

  /** The fallback record: one education entry, one experience entry at "Previous Company", three skills. */
  lemma FallbackShape()
    ensures GeneratedFallback.name == "Professional Candidate"
    ensures |GeneratedFallback.education| == 1 && |GeneratedFallback.experience| == 1 && |GeneratedFallback.skills| == 3
    ensures GeneratedFallback.experience[0].company == "Previous Company"
    ensures GeneratedFallback.experience[0].period == "2020-Present"
  {
  }

  /**
   * Output that parses is sent unchanged; output that does not is replaced by the fallback,
   * which reads back as the fallback record; neither is an error.
   */
  lemma ParsedOrFallback(googleApiKey: Option<string>, messages: seq<Message>, upstream: Upstream, parse: string -> Option<Json>)
    requires Configured(googleApiKey) && IsOk(upstream.status) && upstream.content.Success?
    ensures var ex := HandleGenerate(googleApiKey, messages, upstream, parse);
      var text := StripFences(upstream.content.value);
      ex.response.status == 200 && ex.response.body.Payload?
      && ex.response.body.value.JObject? && |ex.response.body.value.fields| == 1
      && ex.response.body.value.fields[0].key == "cv"
      && (parse(text).Some? ==> ex.response.body.value.fields[0].value == parse(text).value)
      && (parse(text).None? ==> CvOf(ex.response.body.value.fields[0].value) == Some(GeneratedFallback))
  {
    CvRoundTrip(GeneratedFallback);
  }

  /** Only the user's turns reach the model: a turn of any other role leaves the request as it was. */
  lemma RequestIgnoresOtherRoles(googleApiKey: Option<string>, messages: seq<Message>, m: Message, upstream: Upstream, parse: string -> Option<Json>)
    requires m.role != "user"
    ensures HandleGenerate(googleApiKey, messages + [m], upstream, parse).request
         == HandleGenerate(googleApiKey, messages, upstream, parse).request
  {
    UserSummarySnoc(messages, m);
  }
}
