/**
 * The generate-matches edge function (supabase/functions/generate-matches/index.ts): it
 * sums up the user's turns, asks the model for job matches, and answers `{companies}`:
 * the parsed model output, or three fixed companies when that output does not parse.
 */
module Matches {
  import opened Wrappers
  import opened Transcript
  import opened Http
  import opened ModelOutput

  const MissingKeyMessage := "LOVABLE_API_KEY is not configured"
  const FailureMessage := "Failed to generate matches"
  const ProfilePrefix := "User profile: "

  /** A company entry; coordinates in ten-thousandths of a degree, longitude first. */
  datatype Company = Company(name: string, position: string, location: string, description: string, longitude: int, latitude: int)

  /** The entry as JSON: `coordinates` is the array `[longitude, latitude]` of decimal numbers. */
  function CompanyJson(c: Company): Json
  {
    JObject([Field("name", JString(c.name)), Field("position", JString(c.position)),
             Field("location", JString(c.location)), Field("description", JString(c.description)),
             Field("coordinates", JArray([JNumber(c.longitude, -4), JNumber(c.latitude, -4)]))])
  }

  /** Lines 106-128: the companies used when the model's text does not parse. */
  const FallbackCompanies: seq<Company> := [
    Company("Tech Solutions Inc", "Software Developer", "San Francisco, USA",
            "Looking for talented developers to join our innovative team. Great benefits and growth opportunities.",
            -1224194, 377749),
    Company("Digital Marketing Pro", "Marketing Specialist", "New York, USA",
            "Join our creative marketing team. Work on exciting campaigns for leading brands.",
            -740060, 407128),
    Company("Finance Corp", "Financial Analyst", "London, UK",
            "Prestigious financial firm seeking analytical minds. Competitive compensation package.",
            -1276, 515074)]

  function FallbackJson(): (j: Json)
    ensures j.JArray? && |j.items| == |FallbackCompanies|
    ensures forall i :: 0 <= i < |FallbackCompanies| ==> j.items[i] == CompanyJson(FallbackCompanies[i])
  {
    JArray(seq(|FallbackCompanies|, i requires 0 <= i < |FallbackCompanies| => CompanyJson(FallbackCompanies[i])))
  }

  /**
   * One invocation, from the parsed body on. The request is the user message sent to the
   * model (the fixed system message beside it is not modelled); None when the model is not called.
   */
  function HandleMatches(lovableApiKey: Option<string>, messages: seq<Message>, upstream: Upstream, parse: string -> Option<Json>)
    : (ex: Exchange<string, Json>)
    ensures !Configured(lovableApiKey) ==> ex == Exchange(None, ServerError(MissingKeyMessage))
    ensures Configured(lovableApiKey) ==> ex.request == Some(ProfilePrefix + UserSummary(messages))
    ensures Configured(lovableApiKey) ==>
      ex.response == StructuredResponse(upstream, FailureMessage, parse, "companies", FallbackJson())
  {
    if !Configured(lovableApiKey) then Exchange(None, ServerError(MissingKeyMessage))
    else
      var conversationSummary := UserSummary(messages);
      Exchange(Some(ProfilePrefix + conversationSummary),
               StructuredResponse(upstream, FailureMessage, parse, "companies", FallbackJson()))
  }

  /** The fallback is the three fixed companies, in this order. */
  lemma FallbackOrder()
    ensures |FallbackCompanies| == 3
    ensures FallbackCompanies[0].name == "Tech Solutions Inc"
    ensures FallbackCompanies[1].name == "Digital Marketing Pro"
    ensures FallbackCompanies[2].name == "Finance Corp"
  {
  }

  /** Output that parses is sent unchanged; output that does not is replaced by the fallback, never by an error. */
  lemma ParsedOrFallback(lovableApiKey: Option<string>, messages: seq<Message>, upstream: Upstream, parse: string -> Option<Json>)
    requires Configured(lovableApiKey) && IsOk(upstream.status) && upstream.content.Success?
    ensures var ex := HandleMatches(lovableApiKey, messages, upstream, parse);
      var text := StripFences(upstream.content.value);
      ex.response.status == 200
      && (parse(text).Some? ==> ex.response.body == Payload(JObject([Field("companies", parse(text).value)])))
      && (parse(text).None? ==> ex.response.body == Payload(JObject([Field("companies", FallbackJson())])))
  {
  }

  /** Only the user's turns reach the model: a turn of any other role leaves the request as it was. */
  lemma RequestIgnoresOtherRoles(lovableApiKey: Option<string>, messages: seq<Message>, m: Message, upstream: Upstream, parse: string -> Option<Json>)
    requires m.role != "user"
    ensures HandleMatches(lovableApiKey, messages + [m], upstream, parse).request
         == HandleMatches(lovableApiKey, messages, upstream, parse).request
  {
    UserSummarySnoc(messages, m);
  }

  /** A user turn is appended to the profile, after a space unless it is the first. */
  lemma RequestGrowsWithUserTurn(lovableApiKey: Option<string>, messages: seq<Message>, m: Message, upstream: Upstream, parse: string -> Option<Json>)
    requires Configured(lovableApiKey) && m.role == "user" && UserCount(messages) > 0
    ensures HandleMatches(lovableApiKey, messages + [m], upstream, parse).request
         == Some(ProfilePrefix + UserSummary(messages) + " " + m.content)
  {
    UserSummarySnoc(messages, m);
    assert ProfilePrefix + (UserSummary(messages) + " " + m.content) == ProfilePrefix + UserSummary(messages) + " " + m.content;
  }
}
