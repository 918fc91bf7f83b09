/**
 * The text-to-speech edge function (supabase/functions/text-to-speech/index.ts): it checks its
 * key and its text, picks a Google Cloud voice for the requested voice id, asks the speech
 * service to synthesize the text, and passes the audio it gets back on unchanged.
 */
module Speech {
  import opened Wrappers
  import opened Text
  import opened Http

  const MissingKeyMessage := "GOOGLE_TTS_API_KEY is not configured"
  const NoTextMessage := "No text provided"
  const FailureMessage := "Failed to generate speech"
  const NoAudioMessage := "No audio content in response"

  const FemaleVoice := "en-US-Neural2-C"
  const MaleVoice := "en-US-Neural2-D"
  const AriaVoice := "en-US-Neural2-F"

  /** Lines 27-32: the own entries of `voiceMap`. */
  const VoiceMap: map<string, string> :=
    map["female" := FemaleVoice, "male" := MaleVoice, "aria" := AriaVoice, "default" := FemaleVoice]

  // ---------------------------------------------------------------- the lookup as written

  /** What reading a property of a plain JavaScript object gives. */
  datatype Member = Own(name: string) | Inherited(key: string) | Undefined

  /**
   * The property names every plain object inherits from `Object.prototype` that are written in
   * lower case only, so that a lower-cased key can reach them. The function runs on Deno, which
   * removes the `Object.prototype.__proto__` accessor, so "constructor" is the only one.
   */
  const InheritedKeys: set<string> := {"constructor"}

  /** `voiceMap[key]`: an own entry, else an inherited member, else `undefined`. */
  function Property(key: string): (m: Member)
  {
    if key in VoiceMap then Own(VoiceMap[key])
    else if key in InheritedKeys then Inherited(key)
    else Undefined
  }

  /** The `||` test: an empty string and `undefined` are falsy; the inherited members are a function and an object. */
  predicate Truthy(m: Member)
  {
    match m
    case Own(name) => name != ""
    case Inherited(_) => true
    case Undefined => false
  }

  /** `voiceId?.toLowerCase()` used as a property name: a missing id becomes the key "undefined". */
  function VoiceKey(voiceId: Option<string>): (key: string)
    ensures voiceId.Some? ==> key == Lower(voiceId.value)
    ensures voiceId.None? ==> key == "undefined"
  {
    if voiceId.Some? then Lower(voiceId.value) else "undefined"
  }

  /** Line 34 as written: `voiceMap[voiceId?.toLowerCase()] || voiceMap['default']`. */
  function LookupAsWritten(voiceId: Option<string>): (m: Member)
    ensures Truthy(m)
  {
    var m := Property(VoiceKey(voiceId));
    if Truthy(m) then m else Property("default")
  }

  // ---------------------------------------------------------------- the lookup as intended

  /** Line 34 on the own entries only: the entry for the lower-cased id, else the default. */
  function VoiceName(voiceId: Option<string>): (name: string)
    ensures name == FemaleVoice || name == MaleVoice || name == AriaVoice
  {
    var key := VoiceKey(voiceId);
    if key in VoiceMap then VoiceMap[key] else VoiceMap["default"]
  }

  /** Which voice each id selects: "male" and "aria" in any ASCII case pick their voices, anything else the female one. */
  lemma VoiceChoice(voiceId: Option<string>)
    ensures VoiceName(voiceId) == MaleVoice <==> voiceId.Some? && Lower(voiceId.value) == "male"
    ensures VoiceName(voiceId) == AriaVoice <==> voiceId.Some? && Lower(voiceId.value) == "aria"
    ensures VoiceName(voiceId) == FemaleVoice <==>
      !(voiceId.Some? && (Lower(voiceId.value) == "male" || Lower(voiceId.value) == "aria"))
  {
    assert FemaleVoice[14] == 'C' && MaleVoice[14] == 'D' && AriaVoice[14] == 'F';
  }

  /** The case of the id does not matter. */
  lemma CaseDoesNotMatter(a: string, b: string)
    requires Lower(a) == Lower(b)
    ensures VoiceName(Some(a)) == VoiceName(Some(b))
  {
  }

  /** A text with no ASCII capital is its own lower case. */
  lemma LowerWithoutCapitals(s: string)
    requires forall i :: 0 <= i < |s| ==> !('A' <= s[i] <= 'Z')
    ensures Lower(s) == s
  {
  }

  /** The ids offered by the voice selector (src/components/VoiceSelector.tsx) are twenty characters long. */
  const SelectorIds: seq<string> := [
    "9BWtsMINqrJLrRacOk9x", "CwhRBWXzGAHq8TQ4Fs17", "EXAVITQu4vr4xnSDxMaL", "FGY2WhTYpPnrIDTdsKH5",
    "IKne3meq5aSn9XLyUdCD", "TX3LPaxmHKxFdv7VOQHJ", "SAz9YHcvj6GT2YYXdXww"]

  /** None of the selector's ids is a key of the map, so each of them gets the default voice. */
  lemma SelectorIdsGetDefault(i: nat)
    requires i < |SelectorIds|
    ensures VoiceName(Some(SelectorIds[i])) == FemaleVoice
  {
    var id := SelectorIds[i];
    assert |id| == 20;
    VoiceChoice(Some(id));
  }

  /** Away from the inherited names, the lookup as written is the intended one. */
  lemma AsWrittenOnOwnKeys(voiceId: Option<string>)
    requires VoiceKey(voiceId) !in InheritedKeys
    ensures LookupAsWritten(voiceId) == Own(VoiceName(voiceId))
  {
  }

  /**
   * The lookup as written can miss the three voices: the id "Constructor" lowers to
   * "constructor", which the object inherits, and that member is truthy.
   */
  lemma InheritedNameEscapes()
    ensures LookupAsWritten(Some("Constructor")) == Inherited("constructor")
  {
    assert Lower("Constructor") == "constructor" by {
      assert Lower("Constructor")[0] == LowerChar('C') == 'c';
    }
  }

  /** Without the `__proto__` accessor, the id `__proto__` finds nothing and gets the default voice. */
  lemma ProtoKeyGetsDefault()
    ensures LookupAsWritten(Some("__proto__")) == Own(FemaleVoice)
    ensures VoiceName(Some("__proto__")) == FemaleVoice
  {
    LowerWithoutCapitals("__proto__");
  }

  // ---------------------------------------------------------------- the handler

  /** Lines 46-57: the body sent to the speech service. The speaking rate is the decimal 1.0. */
  datatype SynthesisRequest = SynthesisRequest(
    text: string, languageCode: string, voiceName: string, audioEncoding: string, pitch: int, speakingRate: real)

  /** What the speech service answered: its status, and `data.audioContent` (None: absent) or the message reading its body raised. */
  datatype SpeechUpstream = SpeechUpstream(status: int, audioContent: Result<Option<string>, string>)

  /** The `{ audio }` payload. */
  datatype Audio = Audio(audio: string)

  /** Lines 61-78: any failed call is a 500, whatever its status; an answer without audio is one too. */
  function SpeechResponse(upstream: SpeechUpstream): (r: Response<Audio>)
    ensures !IsOk(upstream.status) ==> r == ServerError(FailureMessage)
    ensures IsOk(upstream.status) && upstream.audioContent.Failure? ==> r == ServerError(upstream.audioContent.error)
    ensures IsOk(upstream.status) && upstream.audioContent.Success? ==>
      var a := upstream.audioContent.value;
      (a.None? || a.value == "" ==> r == ServerError(NoAudioMessage))
      && (a.Some? && a.value != "" ==> r == Response(200, Payload(Audio(a.value))))
  {
    if !IsOk(upstream.status) then ServerError(FailureMessage)
    else match upstream.audioContent
      case Failure(e) => ServerError(e)
      case Success(a) =>
        if a.None? || a.value == "" then ServerError(NoAudioMessage)
        else Response(200, Payload(Audio(a.value)))
  }

  /**
   * One invocation, from the parsed body on: the key is checked before the text, and the
   * service is called only when both are present.
   */
  function HandleSpeech(apiKey: Option<string>, text: Option<string>, voiceId: Option<string>, upstream: SpeechUpstream)
    : (ex: Exchange<SynthesisRequest, Audio>)
    ensures !Configured(apiKey) ==> ex == Exchange(None, ServerError(MissingKeyMessage))
    ensures Configured(apiKey) && (text.None? || text.value == "") ==> ex == Exchange(None, ServerError(NoTextMessage))
    ensures ex.request.Some? ==> ex.response == SpeechResponse(upstream)
  {
    if !Configured(apiKey) then Exchange(None, ServerError(MissingKeyMessage))
    else if text.None? || text.value == "" then Exchange(None, ServerError(NoTextMessage))
    else Exchange(Some(SynthesisRequest(text.value, "en-US", VoiceName(voiceId), "MP3", 0, 1.0)), SpeechResponse(upstream))
  }

  /** The service is called exactly when the key and a non-empty text are there, with that text and the chosen voice. */
  lemma CalledOnlyWhenReady(apiKey: Option<string>, text: Option<string>, voiceId: Option<string>, upstream: SpeechUpstream)
    ensures var ex := HandleSpeech(apiKey, text, voiceId, upstream);
      (ex.request.Some? <==> Configured(apiKey) && text.Some? && text.value != "")
      && (ex.request.Some? ==> ex.request.value.text == text.value && ex.request.value.voiceName == VoiceName(voiceId)
                               && ex.request.value.languageCode == "en-US" && ex.request.value.audioEncoding == "MP3")
  {
  }

  /** A success carries the service's audio unchanged, and happens exactly when the call succeeded with some audio. */
  lemma AudioPassedThrough(apiKey: Option<string>, text: Option<string>, voiceId: Option<string>, upstream: SpeechUpstream)
    ensures var ex := HandleSpeech(apiKey, text, voiceId, upstream);
      (ex.response.status == 200 <==>
        ex.request.Some? && IsOk(upstream.status) && upstream.audioContent.Success?
        && upstream.audioContent.value.Some? && upstream.audioContent.value.value != "")
      && (ex.response.status == 200 ==> ex.response.body == Payload(Audio(upstream.audioContent.value.value)))
  {
  }

  /** Unlike the model calls of the other functions, a rate-limited speech call is not passed through: it is a 500. */
  lemma NoRateLimitPassThrough(upstream: SpeechUpstream)
    requires upstream.status == 429 || upstream.status == 402
    ensures SpeechResponse(upstream).status == 500
    ensures SpeechResponse(upstream).body == ErrorBody(FailureMessage)
  {
  }
}
