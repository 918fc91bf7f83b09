/**
 * The chat edge function (supabase/functions/chat/index.ts): it checks its key,
 * reads the context and the step off the transcript, composes the system prompt,
 * hands the prompt and the transcript to the model, and turns the model's answer
 * (or its failure) into the response.
 */
module ChatFunction {
  import opened Wrappers
  import opened Text
  import opened Transcript
  import opened Http
  import opened ChatContext
  import opened ChatPrompt
  import opened ChatReply

  /** One entry of the Gemini `contents` list: a role and its single text part. */
  datatype Content = Content(role: string, text: string)

  const MissingKeyMessage := "GOOGLE_API_KEY is not configured"
  const ModelFailureMessage := "Failed to get response from AI"

  /** Line 184: "assistant" turns are the model's, every other role is sent as the user's. */
  function GeminiRole(role: string): (r: string)
    ensures r == "model" <==> role == "assistant"
    ensures r == "user" <==> role != "assistant"
  {
    if role == "assistant" then "model" else "user"
  }

  /**
   * Lines 183-192: the transcript in Gemini's shape, with the system prompt pushed in
   * front as a user turn.
   */
  function GeminiContents(messages: seq<Message>, systemPrompt: string): (contents: seq<Content>)
    ensures |contents| == |messages| + 1
    ensures contents[0] == Content("user", systemPrompt)
    ensures forall i :: 0 <= i < |messages| ==>
      contents[i + 1] == Content(GeminiRole(messages[i].role), messages[i].content)
  {
    [Content("user", systemPrompt)] + seq(|messages|, i requires 0 <= i < |messages| => Content(GeminiRole(messages[i].role), messages[i].content))
  }

  /** Only the system prompt is added: the texts after it are the transcript's, in order. */
  lemma ContentsKeepTranscript(messages: seq<Message>, systemPrompt: string)
    ensures forall i :: 1 <= i < |GeminiContents(messages, systemPrompt)| ==>
      GeminiContents(messages, systemPrompt)[i].text == Contents(messages)[i - 1]
  {
  }

  /**
   * The request handler, from the parsed body on. The key is read from the environment
   * (`googleApiKey`); `upstream` is what the model service answers to the request sent.
   * The request is None when the handler never calls the service.
   */
  method HandleChat(googleApiKey: Option<string>, messages: seq<Message>, conversationComplete: bool, upstream: Upstream)
    returns (request: Option<seq<Content>>, response: Response<ChatReply>)
    ensures !Configured(googleApiKey) ==> request.None? && response == ServerError(MissingKeyMessage)
    ensures Configured(googleApiKey) ==> request.Some?
    ensures request.Some? ==> exists ctx :: (Extracted(messages, ctx) && KnownTags(ctx)
      && request.value == GeminiContents(messages, SystemPrompt(StepFor(UserCount(messages)), ctx, conversationComplete)))
    ensures request.Some? && !IsOk(upstream.status) ==> response == UpstreamFailure(upstream.status, ModelFailureMessage)
    ensures request.Some? && IsOk(upstream.status) && upstream.content.Failure? ==> response == ServerError(upstream.content.error)
    ensures request.Some? && IsOk(upstream.status) && upstream.content.Success? ==>
      response == Response(200, Payload(InterpretReply(upstream.content.value)))
  {
    if !Configured(googleApiKey) {
      return None, ServerError(MissingKeyMessage);
    }
    var ctx := ExtractContext(messages);
    var currentStep := CurrentStep(messages);
    var systemPrompt := SystemPrompt(currentStep, ctx, conversationComplete);
    var contents := GeminiContents(messages, systemPrompt);
    request := Some(contents);
    if !IsOk(upstream.status) {
      response := UpstreamFailure(upstream.status, ModelFailureMessage);
    } else {
      match upstream.content
      case Failure(error) =>
        response := ServerError(error);
      case Success(assistantMessage) =>
        response := Response(200, Payload(InterpretReply(assistantMessage)));
    }
  }

  /** After the interview (the flag set), the first entry of the request is the wrap-up text, with no step instruction. */
  lemma CompleteRequestWrapsUp(messages: seq<Message>, ctx: Context)
    ensures GeminiContents(messages, SystemPrompt(StepFor(UserCount(messages)), ctx, true))[0]
         == Content("user", WrapUpPrompt)
    ensures !Contains(GeminiContents(messages, SystemPrompt(StepFor(UserCount(messages)), ctx, true))[0].text, "STEP:")
  {
    CompletePrompt(StepFor(UserCount(messages)), ctx);
  }

  /**
   * During the interview, the prompt sent names the step reached by the user-turn count,
   * holds only that step's block, and asks for the completion token only at step 5.
   */
  lemma InterviewRequestFollowsCount(messages: seq<Message>, ctx: Context, k: int)
    requires KnownTags(ctx) && 1 <= k <= 5
    ensures var prompt := SystemPrompt(StepFor(UserCount(messages)), ctx, false);
      && Contains(prompt, CurrentStepText(StepFor(UserCount(messages))))
      && (Contains(prompt, StepBlock(k)) <==> k == StepFor(UserCount(messages)))
      && (Contains(prompt, CompletionToken) <==> UserCount(messages) >= 20)
  {
    var step := StepFor(UserCount(messages));
    PromptNamesStep(step, ctx);
    PromptHoldsOnlyItsBlock(step, ctx, k);
    OnlyFinalStepCompletes(step, ctx);
  }
}
