/**
 * The interview page (src/pages/Chat.tsx): its state cells and `handleSend`, which appends the
 * user's turn, calls the chat function, and on its reply appends the assistant's turn and moves
 * the step indicator and the completion flag. The call is the one `await` of the handler, so the
 * handler is two methods: `Send`, up to the call, and `Settle`, from its outcome on.
 */
module ChatPage {
  import opened Wrappers
  import opened Text
  import opened Transcript
  import opened ChatReply

  /** Line 20. */
  const Greeting := "Hi! I'm here to help you find your perfect job. Tell me about yourself - what's your background, education, and what kind of work are you looking for?"

  /** Line 27. */
  const TotalSteps := 5

  /** Lines 31-37. */
  const StepLabels: seq<string> :=
    ["Background & Education", "Work Experience", "Job Preferences", "Location & Salary", "Final Details"]

  /** Lines 65, 67 and 88: the notices shown when the call fails. */
  const TooManyRequestsNotice := "Too many requests. Please wait a moment and try again."
  const ServiceLimitNotice := "Service limit reached. Please contact support."
  const SendFailedNotice := "Failed to send message. Please try again."

  /** Lines 57-60: the body sent to the chat function. */
  datatype ChatRequest = ChatRequest(messages: seq<Message>, conversationComplete: bool)

  /** What `supabase.functions.invoke` resolves to: the reply's data, or an error with its message, if any. */
  datatype Outcome = Replied(data: ChatReply) | InvokeFailed(message: Option<string>)

  /** Line 79: `data.step && data.step <= totalSteps`; a step of 0 is falsy. */
  predicate AcceptsStep(step: int)
  {
    step != 0 && step <= TotalSteps
  }

  /** The step shown after a reply naming `step`. */
  function NextStep(current: int, step: int): (next: int)
    ensures AcceptsStep(step) ==> next == step
    ensures !AcceptsStep(step) ==> next == current
  {
    if AcceptsStep(step) then step else current
  }

  /** A step the chat function can name keeps the indicator within the five labels. */
  lemma StepStaysInRange(current: int, step: int)
    requires 1 <= current <= TotalSteps && 0 <= step
    ensures 1 <= NextStep(current, step) <= TotalSteps
  {
  }

  /** Whatever the model writes, the chat function's step keeps the indicator within the five labels. */
  lemma ServerStepStaysInRange(current: int, text: string)
    requires 1 <= current <= TotalSteps
    ensures 1 <= NextStep(current, InterpretReply(text).step) <= TotalSteps
  {
    StepStaysInRange(current, InterpretReply(text).step);
  }

  /** The indicator is not monotone: a reply naming an earlier step moves it back. */
  lemma StepCanGoBack()
    ensures NextStep(4, 2) == 2
  {
  }

  /** Lines 63-71 and 86-88: the notice for a failed call; 429 is looked for before 402. */
  function ErrorNotice(message: Option<string>): (notice: string)
    ensures message.Some? && Contains(message.value, "429") ==> notice == TooManyRequestsNotice
    ensures message.Some? && !Contains(message.value, "429") && Contains(message.value, "402") ==>
      notice == ServiceLimitNotice
    ensures message.None? || (!Contains(message.value, "429") && !Contains(message.value, "402")) ==>
      notice == SendFailedNotice
  {
    if message.Some? && Contains(message.value, "429") then TooManyRequestsNotice
    else if message.Some? && Contains(message.value, "402") then ServiceLimitNotice
    else SendFailedNotice
  }

  class ChatSession {
    var messages: seq<Message>
    var input: string
    var isLoading: bool
    var conversationComplete: bool
    var currentStep: int

    /** The step indicator names one of the five labels. */
    predicate Valid()
      reads this
    {
      1 <= currentStep <= TotalSteps
    }

    /** Lines 17-26: the greeting alone, an empty input, step 1, not loading, not complete. */
    constructor()
      ensures messages == [Message("assistant", Greeting)] && input == ""
      ensures !isLoading && !conversationComplete && currentStep == 1
      ensures Valid()
    {
      messages := [Message("assistant", Greeting)];
      input := "";
      isLoading := false;
      conversationComplete := false;
      currentStep := 1;
    }

    /** Line 125: the label shown beside the step. */
    function StepLabel(): (name: string)
      reads this
      requires Valid()
      ensures name in StepLabels
    {
      StepLabels[currentStep - 1]
    }

    /** Line 48: a send goes out only with some text other than white space and no reply outstanding. */
    predicate CanSend()
      reads this
    {
      Trim(input) != "" && !isLoading
    }

    /** Line 167: typing replaces the input. */
    method Type(text: string)
      modifies this
      ensures input == text
      ensures messages == old(messages) && isLoading == old(isLoading)
      ensures conversationComplete == old(conversationComplete) && currentStep == old(currentStep)
    {
      input := text;
    }

    /**
     * Lines 48-61, up to the call: the trimmed input becomes a user turn, the input is cleared,
     * and the request carries the conversation with that turn and the completion flag.
     */
    method Send() returns (request: Option<ChatRequest>)
      modifies this
      ensures !old(CanSend()) ==> request.None?
      ensures !old(CanSend()) ==>
        messages == old(messages) && input == old(input) && isLoading == old(isLoading)
        && conversationComplete == old(conversationComplete) && currentStep == old(currentStep)
      ensures old(CanSend()) ==>
        messages == old(messages) + [Message("user", Trim(old(input)))]
        && input == "" && isLoading
        && conversationComplete == old(conversationComplete) && currentStep == old(currentStep)
        && request == Some(ChatRequest(messages, conversationComplete))
    {
      if Trim(input) == "" || isLoading {
        return None;
      }
      var userMessage := Trim(input);
      input := "";
      messages := messages + [Message("user", userMessage)];
      isLoading := true;
      request := Some(ChatRequest(messages, conversationComplete));
    }

    /**
     * Lines 63-91, from the call's outcome on: a reply appends one assistant turn and may move the
     * step and complete the interview; a failure changes nothing but shows a notice. Either way
     * the page stops loading.
     */
    method Settle(outcome: Outcome) returns (notice: Option<string>)
      requires isLoading
      modifies this
      ensures !isLoading && input == old(input)
      ensures outcome.Replied? ==>
        messages == old(messages) + [Message("assistant", outcome.data.message)]
        && currentStep == NextStep(old(currentStep), outcome.data.step)
        && conversationComplete == (old(conversationComplete) || outcome.data.ready)
        && notice.None?
      ensures outcome.InvokeFailed? ==>
        messages == old(messages) && currentStep == old(currentStep)
        && conversationComplete == old(conversationComplete)
        && notice == Some(ErrorNotice(outcome.message))
      ensures old(conversationComplete) ==> conversationComplete
      ensures old(Valid()) && (outcome.Replied? ==> outcome.data.step >= 0) ==> Valid()
    {
      if outcome.InvokeFailed? {
        var message := outcome.message;
        if message.Some? && Contains(message.value, "429") {
          notice := Some(TooManyRequestsNotice);
        } else if message.Some? && Contains(message.value, "402") {
          notice := Some(ServiceLimitNotice);
        } else {
          notice := Some(SendFailedNotice);
        }
      } else {
        var data := outcome.data;
        messages := messages + [Message("assistant", data.message)];
        if data.step != 0 && data.step <= TotalSteps {
          currentStep := data.step;
        }
        if data.ready {
          conversationComplete := true;
        }
        notice := None;
      }
      isLoading := false;
    }

    /**
     * Lines 47-92: the whole handler, with the call's outcome given. A send that goes out leaves
     * the page not loading, its user turn in place, and at most one assistant turn after it.
     */
    method HandleSend(outcome: Outcome) returns (request: Option<ChatRequest>, notice: Option<string>)
      modifies this
      ensures !old(CanSend()) ==> request.None? && notice.None?
      ensures !old(CanSend()) ==>
        messages == old(messages) && input == old(input) && isLoading == old(isLoading)
        && conversationComplete == old(conversationComplete) && currentStep == old(currentStep)
      ensures old(CanSend()) ==>
        var sent := old(messages) + [Message("user", Trim(old(input)))];
        request == Some(ChatRequest(sent, old(conversationComplete)))
        && !isLoading && input == ""
        && (outcome.Replied? ==> messages == sent + [Message("assistant", outcome.data.message)] && notice.None?)
        && (outcome.InvokeFailed? ==> messages == sent && notice == Some(ErrorNotice(outcome.message)))
      ensures old(CanSend()) && outcome.Replied? ==>
        currentStep == NextStep(old(currentStep), outcome.data.step)
        && conversationComplete == (old(conversationComplete) || outcome.data.ready)
      ensures old(CanSend()) && outcome.InvokeFailed? ==>
        currentStep == old(currentStep) && conversationComplete == old(conversationComplete)
      ensures old(conversationComplete) ==> conversationComplete
      ensures old(Valid()) && (outcome.Replied? ==> outcome.data.step >= 0) ==> Valid()
    {
      notice := None;
      request := Send();
      if request.Some? {
        notice := Settle(outcome);
      }
    }
  }
}
