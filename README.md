# Job-matching interview assistant: a Dafny model

This project models the server and client logic of a job-matching assistant. These parts are modelled:

- **The chat edge function** (`supabase/functions/chat/index.ts`). It reads a transcript of `{role, content}` messages. It finds field keywords in the whole transcript and works out the interview step from the number of user turns. It builds the system prompt and sends the transcript to Gemini with that prompt in front. Its reply is `{message, ready, step}`.
- **The interview page** (`src/pages/Chat.tsx`). `handleSend` appends the user's turn, calls the chat function, and then appends the assistant's turn and moves the step indicator. The page is the class `ChatPage.ChatSession`. The handler is split at its single `await`:
  - `Send` runs up to the call;
  - `Settle` runs from the call's outcome on;
  - `HandleSend` runs both, with the outcome given.
- **The three structured-output functions**:
  - `generate-matches` answers `{companies}`;
  - `generate-cv` answers `{cv}`;
  - `parse-cv` answers `{cv}`.

  Each strips Markdown code fences from the model's text, parses it, and falls back on a fixed value when parsing fails. `parse-cv` answers a fixed "Unknown" record when the CV text is missing or too short.
- **The CV viewer's download** (`src/components/CVViewer.tsx`): the plain-text rendering of a CV and the name of the downloaded file.
- **The text-to-speech function** (`supabase/functions/text-to-speech/index.ts`): its key and text checks, its voice lookup, and how it maps the speech service's answer.

Modules, one file each:

- `Wrappers`: Option and Result.
- `Text`: the JavaScript string operations used (`trim`, `toLowerCase`, `includes`, `indexOf`, `replace`, `join`).
- `Transcript`: messages and the user-turn summary.
- `Http`: responses and the upstream answer.
- `ChatContext`: keyword extraction, the step count and the personalised examples.
- `ChatPrompt`: the system prompt.
- `ChatReply`: reading the model's reply.
- `ChatFunction`: the chat handler.
- `ChatPage`: the interview page.
- `ModelOutput`: JSON values, fence stripping and the structured response.
- `CvRecord`: the CV record, its JSON form and the fixed records.
- `Matches`, `CvGeneration`, `CvParsing`: the three structured-output handlers.
- `CvViewer`: the download text and file name.
- `Speech`: the text-to-speech handler.

External calls are parameters:

- The model service's answer is an `Upstream` value: a status, plus either the text read from its envelope or the message of the exception raised while reading it.
- The speech service's answer is a `SpeechUpstream` value: a status, plus either the optional audio content of its body or the message of the exception raised while reading it.
- `JSON.parse` is a function parameter `parse: string -> Option<Json>`.
- The environment key is an `Option<string>`.
- A handler returns an `Exchange`. It holds the request it sent (None when it never called the service) and its response. This makes "the key is checked before the service is called" a statement about the result.

## Model

| member | source | states |
|---|---|---|
| Text.Lower | supabase/functions/chat/index.ts:28 | lower-casing keeps the length and maps each character on its own: ASCII capitals to small letters, every other character unchanged |
| Text.DigitChar | supabase/functions/chat/index.ts:123 | a number from 0 to 9 is written as one digit character whose value is that number |
| Text.IndexOf | supabase/functions/chat/index.ts:239 | the result is the first index where the pattern occurs, and None exactly when the pattern does not occur |
| Text.ReplaceFirst | supabase/functions/chat/index.ts:239 | if the pattern is absent the text is unchanged; otherwise only its first occurrence is replaced, and the length changes by the difference of the two lengths |
| Text.ReplaceFirstAfter | supabase/functions/chat/index.ts:239 | when the pattern's first character is absent before it, the occurrence that is replaced is that one |
| Text.ReplaceFirstOfFirst | supabase/functions/chat/index.ts:239 | when the text before an occurrence of a pattern without a border does not contain the pattern, that occurrence is the one replaced: none lies inside the text before it, and none can start there and overlap it |
| Text.Trim | supabase/functions/chat/index.ts:241 | the result is a slice of the text; everything cut away on either side is white space; the result neither starts nor ends with white space |
| Text.TrimOfPadded | src/components/CVViewer.tsx:39 | white space, then a text with no white space at its ends, then white space, trims to exactly that text (trim is determined by its contract) |
| Text.TrimEmpty | src/pages/Chat.tsx:48 | a text trims to nothing exactly when it is all white space |
| Text.TrimIdempotent | supabase/functions/chat/index.ts:241 | trimming twice is trimming once |
| Text.TrimDropsTrailingSpace | supabase/functions/generate-matches/index.ts:90-94 | trailing white space, such as a final newline, does not change the trimmed text |
| Text.JoinContainsPart | supabase/functions/chat/index.ts:28 | every part is a substring of the space-joined text |
| Text.LowerKeepsContains | supabase/functions/chat/index.ts:28 | after lower-casing, the lower-cased text still contains each lower-cased substring |
| Transcript.Contents | supabase/functions/chat/index.ts:28 | the list of messages' texts has one entry per message, in order, whatever the role |
| Transcript.UserContentsSnoc | supabase/functions/chat/index.ts:64-65 | filtering keeps exactly the user-role messages in order: one more message adds its text only if it is a user turn |
| Transcript.UserContentsOnlyUsers | supabase/functions/generate-matches/index.ts:27-30 | every text in the filtered list comes from a user-role message of the transcript |
| Transcript.UserSummary | supabase/functions/generate-matches/index.ts:27-30 | the user turns' texts joined with single spaces (its definition; UserSummarySnoc states how it grows) |
| Transcript.UserSummarySnoc | supabase/functions/generate-matches/index.ts:27-30 | the summary is unchanged by a non-user message; a user message appends its text, after a space unless it is the first |
| Http.ServerError | supabase/functions/chat/index.ts:252-259 | the catch block answers status 500 with `{error}` holding the exception's message |
| Http.UpstreamFailure | supabase/functions/chat/index.ts:208-227 | a non-OK upstream status 429 or 402 is passed through with its fixed notice; any other status becomes a 500 carrying the handler's failure message |
| ChatContext.SearchWord | supabase/functions/chat/index.ts:39 | the scan finds the keyword exactly when it occurs as a whole word, between `\b` boundaries, at or after the start position |
| ChatContext.SearchKeywords | supabase/functions/chat/index.ts:39 | trying the alternatives in order finds a match exactly when one of the alternatives matches as a whole word somewhere |
| ChatContext.TechFields | supabase/functions/chat/index.ts:38-47 | each tech tag is pushed exactly when its regular expression matches; the tags come in the order of the tests, each at most once |
| ChatContext.BusinessFields | supabase/functions/chat/index.ts:49-58 | each business tag is pushed exactly when its regular expression matches; the tags come in the order of the tests, each at most once |
| ChatContext.ExtractContext | supabase/functions/chat/index.ts:28-58 | the context holds exactly the tags whose keywords occur in the lower-cased text of every message; the skills and industries lists stay empty |
| ChatContext.ExtractionIsDetermined | supabase/functions/chat/index.ts:31-58 | two contexts that both meet the extraction's contract are equal: the contract fixes the outcome |
| ChatContext.EmptyTranscriptHasNoHits | supabase/functions/chat/index.ts:28-58 | an empty conversation joins to the empty text, and no keyword matches in it |
| ChatContext.AllMessages | supabase/functions/chat/index.ts:28 | every message's text, any role, joined with spaces and lower-cased (its definition; AllMessagesCoverEveryMessage states what it holds) |
| ChatContext.AllMessagesCoverEveryMessage | supabase/functions/chat/index.ts:28 | the searched text contains every message's lower-cased text, assistant turns included |
| ChatContext.StepFor | supabase/functions/chat/index.ts:67-72 | the step is between 1 and 5, it covers five user turns per step below 5, and it is 5 exactly from 20 turns on |
| ChatContext.CurrentStep | supabase/functions/chat/index.ts:61-72 | the if-chain on the user-turn count yields the step for that count |
| ChatContext.StepForMonotone | supabase/functions/chat/index.ts:68-72 | more user turns never lower the step |
| ChatContext.StepIgnoresOtherRoles | supabase/functions/chat/index.ts:64-65 | a non-user message leaves the step unchanged; a user message adds one to the count |
| ChatContext.PersonalizedExamples | supabase/functions/chat/index.ts:75-113 | examples exist only for steps 2 to 4; at step 4 the tech location question is chosen exactly when a tech field was found |
| ChatContext.ExampleFocus | supabase/functions/chat/index.ts:79-102 | the chosen focus is mentioned by the context, and no focus ranked higher is mentioned |
| ChatContext.ExamplesFollowPriority | supabase/functions/chat/index.ts:79-104 | steps 2 and 3 pick the question of the highest-priority field mentioned (software development, then data science, then marketing, then the general one) |
| ChatPrompt.SystemPrompt | supabase/functions/chat/index.ts:116-182 | the wrap-up prompt when the conversation is complete, otherwise the interview lines for the step and context followed by the last rule (its definition; CompletePrompt, PromptNamesStep, PromptHoldsOnlyItsBlock, PromptEndsWithItsStep and OnlyFinalStepCompletes state what it holds) |
| ChatPrompt.CompletePrompt | supabase/functions/chat/index.ts:116-120 | once the conversation is complete the prompt is the wrap-up text, and it holds no "STEP:" instruction |
| ChatPrompt.PromptNamesStep | supabase/functions/chat/index.ts:123 | the interview prompt holds "CURRENT STEP: n of 5" for the current step |
| ChatPrompt.BlockEndsWithItsStep | supabase/functions/chat/index.ts:136-174 | each step block asks the model to end with its own "STEP:k" |
| ChatPrompt.PromptEndsWithItsStep | supabase/functions/chat/index.ts:121-180 | for every digit c, the prompt holds "END WITH: STEP:c" exactly when c is the current step's digit |
| ChatPrompt.PromptHoldsBlock | supabase/functions/chat/index.ts:136-174 | the interview prompt holds the current step's block |
| ChatPrompt.PromptHoldsOnlyItsBlock | supabase/functions/chat/index.ts:121-180 | block k appears in the interview prompt exactly when k is the current step |
| ChatPrompt.OnlyFinalBlockHasToken | supabase/functions/chat/index.ts:168-174 | a block holds "CONVERSATION_COMPLETE" exactly when it is the fifth |
| ChatPrompt.OnlyFinalStepCompletes | supabase/functions/chat/index.ts:121-180 | the interview prompt mentions the completion token exactly at step 5 |
| ChatPrompt.PromptKinds | supabase/functions/chat/index.ts:121-180 | line by line, the only prompt line that can hold an end instruction is the current block's end line, and the only one that can hold the completion token is the line of block 5 |
| ChatReply.FirstMarker | supabase/functions/chat/index.ts:234 | the result is the first position at or after the start where "STEP:" and a digit occur; None exactly when there is none |
| ChatReply.ReplyStep | supabase/functions/chat/index.ts:234-235 | the step is a single digit: the digit of the first marker, or 1 when the reply has no marker; it is not clamped, so 0 is a possible value |
| ChatReply.RemoveMarkers | supabase/functions/chat/index.ts:240 | the global replace only shortens the text, by a multiple of the marker length; it changes the text exactly when the regular expression finds a match, and then removes at least one marker's worth of text |
| ChatReply.CleanMessage | supabase/functions/chat/index.ts:238-241 | the cleaned message has no white space at its ends and is no longer than the reply; a reply without the token loses only its markers and the white space at its ends |
| ChatReply.CleanSteps | supabase/functions/chat/index.ts:238-241 | only the first completion token is removed: when the text before it does not contain it, the message is that text and the rest, joined, with every marker removed and then trimmed |
| ChatReply.InterpretReply | supabase/functions/chat/index.ts:233-241 | `ready` holds exactly when the reply contains "CONVERSATION_COMPLETE"; the step is the first marker's digit; the message is the cleaned text, as CleanSteps and MarkerIsRemoved describe it |
| ChatReply.PlainReplyIsTrimmed | supabase/functions/chat/index.ts:233-241 | a reply with neither instruction comes back trimmed, not ready, at step 1 |
| ChatReply.MarkerIsRemoved | supabase/functions/chat/index.ts:240 | the replace scans from the left: the text before the first marker is kept, the marker's six characters go, and the scan resumes after them |
| ChatReply.MarkerTaken | supabase/functions/chat/index.ts:240 | a marker after a text in which no marker starts goes, and that text stays in front of the cleaned rest |
| ChatReply.DropMarker | supabase/functions/chat/index.ts:240 | a marker at the front goes as a whole, and cleaning resumes after its six characters |
| ChatReply.KeepPrefix | supabase/functions/chat/index.ts:240 | characters before which no marker starts are kept unchanged in front of the cleaned rest |
| ChatReply.QuestionWithMarker | supabase/functions/chat/index.ts:233-241 | a trimmed question followed by " STEP:d" comes back as the question alone, not ready, with step d |
| ChatReply.ExampleReply | supabase/functions/chat/index.ts:233-241 | the reply "Great, what languages do you know? STEP:1" comes back as the question, not ready, step 1 |
| ChatReply.CompletionWithMarker | supabase/functions/chat/index.ts:233-241 | a trimmed message followed by " CONVERSATION_COMPLETE STEP:d" comes back as the message alone, ready, with step d |
| ChatReply.CompletionReply | supabase/functions/chat/index.ts:233-241 | the closing reply "Thanks! Generating your matches now. CONVERSATION_COMPLETE STEP:5" comes back as the message, ready, step 5 |
| ChatReply.EveryStepIsAMarker | supabase/functions/chat/index.ts:240 | when every "S" of the reply starts a marker, the cleaned text holds no "S" and so no marker |
| ChatReply.MarkerCanSurvive | supabase/functions/chat/index.ts:240 | a single pass of the global replace can leave a marker behind: "STEP:STEP:12" cleans to "STEP:2" |
| ChatFunction.GeminiRole | supabase/functions/chat/index.ts:184 | an "assistant" turn is sent as "model", and every other role as "user" |
| ChatFunction.GeminiContents | supabase/functions/chat/index.ts:183-192 | the request has one more entry than the transcript: the system prompt as a user turn first, then each message with its mapped role and its text |
| ChatFunction.ContentsKeepTranscript | supabase/functions/chat/index.ts:183-192 | after the prompt, the request's texts are the transcript's texts, in order |
| ChatFunction.HandleChat | supabase/functions/chat/index.ts:19-259 | without a key the model is never called and the answer is a 500; otherwise the request carries the prompt for the extracted context and the counted step; an upstream failure is mapped by status; an unreadable envelope is a 500; a reply is read as in InterpretReply |
| ChatFunction.CompleteRequestWrapsUp | supabase/functions/chat/index.ts:116-120 | once the flag is set, the first entry sent is the wrap-up text, with no step instruction |
| ChatFunction.InterviewRequestFollowsCount | supabase/functions/chat/index.ts:61-180 | during the interview, the prompt sent names the step reached by the user-turn count, holds that step's block and no other, and holds the completion token exactly from 20 user turns on |
| ChatPage.NextStep | src/pages/Chat.tsx:79-81 | a reply's step is accepted exactly when it is non-zero and at most 5; otherwise the indicator stays |
| ChatPage.StepStaysInRange | src/pages/Chat.tsx:79-81 | from a shown step, a non-negative reply step keeps the indicator between 1 and 5 |
| ChatPage.ServerStepStaysInRange | src/pages/Chat.tsx:79-81 | whatever the model writes, the step the chat function reports keeps the indicator between 1 and 5 |
| ChatPage.StepCanGoBack | src/pages/Chat.tsx:79-81 | the indicator is not monotone: a reply naming step 2 moves it back from 4 |
| ChatPage.ErrorNotice | src/pages/Chat.tsx:63-70 | a message holding "429" gives the rate notice, else one holding "402" gives the limit notice, else the generic failure notice |
| ChatPage.ChatSession.constructor | src/pages/Chat.tsx:17-26 | the page starts with the greeting alone, an empty input, step 1, not loading and not complete |
| ChatPage.ChatSession.StepLabel | src/pages/Chat.tsx:124-125 | while the step is in range, the label shown is one of the five step labels |
| ChatPage.ChatSession.Type | src/pages/Chat.tsx:167 | typing replaces the input and changes nothing else |
| ChatPage.ChatSession.Send | src/pages/Chat.tsx:47-61 | with a blank input or a reply outstanding nothing changes and nothing is sent; otherwise the trimmed input is appended as a user turn, the input is cleared, loading starts, and the request carries the new transcript and the flag |
| ChatPage.ChatSession.Settle | src/pages/Chat.tsx:63-91 | a reply appends one assistant turn, moves the step as NextStep says and or's `ready` into the flag; a failure changes neither transcript, step nor flag and gives the notice; loading stops either way; the flag is never cleared and the step stays in range |
| ChatPage.ChatSession.HandleSend | src/pages/Chat.tsx:47-92 | a send that goes out leaves the page not loading with the user turn in place and at most one assistant turn after it, and sends the transcript as it was plus that turn; one that does not go out changes nothing |
| ModelOutput.RemoveFence | supabase/functions/generate-matches/index.ts:92-93 | removing fences never lengthens the text |
| ModelOutput.StripFences | supabase/functions/generate-matches/index.ts:90-94 | stripping fences never lengthens the model's text |
| ModelOutput.ParseOr | supabase/functions/generate-matches/index.ts:98-129 | text that parses gives the parsed value; text that does not gives the fallback |
| ModelOutput.StructuredResponse | supabase/functions/generate-matches/index.ts:69-134 | a failed call is mapped by its status; an unreadable envelope is a 500; otherwise the answer is 200 with the one field holding the parsed stripped text or the fallback |
| ModelOutput.SuccessNeedsOnlyTheCall | supabase/functions/generate-cv/index.ts:83-146 | the answer is a 200 exactly when the call succeeded with a readable envelope, whatever the model wrote |
| ModelOutput.PlainOutputIsTrimmed | supabase/functions/parse-cv/index.ts:129-132 | text without backticks is only trimmed |
| ModelOutput.NoFenceLeft | supabase/functions/parse-cv/index.ts:129-131 | after the bare-fence pass no three backticks in a row are left |
| ModelOutput.StrippedHasNoFence | supabase/functions/parse-cv/index.ts:129-132 | the text handed to `JSON.parse` never holds a code fence |
| ModelOutput.FencedBlock | supabase/functions/generate-cv/index.ts:104-107 | a body wrapped as a "```json" code block comes out as the body, trimmed |
| CvRecord.CvJson | supabase/functions/generate-cv/index.ts:144 | the `cv` object the handlers send: name and email, phone and location only when present, then summary, education, experience and skills (its definition; CvRoundTrip states that it reads back) |
| CvRecord.EducationsRoundTrip | src/components/CVViewer.tsx:14 | reading back the JSON of a list of education entries gives the same list; the reader is the model's own check that the handlers' JSON has the viewer's shape, not code of the program |
| CvRecord.ExperiencesRoundTrip | src/components/CVViewer.tsx:15 | reading back the JSON of a list of experience entries gives the same list, by the model's own reader |
| CvRecord.StringsRoundTrip | src/components/CVViewer.tsx:16 | reading back a JSON array of strings gives the same strings, by the model's own reader |
| CvRecord.OptionalBack | supabase/functions/generate-cv/index.ts:118-140 | the optional phone and location fields read back as they were: present when written, absent when not |
| CvRecord.HeadBack | supabase/functions/generate-cv/index.ts:118-140 | the name and email fields read back from the part written first |
| CvRecord.TailFieldsBack | supabase/functions/generate-cv/index.ts:118-140 | the summary, education, experience and skills fields read back from the part written last |
| CvRecord.CvRoundTrip | src/components/CVViewer.tsx:7-17 | reading back the CV the handlers send gives the record that was sent; the reader CvOf has no counterpart in the program and is the model's own check that the handlers' JSON has the viewer's shape |
| Matches.FallbackJson | supabase/functions/generate-matches/index.ts:106-128 | the fallback is an array with one JSON entry per fixed company, in order |
| Matches.HandleMatches | supabase/functions/generate-matches/index.ts:19-143 | without a key the model is never called and the answer is a 500; otherwise the request is "User profile: " plus the user-turn summary, and the answer is the structured response under "companies" |
| Matches.FallbackOrder | supabase/functions/generate-matches/index.ts:106-128 | the fallback is the three fixed companies, in their written order |
| Matches.ParsedOrFallback | supabase/functions/generate-matches/index.ts:98-134 | after a successful call, output that parses is sent unchanged and output that does not is replaced by the fallback; neither is an error |
| Matches.RequestIgnoresOtherRoles | supabase/functions/generate-matches/index.ts:27-30 | a turn of a role other than "user" leaves the request unchanged |
| Matches.RequestGrowsWithUserTurn | supabase/functions/generate-matches/index.ts:27-30 | a further user turn is appended to the profile after a space |
| CvGeneration.HandleGenerate | supabase/functions/generate-cv/index.ts:19-155 | without a key the model is never called and the answer is a 500; otherwise the request is "Generate CV from: " plus the user-turn summary, and the answer is the structured response under "cv" |
| CvGeneration.FallbackShape | supabase/functions/generate-cv/index.ts:118-140 | the fallback record has one education entry, one experience entry at "Previous Company" from "2020-Present", and three skills |
| CvGeneration.ParsedOrFallback | supabase/functions/generate-cv/index.ts:111-146 | after a successful call, output that parses is sent unchanged; output that does not is replaced by the fallback, which reads back as the fallback record |
| CvGeneration.RequestIgnoresOtherRoles | supabase/functions/generate-cv/index.ts:26-29 | a turn of a role other than "user" leaves the request unchanged |
| CvParsing.TooShort | supabase/functions/parse-cv/index.ts:24 | a text is refused when it is missing or its trimmed form has fewer than 50 UTF-16 code units (its definition; ModelCalledOnlyForLongText states its effect) |
| CvParsing.HandleParse | supabase/functions/parse-cv/index.ts:14-177 | without a key the answer is a 500; a missing text, or one under 50 UTF-16 code units once trimmed, gets the "Unknown" record with status 200 and no model call; otherwise the request is "CV Text:\n" plus the text, and the answer is the structured response under "cv" |
| Text.Utf16Length | supabase/functions/parse-cv/index.ts:24 | `.length` counts between one and two code units per character |
| Text.Utf16LengthOfBmp | supabase/functions/parse-cv/index.ts:24 | a text without astral characters has one code unit per character |
| Text.Utf16LengthOfAstral | supabase/functions/parse-cv/index.ts:24 | a text of astral characters has two code units per character |
| CvParsing.ModelCalledOnlyForLongText | supabase/functions/parse-cv/index.ts:17-24 | the model is called exactly when the key is configured and the trimmed text has at least 50 UTF-16 code units, as `.length` counts them |
| CvParsing.PaddingDoesNotCount | supabase/functions/parse-cv/index.ts:24 | white space around a text of fewer than 50 code units does not count: the text is still refused however it is padded |
| CvParsing.BmpTextCountsCharacters | supabase/functions/parse-cv/index.ts:24 | for a trimmed text without characters beyond the Basic Multilingual Plane, the threshold is 50 characters |
| CvParsing.AstralTextCountsTwice | supabase/functions/parse-cv/index.ts:24 | any 25 characters beyond the Basic Multilingual Plane are 50 code units, so such a text is sent to the model |
| CvParsing.MathematicalCapitalsAreLongEnough | supabase/functions/parse-cv/index.ts:24 | 25 copies of U+1D400 are sent to the model with the request prefix |
| CvParsing.RefusalIsUnknown | supabase/functions/parse-cv/index.ts:26-40 | the refusal reads back as the "Unknown" record, with no education, experience or skills |
| CvParsing.ParsedOrFallback | supabase/functions/parse-cv/index.ts:136-171 | after a successful call, output that parses is sent unchanged; output that does not is replaced by the fallback, which reads back as the fallback record |
| CvParsing.FallbacksDiffer | supabase/functions/parse-cv/index.ts:143-165 | the parse-cv fallback differs from the generate-cv one: its experience is at "Company", from "2020-2024", and its skills end in "Teamwork" |
| CvViewer.OrEmpty | src/components/CVViewer.tsx:26 | an absent optional field is shown as nothing and a present one as its value |
| CvViewer.Render | src/components/CVViewer.tsx:24-38 | the values the template interpolates: name, email, phone and location or the empty text, summary, and the joined education, experience and skills (its definition) |
| CvViewer.Parts | src/components/CVViewer.tsx:24-38 | the template literal before `.trim()`, as its 26 literal and interpolated pieces in order |
| CvViewer.CvText | src/components/CVViewer.tsx:24-39 | the downloaded text has no white space at either end |
| CvViewer.SectionsInOrder | src/components/CVViewer.tsx:28-38 | the text holds the headers PROFESSIONAL SUMMARY, EDUCATION, EXPERIENCE and SKILLS in that order, each of the first three followed by a newline and its section |
| CvViewer.EducationShown | src/components/CVViewer.tsx:31-32 | every education entry appears as "degree - institution (year)" |
| CvViewer.ExperienceShown | src/components/CVViewer.tsx:34-35 | every experience entry appears as "title at company (period)", a newline and the description |
| CvViewer.WholeText | src/components/CVViewer.tsx:24-39 | when the name starts and the skills line ends with something other than white space, trimming removes exactly the template's opening newline and its closing indentation |
| CvViewer.CollapseSpaces | src/components/CVViewer.tsx:45 | collapsing never lengthens the name and leaves no white space in it |
| CvViewer.KeepsPlainText | src/components/CVViewer.tsx:45 | a name part with no white space is kept as it is |
| CvViewer.OneUnderscorePerRun | src/components/CVViewer.tsx:45 | each maximal run of white space, of any length, becomes exactly one underscore |
| CvViewer.DownloadName | src/components/CVViewer.tsx:45 | the name with each run of white space replaced by one underscore, then "_CV.txt" (its definition; NameHasNoSpace and OneUnderscorePerRun state its properties) |
| CvViewer.NameHasNoSpace | src/components/CVViewer.tsx:45 | the file name has no white space and ends in "_CV.txt" |
| CvViewer.CollapseIdempotent | src/components/CVViewer.tsx:45 | collapsing a collapsed name changes nothing |
| Speech.VoiceKey | supabase/functions/text-to-speech/index.ts:34 | a given id is looked up lower-cased; a missing id becomes the property name "undefined" |
| Speech.LookupAsWritten | supabase/functions/text-to-speech/index.ts:27-34 | the lookup as written gives a truthy member: an own entry, an inherited prototype member, or the default entry |
| Speech.VoiceName | supabase/functions/text-to-speech/index.ts:27-34 | the intended lookup always yields one of the three Google voices |
| Speech.VoiceChoice | supabase/functions/text-to-speech/index.ts:27-34 | the male voice is chosen exactly for "male", the Aria voice exactly for "aria" (in any ASCII case), and the female voice for everything else, including a missing id |
| Speech.CaseDoesNotMatter | supabase/functions/text-to-speech/index.ts:34 | two ids equal up to ASCII case select the same voice |
| Speech.SelectorIdsGetDefault | src/components/VoiceSelector.tsx:8-16 | none of the seven ids the voice selector offers is a key of the map, so each gets the default voice |
| Speech.AsWrittenOnOwnKeys | supabase/functions/text-to-speech/index.ts:34 | away from the inherited property names, the lookup as written is the intended one |
| Speech.InheritedNameEscapes | supabase/functions/text-to-speech/index.ts:34 | the id "Constructor" lowers to "constructor" and reaches the map object's inherited constructor instead of a voice |
| Speech.ProtoKeyGetsDefault | supabase/functions/text-to-speech/index.ts:34 | on Deno, which removes the `__proto__` accessor, the id `__proto__` finds nothing and gets the default voice, as written and as intended |
| Speech.SpeechResponse | supabase/functions/text-to-speech/index.ts:61-78 | a failed call is a 500 "Failed to generate speech", whatever its status; an unreadable body is a 500 with its message; missing or empty audio is a 500; otherwise 200 with the audio |
| Speech.HandleSpeech | supabase/functions/text-to-speech/index.ts:14-86 | the key is checked before the text; both failures are 500s without a call; otherwise the answer is the service's answer mapped as in SpeechResponse; the request carries the voice of the corrected lookup VoiceName (see Findings) |
| Speech.CalledOnlyWhenReady | supabase/functions/text-to-speech/index.ts:17-57 | the service is called exactly when the key and a non-empty text are there, with that text, the chosen voice, "en-US" and MP3 |
| Speech.AudioPassedThrough | supabase/functions/text-to-speech/index.ts:61-78 | the answer is a 200 exactly when the call succeeded with non-empty audio, and then it carries that audio unchanged |
| Speech.NoRateLimitPassThrough | supabase/functions/text-to-speech/index.ts:61-65 | unlike the model calls, a 429 or 402 from the speech service becomes a 500 "Failed to generate speech" |

## Left out

- Network, CORS and logging: `fetch`, the CORS headers, the OPTIONS preflight and `console` logging are not modelled. The model and speech services are the `Upstream` and `SpeechUpstream` parameters.
- Request bodies: `req.json()` is not modelled. Each handler starts from the parsed fields. A body that is not JSON, and a field of the wrong JSON type (a non-string `cvText`, `text` or `voiceId`, a non-array `messages`), are not modelled.
- System prompts of the structured handlers: the fixed system instructions of generate-matches, generate-cv and parse-cv are not modelled. Only the user part that carries the conversation or the CV text is, because the instructions are constants that no property refers to.
- Service parameters: model names, endpoint URLs and generation settings (temperature, token limits) are not modelled, because they are constants that no property refers to.
- Floating point: company coordinates are integers in ten-thousandths of a degree. The speaking rate is the real 1.0. The progress bar percentage (src/pages/Chat.tsx line 127) is not modelled.
- `JSON.parse`: it is a parameter, and the model proves nothing about JSON syntax.
- Text.Lower: `toLowerCase` is modelled on ASCII letters only. Other scripts' case mappings and length-changing mappings are not modelled.
- ChatContext.ExtractContext: the regular expressions are modelled as whole-word matches of their alternatives, with `\w` as ASCII letters, digits and underscore. This is the engine's behaviour without the `u` flag.
- getPersonalizedExamples: it is defined in the chat function but the prompt never calls it. It is modelled as written (ChatContext.PersonalizedExamples) and is not part of ChatPrompt.SystemPrompt.
- `lastUserMessage`: the chat function computes it (line 27) and never uses it, so it is not modelled.
- ChatPage.ChatSession.HandleSend: React batches state updates and `setMessages` uses the functional form, while the request body uses the render's `messages` snapshot. The model assumes they agree, which holds when only one send is in flight. Concurrent sends are not modelled.
- ChatPage.ChatSession.Settle: the toast is returned as a notice string and not displayed. The supabase-js error object is reduced to its optional `message`. A `data` that is not a reply object is not modelled.
- ChatPage.ChatSession.StepLabel: the contract says only that the label is one of the five. It does not name the index, because `stepLabels[currentStep - 1]` is the whole of the source line.
- Speech-to-text and the other pages: the speech-to-text function, `src/utils/audioRecorder.ts`, the map, job-details and index pages, ChatMessage and the rendered (non-download) part of the CV viewer are not modelled. They are UI and I/O around the core.
- Speech.HandleSpeech: the request names the voice of the corrected lookup VoiceName. For the id "Constructor" the source differs: `JSON.stringify` drops a `name` holding the `Object` constructor.
- ModelOutput.RemoveFence: the contract states only that the text does not grow. What the removal keeps is stated by the lemmas beside it (ModelOutput.NoFenceLeft, ModelOutput.PlainOutputIsTrimmed, ModelOutput.FencedBlock).

## Findings

| source | as written | input that shows it | evidently intended | confidence | as-written member | corrected member |
|---|---|---|---|---|---|---|
| supabase/functions/text-to-speech/index.ts:34 | `voiceMap[voiceId?.toLowerCase()]` on a plain object literal also finds the member `constructor` inherited from `Object.prototype` (on Deno, which removes the `__proto__` accessor, the only lower-case one). It is truthy, so `\|\| voiceMap['default']` does not apply. | voiceId "Constructor" gives the `Object` constructor as the voice name, not a Google voice. | Only the map's own entries are looked up, and any other id gets the default voice. | not executed | Speech.LookupAsWritten, Speech.InheritedNameEscapes | Speech.VoiceName, Speech.VoiceChoice |
