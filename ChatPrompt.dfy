/**
 * The system prompt of the chat function (lines 116-180 of
 * supabase/functions/chat/index.ts): the wrap-up text once the conversation is
 * complete, otherwise the interview text with exactly one of the five step
 * blocks filled in. Both texts are written as their template lines, each
 * followed by a newline, so that what they do and do not contain can be argued
 * line by line. Long literals are written as concatenations of short pieces;
 * the text is the template's, space for space.
 */
module ChatPrompt {
  import opened Text
  import opened ChatContext

  const CompletionToken: string := "CONVERSATION_COMPLETE"

  /** A template line holding only its indentation. */
  const Blank: string := "    "

  /** Line 172: the step-5 block's instruction to emit the completion token. */
  const CompletionLine: string := "    Add: " + CompletionToken

  /** Line 117 of the wrap-up text. */
  const WrapUp1: string :=
      "You are an " + "enthusiastic" + " job-finding" + " assistant. " + "The user " + "has shared "
      + "all their " + "information!" + " "

  /** Line 118 of the wrap-up text. */
  const WrapUp2: string :=
      "         " + "Give them " + "an " + "exciting, " + "brief " + "summary of " + "what you've "
      + "learned " + "about them."

  /** Line 119 of the wrap-up text. */
  const WrapUp3: string :=
      "         " + "Tell them " + "you're " + "generating " + "personalized" + " job " + "matches "
      + "right now " + "and they'll " + "see them on " + "the map in " + "a moment."

  /** Line 120 of the wrap-up text. */
  const WrapUp4: string :=
      "         Be " + "warm and " + "encouraging " + "- make them " + "feel " + "confident "
      + "about their " + "job search!"

  /** Line 121, the first line of the interview text. */
  const Opening: string :=
      "You are a " + "warm career " + "coach " + "helping " + "someone " + "find their "
      + "dream job. " + "Collect " + "info " + "naturally " + "through " + "conversation" + "."

  /** Line 128. */
  const Approach1: string :=
      "    YOUR " + "APPROACH:"

  /** Line 129. */
  const Approach2: string :=
      "    - Have " + "a natural " + "conversation" + ", not an " + "interrogatio" + "n"

  /** Line 130. */
  const Approach3: string :=
      "    - Ask " + "1-2 " + "questions " + "at a time " + "about the " + "current "
      + "step's topic"

  /** Line 131. */
  const Approach4: string :=
      "    - Be " + "friendly " + "and warm"

  /** Line 132. */
  const Approach5: string :=
      "    - After " + "gathering " + "enough info " + "for a step, " + "move to the " + "next"

  /** Line 137. */
  const Education1: string :=
      "    \U{1F4DA} " + "EDUCATION - " + "Ask about " + "their " + "educational " + "background"

  /** Line 138. */
  const Education2: string :=
      "    " + "Examples: " + "degree, " + "school, " + "field of " + "study, " + "graduation "
      + "year"

  /** Line 139. */
  const Education3: string :=
      "    STAY ON " + "EDUCATION " + "TOPICS ONLY"

  /** Line 140. */
  const Education4: string :=
      "    When " + "you have " + "enough " + "education " + "info, say " + "\"Great! " + "Tell me "
      + "about your " + "work " + "experience.\""

  /** Line 145. */
  const Experience1: string :=
      "    \U{1F4BC} WORK " + "EXPERIENCE " + "- Ask about " + "their " + "career and " + "skills"

  /** Line 146. */
  const Experience2: string :=
      "    " + "Examples: " + "jobs, " + "roles, " + "companies, " + "years of " + "experience, "
      + "key skills"

  /** Line 147. */
  const Experience3: string :=
      "    STAY ON " + "WORK " + "EXPERIENCE " + "TOPICS ONLY"

  /** Line 148. */
  const Experience4: string :=
      "    When " + "you have " + "enough " + "experience " + "info, say " + "\"Perfect! "
      + "What kind " + "of job are " + "you looking " + "for?\""

  /** Line 153. */
  const Preferences1: string :=
      "    \U{1F3AF} JOB " + "PREFERENCES " + "- Ask what " + "they're " + "looking for"

  /** Line 154. */
  const Preferences2: string :=
      "    " + "Examples: " + "ideal role, " + "industry, " + "company " + "type, " + "culture "
      + "preferences"

  /** Line 155. */
  const Preferences3: string :=
      "    STAY ON " + "JOB " + "PREFERENCE " + "TOPICS ONLY"

  /** Line 156. */
  const Preferences4: string :=
      "    When " + "you have " + "their " + "preferences," + " say " + "\"Excellent! "
      + "Let's talk " + "about " + "location " + "and salary.\""

  /** Line 161. */
  const Location1: string :=
      "    \U{1F4CD} " + "LOCATION & " + "SALARY - " + "Ask about " + "logistics"

  /** Line 162. */
  const Location2: string :=
      "    " + "Examples: " + "where they " + "want to " + "work, " + "remote " + "preferences,"
      + " salary " + "expectations"

  /** Line 163. */
  const Location3: string :=
      "    STAY ON " + "LOCATION/SAL" + "ARY TOPICS " + "ONLY"

  /** Line 164. */
  const Location4: string :=
      "    When " + "you have " + "this info, " + "say \"Almost " + "done! Just " + "a couple "
      + "final " + "questions.\""

  /** Line 169. */
  const Final1: string :=
      "    \U{2705} FINAL " + "DETAILS - " + "Wrap up"

  /** Line 170. */
  const Final2: string :=
      "    Ask " + "when they " + "want to " + "start, any " + "deal-breaker" + "s, and "
      + "confirm " + "everything"

  /** Line 171. */
  const Final3: string :=
      "    When " + "you have " + "everything, " + "say " + "\"Perfect! I " + "have all I "
      + "need to " + "find great " + "matches for " + "you!\""

  /** Line 176. */
  const Rule1: string :=
      "    RULES:"

  /** Line 177. */
  const Rule2: string :=
      "    - Keep " + "responses " + "under 3 " + "sentences"

  /** Line 178. */
  const Rule3: string :=
      "    - " + "ALWAYS end " + "with STEP:X " + "marker"

  /** Line 179. */
  const Rule4: string :=
      "    - Stay " + "on the " + "current " + "step's topic"

  /** Line 180, the last line of the template, with no newline after it. */
  const LastRule: string :=
      "    - Be " + "conversation" + "al, not " + "robotic"

  /** The wrap-up text (lines 117-120). */
  const WrapUpPrompt: string := Lines([WrapUp1, WrapUp2, WrapUp3]) + WrapUp4

  /** Lines 128-132. */
  const ApproachLines: seq<string> := [Approach1, Approach2, Approach3, Approach4, Approach5]

  /** Lines 176-179. */
  const RuleLines: seq<string> := [Rule1, Rule2, Rule3, Rule4]

  // The bodies of the five step blocks (lines 137-140, 145-148, 153-156, 161-164, 169-172).
  const EducationBody: seq<string> := [Education1, Education2, Education3, Education4]
  const ExperienceBody: seq<string> := [Experience1, Experience2, Experience3, Experience4]
  const PreferencesBody: seq<string> := [Preferences1, Preferences2, Preferences3, Preferences4]
  const LocationBody: seq<string> := [Location1, Location2, Location3, Location4]
  const FinalBody: seq<string> := [Final1, Final2, Final3, CompletionLine]

  /** "CURRENT STEP: n of 5" */
  function CurrentStepText(step: int): string
    requires 1 <= step <= 5
  {
    "CURRENT STEP: " + [DigitChar(step)] + " of 5"
  }

  /** "END WITH: STEP:c", the instruction a block ends with (for the digit `c`). */
  function EndMarker(c: char): string
  {
    "END WITH: STEP:" + [c]
  }

  /** Line 123. */
  function StepLine(step: int): string
    requires 1 <= step <= 5
  {
    "    " + CurrentStepText(step)
  }

  /** Lines 125-126: a tag group, or nothing when the group is empty. */
  function FieldLine(fields: seq<string>): string
  {
    "    " + (if |fields| > 0 then "Field: " + Join(fields, ", ") else "")
  }

  /** Line 134. */
  function FocusLine(step: int): string
    requires 1 <= step <= 5
  {
    "    STEP " + [DigitChar(step)] + " FOCUS:"
  }

  /** The closing line of block `k` (lines 141, 149, 157, 165, 173). */
  function EndLine(k: int): string
    requires 1 <= k <= 5
  {
    "    " + EndMarker(DigitChar(k))
  }

  function BlockBody(k: int): seq<string>
    requires 1 <= k <= 5
  {
    if k == 1 then EducationBody
    else if k == 2 then ExperienceBody
    else if k == 3 then PreferencesBody
    else if k == 4 then LocationBody
    else FinalBody
  }

  /**
   * `    ${currentStep === k ? `...` : ''}` when it is the current step: the
   * indentation before the backtick, the block's lines, and the indentation
   * before the closing backtick.
   */
  function BlockLines(k: int): seq<string>
    requires 1 <= k <= 5
  {
    [Blank] + BlockBody(k) + [EndLine(k), Blank]
  }

  /** The text of block `k`. */
  function StepBlock(k: int): string
    requires 1 <= k <= 5
  {
    Lines(BlockLines(k))
  }

  /** The slot of block `k`: the block for the current step, otherwise an indented empty line. */
  function Slot(k: int, step: int): seq<string>
    requires 1 <= k <= 5
  {
    if k == step then BlockLines(k) else [Blank]
  }

  /** The slots of blocks `k` to 5, each followed by the blank template line after it (lines 136-175). */
  function SlotsFrom(k: int, step: int): seq<string>
    requires 1 <= k
    decreases 6 - k
  {
    if k > 5 then [] else Slot(k, step) + [Blank] + SlotsFrom(k + 1, step)
  }

  /** Lines 121-135. */
  function IntroLines(step: int, ctx: Context): seq<string>
    requires 1 <= step <= 5
  {
    [Opening, Blank, StepLine(step), Blank,
     FieldLine(ctx.techFields), FieldLine(ctx.businessFields), Blank]
    + ApproachLines
    + [Blank, FocusLine(step), Blank]
  }

  function PromptLines(step: int, ctx: Context): seq<string>
    requires 1 <= step <= 5
  {
    IntroLines(step, ctx) + SlotsFrom(1, step) + RuleLines
  }

  /** `systemPrompt`. */
  function SystemPrompt(step: int, ctx: Context, conversationComplete: bool): string
    requires 1 <= step <= 5
  {
    if conversationComplete then WrapUpPrompt else Lines(PromptLines(step, ctx)) + LastRule
  }

  // ---------------------------------------------------------------- which lines can hold what

  /** A line missing one of the capitals or punctuation of "STEP:" cannot hold it. */
  predicate LacksStep(line: string)
  {
    'P' !in line || 'S' !in line || 'T' !in line || 'E' !in line || ':' !in line
  }

  /** A line missing one of the characters of "END WITH: STEP:" cannot hold an end instruction. */
  predicate LacksMarker(line: string)
  {
    'P' !in line || 'I' !in line || 'N' !in line || 'T' !in line || 'E' !in line || 'S' !in line
    || 'W' !in line || 'D' !in line || ':' !in line
  }

  /** A line missing one of the characters of "CONVERSATION_COMPLETE" cannot hold it. */
  predicate LacksToken(line: string)
  {
    'P' !in line || 'I' !in line || 'N' !in line || 'T' !in line || 'E' !in line || 'S' !in line
    || '_' !in line
  }

  lemma StepNeeds(line: string)
    requires LacksStep(line)
    ensures !Contains(line, "STEP:")
  {
    var p := "STEP:";
    ContainedChars(line, p, 'P');
    ContainedChars(line, p, 'S');
    ContainedChars(line, p, 'T');
    ContainedChars(line, p, 'E');
    ContainedChars(line, p, ':');
  }

  lemma MarkerNeeds(line: string, c: char)
    requires LacksMarker(line)
    ensures !Contains(line, EndMarker(c))
  {
    var p := EndMarker(c);
    ContainedChars(line, p, 'P');
    ContainedChars(line, p, 'I');
    ContainedChars(line, p, 'N');
    ContainedChars(line, p, 'T');
    ContainedChars(line, p, 'E');
    ContainedChars(line, p, 'S');
    ContainedChars(line, p, 'W');
    ContainedChars(line, p, 'D');
    ContainedChars(line, p, ':');
  }

  lemma TokenNeeds(line: string)
    requires LacksToken(line)
    ensures !Contains(line, CompletionToken)
  {
    var p := CompletionToken;
    ContainedChars(line, p, 'P');
    ContainedChars(line, p, 'I');
    ContainedChars(line, p, 'N');
    ContainedChars(line, p, 'T');
    ContainedChars(line, p, 'E');
    ContainedChars(line, p, 'S');
    ContainedChars(line, p, '_');
  }

  /** An end line holds "END WITH: STEP:c" only for its own digit. */
  lemma EndLineDigit(k: int, c: char)
    requires 1 <= k <= 5
    ensures Contains(EndLine(k), EndMarker(c)) ==> c == DigitChar(k)
  {
    var line := EndLine(k);
    var p := EndMarker(c);
    if Contains(line, p) {
      var i: nat :| i <= |line| && OccursAt(line, p, i);
      assert |line| == 20 && |p| == 16;
      assert line[i] == p[0] == 'E';
      assert line[0] == line[1] == line[2] == line[3] == ' ';
      assert i == 4;
      assert line[i + 15] == p[15];
    }
  }

  // Which letters each fixed line lacks.

  lemma BlankLetters()
    ensures 'P' !in Blank
  {
  }

  lemma CompletionLineLetters()
    ensures 'W' !in CompletionLine
  {
  }

  lemma WrapUp1Letters()
    ensures 'P' !in WrapUp1
  {
  }

  lemma WrapUp2Letters()
    ensures 'P' !in WrapUp2
  {
  }

  lemma WrapUp3Letters()
    ensures 'P' !in WrapUp3
  {
  }

  lemma WrapUp4Letters()
    ensures 'P' !in WrapUp4
  {
  }

  lemma OpeningLetters()
    ensures 'P' !in Opening
  {
  }

  lemma Approach1Letters()
    ensures 'I' !in Approach1
  {
  }

  lemma Approach2Letters()
    ensures 'P' !in Approach2
  {
  }

  lemma Approach3Letters()
    ensures 'P' !in Approach3
  {
  }

  lemma Approach4Letters()
    ensures 'P' !in Approach4
  {
  }

  lemma Approach5Letters()
    ensures 'P' !in Approach5
  {
  }

  lemma Education1Letters()
    ensures 'P' !in Education1
  {
  }

  lemma Education2Letters()
    ensures 'P' !in Education2
  {
  }

  lemma Education3Letters()
    ensures 'W' !in Education3 && '_' !in Education3
  {
  }

  lemma Education4Letters()
    ensures 'P' !in Education4
  {
  }

  lemma Experience1Letters()
    ensures 'T' !in Experience1
  {
  }

  lemma Experience2Letters()
    ensures 'P' !in Experience2
  {
  }

  lemma Experience3Letters()
    ensures 'D' !in Experience3 && '_' !in Experience3
  {
  }

  lemma Experience4Letters()
    ensures 'I' !in Experience4
  {
  }

  lemma Preferences1Letters()
    ensures 'I' !in Preferences1
  {
  }

  lemma Preferences2Letters()
    ensures 'P' !in Preferences2
  {
  }

  lemma Preferences3Letters()
    ensures 'W' !in Preferences3 && '_' !in Preferences3
  {
  }

  lemma Preferences4Letters()
    ensures 'P' !in Preferences4
  {
  }

  lemma Location1Letters()
    ensures 'P' !in Location1
  {
  }

  lemma Location2Letters()
    ensures 'P' !in Location2
  {
  }

  lemma Location3Letters()
    ensures 'E' !in Location3
  {
  }

  lemma Location4Letters()
    ensures 'P' !in Location4
  {
  }

  lemma Final1Letters()
    ensures 'P' !in Final1
  {
  }

  lemma Final2Letters()
    ensures 'P' !in Final2
  {
  }

  lemma Final3Letters()
    ensures 'N' !in Final3
  {
  }

  lemma Rule1Letters()
    ensures 'P' !in Rule1
  {
  }

  lemma Rule2Letters()
    ensures 'P' !in Rule2
  {
  }

  lemma Rule3Letters()
    ensures 'I' !in Rule3
  {
  }

  lemma Rule4Letters()
    ensures 'P' !in Rule4
  {
  }

  lemma LastRuleLetters()
    ensures 'P' !in LastRule
  {
  }

  lemma StepLineLetters(step: int)
    requires 1 <= step <= 5
    ensures 'I' !in StepLine(step)
  {
  }

  lemma FocusLineLetters(step: int)
    requires 1 <= step <= 5
    ensures 'N' !in FocusLine(step)
  {
  }

  lemma EndLineLetters(k: int)
    requires 1 <= k <= 5
    ensures '_' !in EndLine(k)
  {
  }

  /** The tag names have no capital P, so neither has a field line. */
  lemma FieldLineLetters(fields: seq<string>, tags: seq<string>)
    requires forall t | t in fields :: t in tags
    requires forall t | t in tags :: 'P' !in t
    ensures 'P' !in FieldLine(fields)
  {
    JoinAvoids(fields, ", ", 'P');
  }

  // Which lines of each part can hold an end instruction or the completion token.

  lemma IntroKinds(step: int, ctx: Context)
    requires 1 <= step <= 5 && KnownTags(ctx)
    ensures forall line | line in IntroLines(step, ctx) :: LacksMarker(line) && LacksToken(line)
  {
    OpeningLetters();
    BlankLetters();
    StepLineLetters(step);
    FieldLineLetters(ctx.techFields, TechTags);
    FieldLineLetters(ctx.businessFields, BusinessTags);
    Approach1Letters();
    Approach2Letters();
    Approach3Letters();
    Approach4Letters();
    Approach5Letters();
    FocusLineLetters(step);
  }

  lemma EducationBodyKinds()
    ensures forall line | line in EducationBody :: LacksMarker(line) && LacksToken(line)
  {
    Education1Letters();
    Education2Letters();
    Education3Letters();
    Education4Letters();
  }

  lemma ExperienceBodyKinds()
    ensures forall line | line in ExperienceBody :: LacksMarker(line) && LacksToken(line)
  {
    Experience1Letters();
    Experience2Letters();
    Experience3Letters();
    Experience4Letters();
  }

  lemma PreferencesBodyKinds()
    ensures forall line | line in PreferencesBody :: LacksMarker(line) && LacksToken(line)
  {
    Preferences1Letters();
    Preferences2Letters();
    Preferences3Letters();
    Preferences4Letters();
  }

  lemma LocationBodyKinds()
    ensures forall line | line in LocationBody :: LacksMarker(line) && LacksToken(line)
  {
    Location1Letters();
    Location2Letters();
    Location3Letters();
    Location4Letters();
  }

  lemma FinalBodyKinds()
    ensures forall line | line in FinalBody :: LacksMarker(line) && (LacksToken(line) || line == CompletionLine)
  {
    Final1Letters();
    Final2Letters();
    Final3Letters();
    CompletionLineLetters();
  }

  lemma RuleKinds()
    ensures forall line | line in RuleLines :: LacksMarker(line) && LacksToken(line)
    ensures LacksMarker(LastRule) && LacksToken(LastRule)
  {
    Rule1Letters();
    Rule2Letters();
    Rule3Letters();
    Rule4Letters();
    LastRuleLetters();
  }

  lemma BodyKinds(k: int)
    requires 1 <= k <= 5
    ensures forall line | line in BlockBody(k) :: LacksMarker(line)
    ensures forall line | line in BlockBody(k) :: LacksToken(line) || (k == 5 && line == CompletionLine)
  {
    if k == 1 {
      EducationBodyKinds();
    } else if k == 2 {
      ExperienceBodyKinds();
    } else if k == 3 {
      PreferencesBodyKinds();
    } else if k == 4 {
      LocationBodyKinds();
    } else {
      FinalBodyKinds();
    }
  }

  lemma BlockKinds(k: int)
    requires 1 <= k <= 5
    ensures forall line | line in BlockLines(k) :: LacksMarker(line) || line == EndLine(k)
    ensures forall line | line in BlockLines(k) :: LacksToken(line) || (k == 5 && line == CompletionLine)
  {
    BodyKinds(k);
    BlankLetters();
    EndLineLetters(k);
  }

  lemma {:induction false} SlotsKinds(k: int, step: int)
    requires 1 <= k && 1 <= step <= 5
    ensures forall line | line in SlotsFrom(k, step) :: LacksMarker(line) || line == EndLine(step)
    ensures forall line | line in SlotsFrom(k, step) :: LacksToken(line) || (step == 5 && line == CompletionLine)
    decreases 6 - k
  {
    if k <= 5 {
      BlankLetters();
      if k == step {
        BlockKinds(k);
      }
      SlotsKinds(k + 1, step);
    }
  }

  /** Line by line: which lines of the interview text can hold an end instruction or the completion token. */
  lemma PromptKinds(step: int, ctx: Context)
    requires 1 <= step <= 5 && KnownTags(ctx)
    ensures forall line | line in PromptLines(step, ctx) :: LacksMarker(line) || line == EndLine(step)
    ensures forall line | line in PromptLines(step, ctx) :: LacksToken(line) || (step == 5 && line == CompletionLine)
  {
    IntroKinds(step, ctx);
    SlotsKinds(1, step);
    RuleKinds();
  }

  // ---------------------------------------------------------------- what the prompt says

  /** Once the conversation is complete, the prompt is the wrap-up text, which gives no "STEP:" instruction. */
  lemma CompletePrompt(step: int, ctx: Context)
    requires 1 <= step <= 5
    ensures SystemPrompt(step, ctx, true) == WrapUpPrompt
    ensures !Contains(SystemPrompt(step, ctx, true), "STEP:")
  {
    WrapUp1Letters();
    WrapUp2Letters();
    WrapUp3Letters();
    WrapUp4Letters();
    StepNeeds(WrapUp1);
    StepNeeds(WrapUp2);
    StepNeeds(WrapUp3);
    StepNeeds(WrapUp4);
    AbsentFromLines([WrapUp1, WrapUp2, WrapUp3], WrapUp4, "STEP:");
  }

  /** The slots from `k` on hold the current block, when it is not before `k`. */
  lemma {:induction false} SlotsHoldBlock(k: int, step: int)
    requires 1 <= k <= step <= 5
    ensures Contains(Lines(SlotsFrom(k, step)), StepBlock(step))
    decreases 6 - k
  {
    if k == step {
      HeadSlotHolds(BlockLines(step), SlotsFrom(k + 1, step));
    } else {
      SlotsHoldBlock(k + 1, step);
      LaterSlotHolds(SlotsFrom(k + 1, step), StepBlock(step));
    }
  }

  /** A text made of some lines and more lines after them holds the first ones. */
  lemma HeadSlotHolds(b: seq<string>, rest: seq<string>)
    ensures Contains(Lines(b + [Blank] + rest), Lines(b))
  {
    assert b + [Blank] + rest == [] + b + ([Blank] + rest);
    LinesSegment([], b, [Blank] + rest);
  }

  /** Two lines in front keep what the lines after them hold. */
  lemma LaterSlotHolds(rest: seq<string>, x: string)
    requires Contains(Lines(rest), x)
    ensures Contains(Lines([Blank] + [Blank] + rest), x)
  {
    assert [Blank] + [Blank] + rest == [Blank, Blank] + rest + [];
    LinesSegment([Blank, Blank], rest, []);
    ContainsTransitive(Lines([Blank] + [Blank] + rest), Lines(rest), x);
  }

  /** The interview text, cut at the slots. */
  lemma PromptParts(step: int, ctx: Context)
    requires 1 <= step <= 5
    ensures SystemPrompt(step, ctx, false)
         == Lines(IntroLines(step, ctx)) + Lines(SlotsFrom(1, step)) + (Lines(RuleLines) + LastRule)
  {
    LinesAppend(IntroLines(step, ctx) + SlotsFrom(1, step), RuleLines);
    LinesAppend(IntroLines(step, ctx), SlotsFrom(1, step));
  }

  /** The interview text names the current step. */
  lemma PromptNamesStep(step: int, ctx: Context)
    requires 1 <= step <= 5
    ensures Contains(SystemPrompt(step, ctx, false), CurrentStepText(step))
  {
    assert StepLine(step) in PromptLines(step, ctx);
    LineInLines(PromptLines(step, ctx), StepLine(step), LastRule);
    ContainsMiddle("    ", CurrentStepText(step), "");
    assert "    " + CurrentStepText(step) + "" == StepLine(step);
    ContainsTransitive(SystemPrompt(step, ctx, false), StepLine(step), CurrentStepText(step));
  }

  /** Block `k` ends with the instruction to close with its own step number. */
  lemma BlockEndsWithItsStep(k: int)
    requires 1 <= k <= 5
    ensures Contains(StepBlock(k), EndMarker(DigitChar(k)))
  {
    assert EndLine(k) in BlockLines(k);
    LineInLines(BlockLines(k), EndLine(k), "");
    assert Lines(BlockLines(k)) + "" == StepBlock(k);
    ContainsMiddle("    ", EndMarker(DigitChar(k)), "");
    assert "    " + EndMarker(DigitChar(k)) + "" == EndLine(k);
    ContainsTransitive(StepBlock(k), EndLine(k), EndMarker(DigitChar(k)));
  }

  /** The interview text asks to end with "STEP:c" exactly for the current step's digit. */
  lemma PromptEndsWithItsStep(step: int, ctx: Context, c: char)
    requires 1 <= step <= 5 && KnownTags(ctx) && IsDigit(c)
    ensures Contains(SystemPrompt(step, ctx, false), EndMarker(c)) <==> c == DigitChar(step)
  {
    var prompt := SystemPrompt(step, ctx, false);
    if c == DigitChar(step) {
      BlockEndsWithItsStep(step);
      PromptHoldsBlock(step, ctx);
      ContainsTransitive(prompt, StepBlock(step), EndMarker(c));
    } else {
      PromptKinds(step, ctx);
      RuleKinds();
      forall line | line in PromptLines(step, ctx)
        ensures !Contains(line, EndMarker(c))
      {
        if line == EndLine(step) {
          EndLineDigit(step, c);
        } else {
          MarkerNeeds(line, c);
        }
      }
      MarkerNeeds(LastRule, c);
      AbsentFromLines(PromptLines(step, ctx), LastRule, EndMarker(c));
    }
  }

  /** The interview text holds the current step's block. */
  lemma PromptHoldsBlock(step: int, ctx: Context)
    requires 1 <= step <= 5
    ensures Contains(SystemPrompt(step, ctx, false), StepBlock(step))
  {
    PromptParts(step, ctx);
    SlotsHoldBlock(1, step);
    ContainsInConcat(Lines(IntroLines(step, ctx)), Lines(SlotsFrom(1, step)), StepBlock(step));
    ContainsInConcat(Lines(IntroLines(step, ctx)) + Lines(SlotsFrom(1, step)), Lines(RuleLines) + LastRule, StepBlock(step));
  }

  /** Block `k` appears in the interview text exactly when `k` is the current step. */
  lemma PromptHoldsOnlyItsBlock(step: int, ctx: Context, k: int)
    requires 1 <= step <= 5 && 1 <= k <= 5 && KnownTags(ctx)
    ensures Contains(SystemPrompt(step, ctx, false), StepBlock(k)) <==> k == step
  {
    if k == step {
      PromptHoldsBlock(step, ctx);
    }
    if Contains(SystemPrompt(step, ctx, false), StepBlock(k)) {
      BlockEndsWithItsStep(k);
      ContainsTransitive(SystemPrompt(step, ctx, false), StepBlock(k), EndMarker(DigitChar(k)));
      PromptEndsWithItsStep(step, ctx, DigitChar(k));
    }
  }

  /** Block `k` holds the completion token exactly when it is the final block. */
  lemma OnlyFinalBlockHasToken(k: int)
    requires 1 <= k <= 5
    ensures Contains(StepBlock(k), CompletionToken) <==> k == 5
  {
    if k == 5 {
      assert CompletionLine in BlockLines(5);
      LineInLines(BlockLines(5), CompletionLine, "");
      assert Lines(BlockLines(5)) + "" == StepBlock(5);
      ContainsMiddle("    Add: ", CompletionToken, "");
      assert "    Add: " + CompletionToken + "" == CompletionLine;
      ContainsTransitive(StepBlock(5), CompletionLine, CompletionToken);
    } else {
      BlockKinds(k);
      forall line | line in BlockLines(k)
        ensures !Contains(line, CompletionToken)
      {
        TokenNeeds(line);
      }
      assert !Contains("", CompletionToken);
      AbsentFromLines(BlockLines(k), "", CompletionToken);
      assert Lines(BlockLines(k)) + "" == StepBlock(k);
    }
  }

  /** The interview text mentions the completion token exactly at step 5. */
  lemma OnlyFinalStepCompletes(step: int, ctx: Context)
    requires 1 <= step <= 5 && KnownTags(ctx)
    ensures Contains(SystemPrompt(step, ctx, false), CompletionToken) <==> step == 5
  {
    var prompt := SystemPrompt(step, ctx, false);
    if step == 5 {
      OnlyFinalBlockHasToken(5);
      PromptHoldsBlock(5, ctx);
      ContainsTransitive(prompt, StepBlock(5), CompletionToken);
    } else {
      PromptKinds(step, ctx);
      RuleKinds();
      forall line | line in PromptLines(step, ctx)
        ensures !Contains(line, CompletionToken)
      {
        TokenNeeds(line);
      }
      TokenNeeds(LastRule);
      AbsentFromLines(PromptLines(step, ctx), LastRule, CompletionToken);
    }
  }
}
