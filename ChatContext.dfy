/**
 * What the chat function reads off the conversation before it prompts the model:
 * the fields the user talks about (a whole-word keyword search over the
 * lower-cased transcript), the interview step (from the number of user turns
 * alone) and the tailored example questions.
 */
module ChatContext {
  import opened Text
  import opened Transcript

  /** `extractedContext`: four tag lists; only the first two are ever filled. */
  datatype Context = Context(techFields: seq<string>, businessFields: seq<string>, skills: seq<string>, industries: seq<string>)

  const SoftwareDevelopment: string := "software development"
  const DataScience: string := "data science"
  const Design: string := "design"
  const Marketing: string := "marketing"
  const Finance: string := "finance"
  const Sales: string := "sales"

  /** The tags in the order the extractor tests for them. */
  const TechTags: seq<string> := [SoftwareDevelopment, DataScience, Design]
  const BusinessTags: seq<string> := [Marketing, Finance, Sales]

  /** The alternatives of the six keyword regular expressions, in their written order. */
  const SoftwareKeywords: seq<string> := ["computer science", "cs", "software", "programming", "coding", "developer", "engineer"]
  const DataKeywords: seq<string> := ["data science", "machine learning", "ml", "ai", "analytics"]
  const DesignKeywords: seq<string> := ["design", "ui", "ux", "figma", "sketch"]
  const MarketingKeywords: seq<string> := ["marketing", "seo", "social media", "advertising"]
  const FinanceKeywords: seq<string> := ["finance", "accounting", "investment", "banking"]
  const SalesKeywords: seq<string> := ["sales", "business development", "account"]

  /** `allMessages`: every message's text, whatever its role, joined by spaces and lower-cased. */
  function AllMessages(messages: seq<Message>): string
  {
    Lower(Join(Contents(messages), " "))
  }

  // ---------------------------------------------------------------- whole-word search

  /** `\b` at index `i`: exactly one of the characters either side of `i` is a word character. */
  predicate Boundary(s: string, i: nat)
  {
    (0 < i <= |s| && IsWordChar(s[i - 1])) != (i < |s| && IsWordChar(s[i]))
  }

  /** `\bk\b` matches at index `i`. */
  predicate WordAt(s: string, k: string, i: nat)
  {
    OccursAt(s, k, i) && Boundary(s, i) && Boundary(s, i + |k|)
  }

  /** `s.match(/\b(k0|k1|...)\b/)` is non-null: some alternative matches, with a boundary either side, somewhere. */
  predicate MatchesWord(s: string, keywords: seq<string>)
  {
    exists j: nat, i: nat | j < |keywords| && i <= |s| :: WordAt(s, keywords[j], i)
  }

  /** Scans the start positions `from`, `from + 1`, ... for a whole-word occurrence of `k`. */
  function SearchWord(s: string, k: string, from: nat): (found: bool)
    ensures found <==> exists i: nat | from <= i <= |s| :: WordAt(s, k, i)
    decreases |s| + 1 - from
  {
    if from > |s| then false else WordAt(s, k, from) || SearchWord(s, k, from + 1)
  }

  /** Tries the alternatives in order, as the regular-expression engine does at each position. */
  function SearchKeywords(s: string, keywords: seq<string>): (found: bool)
    ensures found <==> MatchesWord(s, keywords)
  {
    if keywords == [] then false
    else if SearchWord(s, keywords[0], 0) then true
    else
      var rest := SearchKeywords(s, keywords[1..]);
      assert MatchesWord(s, keywords[1..]) ==> MatchesWord(s, keywords) by {
        if MatchesWord(s, keywords[1..]) {
          var j: nat, i: nat :| j < |keywords[1..]| && i <= |s| && WordAt(s, keywords[1..][j], i);
          assert WordAt(s, keywords[j + 1], i);
        }
      }
      assert MatchesWord(s, keywords) ==> MatchesWord(s, keywords[1..]) by {
        if MatchesWord(s, keywords) {
          var j: nat, i: nat :| j < |keywords| && i <= |s| && WordAt(s, keywords[j], i);
          assert j > 0;
          assert WordAt(s, keywords[1..][j - 1], i);
        }
      }
      rest
  }

  /** `xs` is `ys` with some elements left out: its elements, each at most once, in `ys`'s order. */
  predicate IsSublist(xs: seq<string>, ys: seq<string>)
  {
    if xs == [] then true
    else if ys == [] then false
    else (xs[0] == ys[0] && IsSublist(xs[1..], ys[1..])) || IsSublist(xs, ys[1..])
  }

  /** The tags that can appear in the context. */
  predicate KnownTags(ctx: Context)
  {
    (forall t | t in ctx.techFields :: t in TechTags) && (forall t | t in ctx.businessFields :: t in BusinessTags)
  }

  lemma {:induction false} SublistElements(xs: seq<string>, ys: seq<string>)
    requires IsSublist(xs, ys)
    ensures forall x | x in xs :: x in ys
  {
    if xs != [] && ys != [] {
      if xs[0] == ys[0] && IsSublist(xs[1..], ys[1..]) {
        SublistElements(xs[1..], ys[1..]);
        assert forall x | x in xs :: x == xs[0] || x in xs[1..];
      } else {
        SublistElements(xs, ys[1..]);
      }
    }
  }

  /** Growing the reference list at the back keeps a sublist a sublist, with or without the new element. */
  lemma {:induction false} SublistSnoc(xs: seq<string>, ys: seq<string>, y: string)
    ensures IsSublist(xs, ys) ==> IsSublist(xs, ys + [y])
    ensures IsSublist(xs, ys) ==> IsSublist(xs + [y], ys + [y])
  {
    if xs == [] {
      assert xs + [y] == [y];
      SublistOfSnoc(ys, y);
    } else if ys != [] {
      assert (ys + [y])[1..] == ys[1..] + [y];
      assert (xs + [y])[1..] == xs[1..] + [y];
      SublistSnoc(xs[1..], ys[1..], y);
      SublistSnoc(xs, ys[1..], y);
    }
  }

  lemma {:induction false} SublistOfSnoc(ys: seq<string>, y: string)
    ensures IsSublist([y], ys + [y])
  {
    if ys != [] {
      assert (ys + [y])[1..] == ys[1..] + [y];
      SublistOfSnoc(ys[1..], y);
    } else {
      assert [y][1..] == [];
    }
  }

  /** The tags of each group have different lengths, so they are different. */
  lemma TagsDiffer()
    ensures SoftwareDevelopment != DataScience && SoftwareDevelopment != Design && DataScience != Design
    ensures Marketing != Finance && Marketing != Sales && Finance != Sales
  {
    assert |SoftwareDevelopment| == 20 && |DataScience| == 12 && |Design| == 6;
    assert |Marketing| == 9 && |Finance| == 7 && |Sales| == 5;
  }

  /** Lines 38-47: the tech keyword tests, each pushing its tag onto `techFields` when it matches. */
  method TechFields(allMessages: string) returns (fields: seq<string>)
    ensures SoftwareDevelopment in fields <==> MatchesWord(allMessages, SoftwareKeywords)
    ensures DataScience in fields <==> MatchesWord(allMessages, DataKeywords)
    ensures Design in fields <==> MatchesWord(allMessages, DesignKeywords)
    ensures IsSublist(fields, TechTags)
  {
    TagsDiffer();
    fields := [];
    SublistSnoc(fields, [], SoftwareDevelopment);
    if SearchKeywords(allMessages, SoftwareKeywords) {
      fields := fields + [SoftwareDevelopment];
    }
    SublistSnoc(fields, [SoftwareDevelopment], DataScience);
    if SearchKeywords(allMessages, DataKeywords) {
      fields := fields + [DataScience];
    }
    SublistSnoc(fields, [SoftwareDevelopment, DataScience], Design);
    if SearchKeywords(allMessages, DesignKeywords) {
      fields := fields + [Design];
    }
    assert [SoftwareDevelopment, DataScience] + [Design] == TechTags;
  }

  /** Lines 49-58: the business keyword tests, pushing onto `businessFields`. */
  method BusinessFields(allMessages: string) returns (fields: seq<string>)
    ensures Marketing in fields <==> MatchesWord(allMessages, MarketingKeywords)
    ensures Finance in fields <==> MatchesWord(allMessages, FinanceKeywords)
    ensures Sales in fields <==> MatchesWord(allMessages, SalesKeywords)
    ensures IsSublist(fields, BusinessTags)
  {
    TagsDiffer();
    fields := [];
    SublistSnoc(fields, [], Marketing);
    if SearchKeywords(allMessages, MarketingKeywords) {
      fields := fields + [Marketing];
    }
    SublistSnoc(fields, [Marketing], Finance);
    if SearchKeywords(allMessages, FinanceKeywords) {
      fields := fields + [Finance];
    }
    SublistSnoc(fields, [Marketing, Finance], Sales);
    if SearchKeywords(allMessages, SalesKeywords) {
      fields := fields + [Sales];
    }
    assert [Marketing, Finance] + [Sales] == BusinessTags;
  }

  /**
   * What lines 28-58 compute from a transcript: each tag is present exactly when one of
   * its keywords occurs as a whole word in the lower-cased text of all messages, the tags
   * keep the order they are tested in, and `skills` and `industries` stay empty.
   */
  predicate Extracted(messages: seq<Message>, ctx: Context)
  {
    var all := AllMessages(messages);
    && ctx.skills == [] && ctx.industries == []
    && (SoftwareDevelopment in ctx.techFields <==> MatchesWord(all, SoftwareKeywords))
    && (DataScience in ctx.techFields <==> MatchesWord(all, DataKeywords))
    && (Design in ctx.techFields <==> MatchesWord(all, DesignKeywords))
    && (Marketing in ctx.businessFields <==> MatchesWord(all, MarketingKeywords))
    && (Finance in ctx.businessFields <==> MatchesWord(all, FinanceKeywords))
    && (Sales in ctx.businessFields <==> MatchesWord(all, SalesKeywords))
    && IsSublist(ctx.techFields, TechTags) && IsSublist(ctx.businessFields, BusinessTags)
  }

  /** Lines 28-58: the transcript of every message is searched for the six keyword groups. */
  method ExtractContext(messages: seq<Message>) returns (ctx: Context)
    ensures Extracted(messages, ctx)
    ensures KnownTags(ctx)
  {
    var allMessages := AllMessages(messages);
    ctx := Context([], [], [], []);
    var tech := TechFields(allMessages);
    var business := BusinessFields(allMessages);
    ctx := ctx.(techFields := tech, businessFields := business);
    SublistElements(ctx.techFields, TechTags);
    SublistElements(ctx.businessFields, BusinessTags);
  }

  /** No element repeats. */
  predicate Distinct(ys: seq<string>)
  {
    forall i, j | 0 <= i < j < |ys| :: ys[i] != ys[j]
  }

  /** A sublist of a list without repeats is fixed by which of the list's elements it holds. */
  lemma {:induction false} SublistDetermined(xs: seq<string>, zs: seq<string>, ys: seq<string>)
    requires Distinct(ys) && IsSublist(xs, ys) && IsSublist(zs, ys)
    requires forall y | y in ys :: y in xs <==> y in zs
    ensures xs == zs
  {
    if ys == [] {
    } else {
      var y := ys[0];
      var rest := ys[1..];
      assert Distinct(rest);
      assert y !in rest by {
        forall j | 0 <= j < |rest| ensures rest[j] != y {
          assert rest[j] == ys[j + 1];
        }
      }
      HeadOfSublist(xs, ys);
      HeadOfSublist(zs, ys);
      forall t | t in rest ensures t in ForgetHead(xs, y) <==> t in ForgetHead(zs, y) {
        assert t != y;
        assert t in ys;
      }
      SublistDetermined(ForgetHead(xs, y), ForgetHead(zs, y), rest);
    }
  }

  /** `xs` without `y` in front. */
  function ForgetHead(xs: seq<string>, y: string): seq<string>
  {
    if xs != [] && xs[0] == y then xs[1..] else xs
  }

  /** Against a list without repeats, a sublist starts with the list's head exactly when it holds it. */
  lemma HeadOfSublist(xs: seq<string>, ys: seq<string>)
    requires ys != [] && ys[0] !in ys[1..] && IsSublist(xs, ys)
    ensures IsSublist(ForgetHead(xs, ys[0]), ys[1..])
    ensures ys[0] !in ForgetHead(xs, ys[0])
    ensures forall t | t != ys[0] :: t in xs <==> t in ForgetHead(xs, ys[0])
  {
    if xs != [] {
      if xs[0] == ys[0] && IsSublist(xs[1..], ys[1..]) {
        SublistElements(xs[1..], ys[1..]);
        assert forall t | t in xs :: t == xs[0] || t in xs[1..];
      } else {
        SublistElements(xs, ys[1..]);
        assert xs[0] in ys[1..];
      }
    }
  }

  /** Extraction has one outcome: the context it promises is unique. */
  lemma ExtractionIsDetermined(messages: seq<Message>, a: Context, b: Context)
    requires Extracted(messages, a) && Extracted(messages, b)
    ensures a == b
  {
    forall y | y in TechTags ensures y in a.techFields <==> y in b.techFields {
    }
    forall y | y in BusinessTags ensures y in a.businessFields <==> y in b.businessFields {
    }
    SublistDetermined(a.techFields, b.techFields, TechTags);
    SublistDetermined(a.businessFields, b.businessFields, BusinessTags);
  }

  /** No keyword can match in an empty transcript, so an empty conversation yields an empty context. */
  lemma EmptyTranscriptHasNoHits(keywords: seq<string>)
    requires forall j :: 0 <= j < |keywords| ==> keywords[j] != ""
    ensures AllMessages([]) == ""
    ensures !MatchesWord(AllMessages([]), keywords)
  {
    assert Contents([]) == [];
    forall j: nat, i: nat | j < |keywords| && i <= 0 ensures !WordAt("", keywords[j], i) {
      assert |keywords[j]| > 0;
    }
  }

  /** Extraction reads every message's text, whatever its role. */
  lemma AllMessagesCoverEveryMessage(messages: seq<Message>, i: nat)
    requires i < |messages|
    ensures Contains(AllMessages(messages), Lower(messages[i].content))
  {
    JoinContainsPart(Contents(messages), " ", i);
    LowerKeepsContains(Join(Contents(messages), " "), messages[i].content);
  }

  // ---------------------------------------------------------------- the step

  /** The interview step for a number of user turns: five turns per step, capped at the fifth. */
  function StepFor(exchangeCount: nat): (step: int)
    ensures 1 <= step <= 5
    ensures step < 5 ==> 5 * (step - 1) <= exchangeCount < 5 * step
    ensures step == 5 <==> exchangeCount >= 20
  {
    if exchangeCount >= 20 then 5 else exchangeCount / 5 + 1
  }

  /** Lines 61-72: `currentStep` starts at 1 and is set by an if-chain on the user-turn count. */
  method CurrentStep(messages: seq<Message>) returns (currentStep: int)
    ensures currentStep == StepFor(UserCount(messages))
  {
    currentStep := 1;
    var exchangeCount := UserCount(messages);
    if exchangeCount >= 20 {
      currentStep := 5;
    } else if exchangeCount >= 15 {
      currentStep := 4;
    } else if exchangeCount >= 10 {
      currentStep := 3;
    } else if exchangeCount >= 5 {
      currentStep := 2;
    } else {
      currentStep := 1;
    }
  }

  /** More user turns never lower the step. */
  lemma StepForMonotone(a: nat, b: nat)
    requires a <= b
    ensures StepFor(a) <= StepFor(b)
  {
  }

  /** Only user turns move the step: a message of any other role leaves it where it was. */
  lemma StepIgnoresOtherRoles(messages: seq<Message>, m: Message)
    ensures m.role != "user" ==> StepFor(UserCount(messages + [m])) == StepFor(UserCount(messages))
    ensures m.role == "user" ==> UserCount(messages + [m]) == UserCount(messages) + 1
  {
    UserContentsSnoc(messages, m);
  }

  // ---------------------------------------------------------------- tailored examples

  const SoftwareExperience: string := "What frameworks or languages have you worked with? (e.g., React, Python, Node.js) What types of projects have you built?"
  const DataExperience: string := "What ML frameworks do you use? (e.g., TensorFlow, PyTorch, Scikit-learn) What data problems have you solved?"
  const MarketingExperience: string := "What marketing channels are you experienced with? (e.g., SEO, paid ads, social media) What campaigns have you led?"
  const GeneralExperience: string := "What specific skills and tools do you excel at? What are your key achievements?"
  const SoftwarePreference: string := "Are you interested in frontend, backend, or full-stack roles? Do you prefer startups or established companies?"
  const DataPreference: string := "Are you looking for ML engineering, data analysis, or research roles? What type of data problems excite you?"
  const MarketingPreference: string := "Do you prefer digital marketing, growth, or brand strategy? Agency or in-house?"
  const GeneralPreference: string := "What's your ideal role? What type of company culture appeals to you?"
  const TechLocation: string := "Are you open to remote work? Tech hubs like SF, NYC, Austin? What's your salary range?"
  const GeneralLocation: string := "Where do you want to work? Remote, hybrid, or in-office? What's your target salary?"

  /** `getPersonalizedExamples(step)`, lines 75-113. */
  function PersonalizedExamples(step: int, ctx: Context): (r: string)
    ensures r != "" <==> 2 <= step <= 4
    ensures step == 4 ==> (r == TechLocation <==> ctx.techFields != [])
    ensures step == 4 ==> (r == GeneralLocation <==> ctx.techFields == [])
  {
    var isTech := |ctx.techFields| > 0;
    var isBusiness := |ctx.businessFields| > 0;
    if step == 2 then
      if isTech && SoftwareDevelopment in ctx.techFields then SoftwareExperience
      else if isTech && DataScience in ctx.techFields then DataExperience
      else if isBusiness && Marketing in ctx.businessFields then MarketingExperience
      else GeneralExperience
    else if step == 3 then
      if isTech && SoftwareDevelopment in ctx.techFields then SoftwarePreference
      else if isTech && DataScience in ctx.techFields then DataPreference
      else if isBusiness && Marketing in ctx.businessFields then MarketingPreference
      else GeneralPreference
    else if step == 4 then
      if isTech then TechLocation else GeneralLocation
    else ""
  }

  /** What the examples for steps 2 and 3 are tailored to. */
  datatype Focus = SoftwareFocus | DataFocus | MarketingFocus | GeneralFocus

  /** The priority order: software development, then data science, then marketing, then nothing in particular. */
  function Rank(f: Focus): nat
  {
    match f
    case SoftwareFocus => 0
    case DataFocus => 1
    case MarketingFocus => 2
    case GeneralFocus => 3
  }

  /** The context carries the tag a focus stands for (the general focus needs none). */
  predicate Mentions(ctx: Context, f: Focus)
  {
    match f
    case SoftwareFocus => SoftwareDevelopment in ctx.techFields
    case DataFocus => DataScience in ctx.techFields
    case MarketingFocus => Marketing in ctx.businessFields
    case GeneralFocus => true
  }

  /** The highest-priority focus the context mentions. */
  function ExampleFocus(ctx: Context): (f: Focus)
    ensures Mentions(ctx, f)
    ensures forall g: Focus :: Rank(g) < Rank(f) ==> !Mentions(ctx, g)
  {
    if SoftwareDevelopment in ctx.techFields then SoftwareFocus
    else if DataScience in ctx.techFields then DataFocus
    else if Marketing in ctx.businessFields then MarketingFocus
    else GeneralFocus
  }

  function ExperienceExample(f: Focus): string
  {
    match f
    case SoftwareFocus => SoftwareExperience
    case DataFocus => DataExperience
    case MarketingFocus => MarketingExperience
    case GeneralFocus => GeneralExperience
  }

  function PreferenceExample(f: Focus): string
  {
    match f
    case SoftwareFocus => SoftwarePreference
    case DataFocus => DataPreference
    case MarketingFocus => MarketingPreference
    case GeneralFocus => GeneralPreference
  }

  /** Steps 2 and 3 pick the question for the highest-priority field the user mentioned. */
  lemma ExamplesFollowPriority(ctx: Context)
    ensures PersonalizedExamples(2, ctx) == ExperienceExample(ExampleFocus(ctx))
    ensures PersonalizedExamples(3, ctx) == PreferenceExample(ExampleFocus(ctx))
  {
  }
}
