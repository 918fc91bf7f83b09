/**
 * How the chat function reads the model's reply (lines 233-241 of
 * supabase/functions/chat/index.ts): whether it announces the end of the
 * interview, which step it names, and the text shown to the user with both
 * instructions taken out.
 */
module ChatReply {
  import opened Wrappers
  import opened Text
  import opened ChatPrompt

  /** The `{ message, ready, step }` payload. */
  datatype ChatReply = ChatReply(message: string, ready: bool, step: int)

  /** `STEP:` followed by an ASCII digit starts at `i` (one match of `/STEP:\d/`). */
  predicate MarkerAt(s: string, i: nat)
  {
    i + 6 <= |s| && s[i..i + 5] == "STEP:" && IsDigit(s[i + 5])
  }

  /** The first match of `/STEP:(\d)/` at or after `from`. */
  function FirstMarker(s: string, from: nat): (r: Option<nat>)
    ensures r.Some? ==> from <= r.value && MarkerAt(s, r.value)
    ensures r.Some? ==> forall j: nat :: from <= j < r.value ==> !MarkerAt(s, j)
    ensures r.None? ==> forall j: nat :: from <= j ==> !MarkerAt(s, j)
    decreases |s| - from
  {
    if from + 6 > |s| then None
    else if MarkerAt(s, from) then Some(from)
    else FirstMarker(s, from + 1)
  }

  /** `stepMatch ? parseInt(stepMatch[1]) : 1`: the digit of the first marker, else 1; not clamped. */
  function ReplyStep(s: string): (step: int)
    ensures 0 <= step <= 9
    ensures (forall j: nat :: !MarkerAt(s, j)) ==> step == 1
    ensures forall i: nat ::
      MarkerAt(s, i) && (forall j: nat :: j < i ==> !MarkerAt(s, j)) ==> step == DigitValue(s[i + 5])
  {
    match FirstMarker(s, 0)
    case None => 1
    case Some(i) => DigitValue(s[i + 5])
  }

  /** A marker of `s[1..]` is a marker of `s` one place later. */
  lemma MarkerShift(s: string, j: nat)
    requires |s| > 0
    ensures MarkerAt(s[1..], j) <==> MarkerAt(s, j + 1)
  {
    if j + 6 <= |s[1..]| {
      assert s[1..][j..j + 5] == s[j + 1..j + 6];
    }
  }

  lemma SixMore(n: int)
    requires n % 6 == 0
    ensures (n + 6) % 6 == 0
  {
  }

  /** Past a first character that starts no marker, `s` has a marker exactly when `s[1..]` has one. */
  lemma NoMarkerShift(s: string)
    requires |s| > 0 && !MarkerAt(s, 0)
    ensures (forall j: nat :: !MarkerAt(s, j)) <==> (forall j: nat :: !MarkerAt(s[1..], j))
  {
    if forall j: nat :: !MarkerAt(s, j) {
      forall j: nat ensures !MarkerAt(s[1..], j) {
        MarkerShift(s, j);
      }
    }
    if forall j: nat :: !MarkerAt(s[1..], j) {
      forall j: nat ensures !MarkerAt(s, j) {
        if j > 0 {
          MarkerShift(s, j - 1);
        }
      }
    }
  }

  /**
   * `.replace(/STEP:\d/g, '')`: the regular expression is tried at each position from
   * the left; a match is deleted and the search resumes after it, otherwise one character
   * is kept.
   */
  function RemoveMarkers(s: string): (r: string)
    ensures |r| <= |s| && (|s| - |r|) % 6 == 0
    ensures r == s <==> FirstMarker(s, 0).None?
    ensures r != s ==> |r| <= |s| - 6
    decreases |s|
  {
    if |s| < 6 then s
    else if MarkerAt(s, 0) then
      SixMore(|s[6..]| - |RemoveMarkers(s[6..])|);
      RemoveMarkers(s[6..])
    else
      FirstMarkerShift(s);
      assert s == [s[0]] + s[1..];
      [s[0]] + RemoveMarkers(s[1..])
  }

  /** Past a first character that starts no marker, the search finds one in `s` exactly when it finds one in `s[1..]`. */
  lemma FirstMarkerShift(s: string)
    requires |s| > 0 && !MarkerAt(s, 0)
    ensures FirstMarker(s, 0).None? <==> FirstMarker(s[1..], 0).None?
  {
    NoMarkerShift(s);
  }

  /** The steps of `cleanedMessage`: the first completion token, then every marker, then white space at both ends. */
  function CleanMessage(text: string): (message: string)
    ensures Trimmed(message)
    ensures |message| <= |text|
    ensures !Contains(text, CompletionToken) ==> message == Trim(RemoveMarkers(text))
  {
    Trim(RemoveMarkers(ReplaceFirst(text, CompletionToken, "")))
  }

  /**
   * With the token present, only its first occurrence goes: for the text `a` before it, which
   * does not contain it, the message is `a` and the rest with their markers removed, trimmed.
   */
  lemma CleanSteps(a: string, b: string)
    requires !Contains(a, CompletionToken)
    ensures CleanMessage(a + CompletionToken + b) == Trim(RemoveMarkers(a + b))
  {
    TokenUnbordered();
    ReplaceFirstOfFirst(a, CompletionToken, b, "");
    assert a + "" + b == a + b;
  }

  /** Two occurrences of the token cannot overlap: its only other "C" is followed by "OM", not "ON". */
  lemma TokenUnbordered()
    ensures Unbordered(CompletionToken)
  {
    var t := CompletionToken;
    forall k | 0 < k < |t| ensures t[k..] != t[..|t| - k] {
      TokenLetterC(k);
      if k == 13 {
        assert t[k..][2] == t[15] != t[2] == t[..|t| - k][2];
      } else {
        assert t[k..][0] == t[k] != t[0] == t[..|t| - k][0];
      }
    }
  }

  lemma TokenLetterC(k: nat)
    requires k < |CompletionToken|
    ensures CompletionToken[k] == 'C' ==> k == 0 || k == 13
    ensures CompletionToken[0] == 'C' && CompletionToken[2] == 'N' && CompletionToken[15] == 'M'
  {
  }

  /** Lines 233-241: the reply as the client receives it. */
  function InterpretReply(text: string): (reply: ChatReply)
    ensures reply.ready <==> Contains(text, CompletionToken)
    ensures reply.step == ReplyStep(text)
    ensures reply.message == CleanMessage(text)
  {
    ChatReply(CleanMessage(text), Contains(text, CompletionToken), ReplyStep(text))
  }

  /** A reply with neither instruction is only trimmed. */
  lemma PlainReplyIsTrimmed(text: string)
    requires !Contains(text, CompletionToken) && forall j: nat :: !MarkerAt(text, j)
    ensures InterpretReply(text) == ChatReply(Trim(text), false, 1)
  {
  }

  /**
   * The scan from the left: the text before the first marker is kept, the six characters of
   * the marker go, and the scan goes on after them.
   */
  lemma MarkerIsRemoved(text: string, i: nat)
    requires MarkerAt(text, i) && forall j: nat :: j < i ==> !MarkerAt(text, j)
    ensures RemoveMarkers(text) == text[..i] + RemoveMarkers(text[i + 6..])
  {
    var p, m, r := text[..i], text[i..i + 6], text[i + 6..];
    assert text == p + m + r;
    assert m[..5] == text[i..i + 5];
    MarkerTaken(p, m, r);
  }

  /** A marker `m` after a text `p` in which no marker starts: `p` stays and `m` goes. */
  lemma MarkerTaken(p: string, m: string, s: string)
    requires |m| == 6 && MarkerAt(m, 0)
    requires forall i: nat :: i < |p| ==> !MarkerAt(p + m + s, i)
    ensures RemoveMarkers(p + m + s) == p + RemoveMarkers(s)
  {
    assert p + m + s == p + (m + s);
    KeepPrefix(p, m + s);
    assert (m + s)[..5] == m[..5] && (m + s)[5] == m[5];
    DropMarker(m + s);
    assert (m + s)[6..] == s;
  }

  /**
   * When every "S" of the text starts a marker, the global replace leaves no marker behind
   * (compare MarkerCanSurvive, where one "S" does not).
   */
  lemma {:induction false} EveryStepIsAMarker(s: string)
    requires forall i :: 0 <= i < |s| && s[i] == 'S' ==> MarkerAt(s, i)
    ensures 'S' !in RemoveMarkers(s)
    ensures forall j: nat :: !MarkerAt(RemoveMarkers(s), j)
    decreases |s|
  {
    var r := RemoveMarkers(s);
    if |s| < 6 {
      forall i | 0 <= i < |s| ensures s[i] != 'S' {
        assert !MarkerAt(s, i);
      }
    } else if MarkerAt(s, 0) {
      var t := s[6..];
      forall i | 0 <= i < |t| && t[i] == 'S' ensures MarkerAt(t, i) {
        assert s[i + 6] == t[i];
        assert s[i + 6..i + 11] == t[i..i + 5];
      }
      EveryStepIsAMarker(t);
      DropMarker(s);
    } else {
      var t := s[1..];
      forall i | 0 <= i < |t| && t[i] == 'S' ensures MarkerAt(t, i) {
        assert s[i + 1] == t[i];
        MarkerShift(s, i);
      }
      EveryStepIsAMarker(t);
      KeepFirst(s);
      assert s[0] != 'S';
    }
    forall j: nat ensures !MarkerAt(r, j) {
      MarkerStartsWithS(r, j);
    }
  }

  lemma MarkerStartsWithS(s: string, j: nat)
    ensures MarkerAt(s, j) ==> s[j] == 'S'
  {
    if MarkerAt(s, j) {
      assert s[j] == s[j..j + 5][0];
    }
  }

  /** Characters in front of which no marker starts are kept as they are. */
  lemma {:induction false} KeepPrefix(p: string, s: string)
    requires forall i: nat :: i < |p| ==> !MarkerAt(p + s, i)
    ensures RemoveMarkers(p + s) == p + RemoveMarkers(s)
  {
    if p != [] {
      var t := p + s;
      assert t[1..] == p[1..] + s;
      NoMarkerInTail(p, s);
      KeepPrefix(p[1..], s);
      assert !MarkerAt(t, 0);
      KeepFirst(t);
      assert t[0] == p[0];
      ConsSplit(p, RemoveMarkers(s));
    } else {
      assert p + s == s;
    }
  }

  lemma NoMarkerInTail(p: string, s: string)
    requires p != [] && forall i: nat :: i < |p| ==> !MarkerAt(p + s, i)
    ensures forall i: nat :: i < |p[1..]| ==> !MarkerAt(p[1..] + s, i)
  {
    var t := p + s;
    assert t[1..] == p[1..] + s;
    forall i: nat | i < |p[1..]| ensures !MarkerAt(p[1..] + s, i) {
      MarkerShift(t, i);
    }
  }

  /** A first character that starts no marker is kept. */
  lemma KeepFirst(t: string)
    requires t != [] && !MarkerAt(t, 0)
    ensures RemoveMarkers(t) == [t[0]] + RemoveMarkers(t[1..])
  {
    if |t| < 6 {
      assert RemoveMarkers(t[1..]) == t[1..];
      assert t == [t[0]] + t[1..];
    }
  }

  lemma ConsSplit(p: string, x: string)
    requires p != []
    ensures p + x == [p[0]] + (p[1..] + x)
  {
    assert p == [p[0]] + p[1..];
  }

  /** A marker at the front is deleted and the scan resumes after it. */
  lemma DropMarker(s: string)
    requires MarkerAt(s, 0)
    ensures RemoveMarkers(s) == RemoveMarkers(s[6..])
  {
  }

  /** No marker starts inside a text without a capital S. */
  lemma NoMarkerWithoutS(p: string, s: string)
    requires 'S' !in p
    ensures forall i: nat :: i < |p| ==> !MarkerAt(p + s, i)
  {
    forall i: nat | i < |p| ensures !MarkerAt(p + s, i) {
      assert (p + s)[i] == p[i];
      assert p[i] in p;
    }
  }

  /** The usual reply, a question followed by its marker: the question comes back alone with the marker's step. */
  lemma QuestionWithMarker(question: string, d: char)
    requires 'S' !in question && 'C' !in question && Trimmed(question) && IsDigit(d)
    ensures InterpretReply(question + " STEP:" + [d]) == ChatReply(question, false, DigitValue(d))
  {
    var text := question + " STEP:" + [d];
    var marker := "STEP:" + [d];
    assert text == (question + " ") + marker;
    assert 'C' !in text;
    ContainedChars(text, CompletionToken, 'C');
    assert 'S' !in question + " ";
    NoMarkerWithoutS(question + " ", marker);
    assert MarkerAt(text, |question| + 1);
    MarkerGoes(question + " ", marker, d);
    assert RemoveMarkers(text) == question + " ";
    TrimOfPadded("", question, " ");
    assert "" + question + " " == question + " ";
  }

  /** The example of an interview reply: "Great, what languages do you know? STEP:1". */
  lemma ExampleReply(question: string)
    requires question == "Great, what " + "languages do " + "you know?"
    ensures InterpretReply(question + " STEP:1") == ChatReply(question, false, 1)
  {
    ExampleQuestion(question);
    QuestionWithMarker(question, '1');
    MarkerOne(question);
  }

  lemma ExampleQuestion(question: string)
    requires question == "Great, what " + "languages do " + "you know?"
    ensures 'S' !in question && 'C' !in question && Trimmed(question)
  {
  }

  lemma MarkerOne(question: string)
    ensures question + " STEP:" + ['1'] == question + " STEP:1"
  {
    assert " STEP:" + ['1'] == " STEP:1";
  }

  /** The closing reply, a message followed by the completion token and a marker: the message comes back alone, ready, with the marker's step. */
  lemma CompletionWithMarker(message: string, d: char)
    requires 'S' !in message && 'C' !in message && Trimmed(message) && IsDigit(d)
    ensures InterpretReply(message + (" " + CompletionToken + " STEP:" + [d])) == ChatReply(message, true, DigitValue(d))
  {
    var marker := "STEP:" + [d];
    var text := message + (" " + CompletionToken + " STEP:" + [d]);
    assert " " + marker == " STEP:" + [d];
    assert text == (message + " ") + CompletionToken + (" " + marker);
    ContainsMiddle(message + " ", CompletionToken, " " + marker);
    assert Contains(text, CompletionToken);
    CompletionCleans(message, marker, d);
    assert CleanMessage(text) == message;
    CompletionStep(message + " ", d);
    assert ReplyStep(text) == DigitValue(d);
  }

  /** Taking out the token, then the marker, then the padding leaves the message. */
  lemma CompletionCleans(message: string, marker: string, d: char)
    requires 'S' !in message && 'C' !in message && Trimmed(message)
    requires marker == "STEP:" + [d] && IsDigit(d)
    ensures CleanMessage((message + " ") + CompletionToken + (" " + marker)) == message
  {
    var text := (message + " ") + CompletionToken + (" " + marker);
    var rest := message + "  ";
    TokenGoes(message, marker);
    assert 'S' !in rest;
    MarkerGoes(rest, marker, d);
    assert RemoveMarkers(ReplaceFirst(text, CompletionToken, "")) == rest;
    TrimOfPadded("", message, "  ");
    assert "" + message + "  " == rest;
  }

  /** The first occurrence of the token is the one after the message, whose characters hold no "C". */
  lemma TokenGoes(message: string, marker: string)
    requires 'C' !in message
    ensures ReplaceFirst((message + " ") + CompletionToken + (" " + marker), CompletionToken, "") == (message + "  ") + marker
  {
    ReplaceFirstAfter(message + " ", CompletionToken, " " + marker, "");
    assert (message + " ") + "" + (" " + marker) == (message + "  ") + marker;
  }

  /** A trailing marker goes, and the text before it, which holds no "S", stays. */
  lemma MarkerGoes(rest: string, marker: string, d: char)
    requires 'S' !in rest && marker == "STEP:" + [d] && IsDigit(d)
    ensures RemoveMarkers(rest + marker) == rest
  {
    NoMarkerWithoutS(rest, marker);
    KeepPrefix(rest, marker);
    DropMarker(marker);
    assert marker[6..] == [];
    assert RemoveMarkers(marker) == [];
    assert rest + [] == rest;
  }

  /** The marker after the token is the first one. */
  lemma CompletionStep(a: string, d: char)
    requires 'S' !in a && IsDigit(d)
    ensures ReplyStep(a + CompletionToken + (" STEP:" + [d])) == DigitValue(d)
  {
    var marker := "STEP:" + [d];
    var text := a + (CompletionToken + " ") + marker;
    assert a + CompletionToken + (" STEP:" + [d]) == text;
    TokenStartsNoMarker(a, marker);
    var i := |a| + |CompletionToken| + 1;
    assert text[i..] == marker;
    assert text[i..i + 5] == "STEP:" && text[i + 5] == d;
    assert MarkerAt(text, i);
  }

  /** No marker starts before the one that follows the completion token: its only "S" is followed by "A". */
  lemma TokenStartsNoMarker(a: string, marker: string)
    requires 'S' !in a
    ensures forall j: nat :: j < |a| + |CompletionToken| + 1 ==> !MarkerAt(a + (CompletionToken + " ") + marker, j)
  {
    var t := CompletionToken + " ";
    var s := a + t + marker;
    forall j: nat | j < |a| + |t| ensures !MarkerAt(s, j) {
      if j < |a| {
        assert s[j] == a[j];
      } else {
        TokenLetters(j - |a|);
        assert s[j] == t[j - |a|];
        if j + 1 < |a| + |t| {
          assert s[j + 1] == t[j - |a| + 1];
        }
      }
    }
  }

  lemma TokenLetters(k: nat)
    requires k < |CompletionToken| + 1
    ensures (CompletionToken + " ")[k] == 'S' ==> (CompletionToken + " ")[k + 1] == 'A'
  {
  }

  /** The example of a closing reply: "Thanks! Generating your matches now. CONVERSATION_COMPLETE STEP:5". */
  lemma CompletionReply(message: string)
    requires message == "Thanks! Generating " + "your matches now."
    ensures InterpretReply(message + " CONVERSATION_COMPLETE STEP:5") == ChatReply(message, true, 5)
  {
    CompletionMessage(message);
    CompletionWithMarker(message, '5');
    CompletionSuffix();
  }

  lemma CompletionSuffix()
    ensures " " + CompletionToken + " STEP:" + ['5'] == " CONVERSATION_COMPLETE STEP:5"
  {
  }

  lemma CompletionMessage(message: string)
    requires message == "Thanks! Generating " + "your matches now."
    ensures 'S' !in message && 'C' !in message && Trimmed(message)
  {
  }

  /**
   * One pass of the global replace can leave a marker behind: a deleted match can
   * bring "STEP:" next to a digit, as in "STEP:STEP:12", which cleans to "STEP:2".
   */
  lemma MarkerCanSurvive()
    ensures RemoveMarkers("STEP:STEP:12") == "STEP:2"
    ensures MarkerAt(RemoveMarkers("STEP:STEP:12"), 0)
  {
    SurvivorCleaning('1', '2');
    assert "STEP:" + ("STEP:" + ['1'] + ['2']) == "STEP:STEP:12";
    MarkerInFront('2', "");
    assert "STEP:" + ['2'] + "" == "STEP:" + ['2'] == "STEP:2";
  }

  /** In "STEP:STEP:de" the first "STEP:" starts no marker and stays; the marker after it goes. */
  lemma SurvivorCleaning(d: char, e: char)
    requires IsDigit(d) && IsDigit(e)
    ensures RemoveMarkers("STEP:" + ("STEP:" + [d] + [e])) == "STEP:" + [e]
  {
    var t := "STEP:" + [d] + [e];
    var s := "STEP:" + t;
    forall j: nat | j < 5 ensures !MarkerAt(s, j) {
      assert s[5] == 'S';
      assert s[j] == "STEP:"[j];
    }
    KeepPrefix("STEP:", t);
    MarkerInFront(d, [e]);
    DropMarker(t);
    assert t[6..] == [e];
  }

  /** "STEP:" and a digit, whatever follows, is a marker at the front. */
  lemma MarkerInFront(d: char, rest: string)
    requires IsDigit(d)
    ensures MarkerAt("STEP:" + [d] + rest, 0)
  {
    var t := "STEP:" + [d] + rest;
    assert t[..5] == "STEP:" && t[5] == d;
  }
}
