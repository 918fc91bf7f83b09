/**
 * What the structured-output handlers (generate-matches, generate-cv, parse-cv) do
 * with the model's text before and after `JSON.parse`: Markdown code fences are cut
 * out and the text trimmed; a text that does not parse is replaced by a fixed value.
 * JSON values are a datatype; `JSON.parse` itself is a parameter of the handlers.
 */
module ModelOutput {
  import opened Wrappers
  import opened Text
  import opened Http

  /** A JSON value. Numbers are exact decimals, `mantissa * 10^exponent`. */
  datatype Json =
    | JNull
    | JBool(b: bool)
    | JNumber(mantissa: int, exponent: int)
    | JString(s: string)
    | JArray(items: seq<Json>)
    | JObject(fields: seq<Field>)

  datatype Field = Field(key: string, value: Json)

  const JsonFence: string := "```json"
  const Fence: string := "```"

  /**
   * `s.replace(/<fence>\n?/g, '')`: scanning from the left, each occurrence of the fence
   * is deleted together with one newline right after it, if there is one, and the scan
   * resumes after what was deleted.
   */
  function RemoveFence(s: string, fence: string): (r: string)
    requires fence != []
    ensures |r| <= |s|
    decreases |s|
  {
    if |s| < |fence| then s
    else if s[..|fence|] == fence then
      var rest := s[|fence|..];
      if rest != [] && rest[0] == '\n' then RemoveFence(rest[1..], fence) else RemoveFence(rest, fence)
    else [s[0]] + RemoveFence(s[1..], fence)
  }

  /** Lines 94 / 107 / 132 of the three handlers: "```json" fences, then bare fences, then white space at both ends. */
  function StripFences(s: string): (r: string)
    ensures |r| <= |s|
  {
    Trim(RemoveFence(RemoveFence(s, JsonFence), Fence))
  }

  /** `try { v = JSON.parse(text) } catch { v = fallback }`. */
  function ParseOr(parse: string -> Option<Json>, text: string, fallback: Json): (v: Json)
    ensures parse(text).Some? ==> v == parse(text).value
    ensures parse(text).None? ==> v == fallback
  {
    match parse(text)
    case Some(parsed) => parsed
    case None => fallback
  }

  /**
   * What the three handlers answer once they have called the model: a failed call maps by
   * its status (`failure` for anything but 429 and 402), an unreadable envelope gives a 500
   * with its message, and otherwise the fence-stripped text is parsed, or replaced by
   * `fallback`, and sent as the one field `key`.
   */
  function StructuredResponse(upstream: Upstream, failure: string, parse: string -> Option<Json>, key: string, fallback: Json): (r: Response<Json>)
    ensures !IsOk(upstream.status) ==> r == UpstreamFailure(upstream.status, failure)
    ensures IsOk(upstream.status) && upstream.content.Failure? ==> r == ServerError(upstream.content.error)
    ensures IsOk(upstream.status) && upstream.content.Success? ==>
      r == Response(200, Payload(JObject([Field(key, ParseOr(parse, StripFences(upstream.content.value), fallback))])))
  {
    if !IsOk(upstream.status) then UpstreamFailure(upstream.status, failure)
    else match upstream.content
      case Failure(e) => ServerError(e)
      case Success(text) => Response(200, Payload(JObject([Field(key, ParseOr(parse, StripFences(text), fallback))])))
  }

  /** The answer is a success exactly when the call succeeded and its envelope was readable, whatever the model wrote. */
  lemma SuccessNeedsOnlyTheCall(upstream: Upstream, failure: string, parse: string -> Option<Json>, key: string, fallback: Json)
    ensures var r := StructuredResponse(upstream, failure, parse, key, fallback);
      (r.status == 200 <==> IsOk(upstream.status) && upstream.content.Success?)
      && (r.status == 200 ==> r.body.Payload?)
  {
  }

  // ---------------------------------------------------------------- what fence removal keeps

  /** Text in which no fence can start is kept as it is. */
  lemma {:induction false} FencePrefix(p: string, s: string, fence: string)
    requires fence != [] && fence[0] !in p
    ensures RemoveFence(p + s, fence) == p + RemoveFence(s, fence)
  {
    if p != [] {
      var t := p + s;
      assert t[1..] == p[1..] + s;
      assert p[0] in p;
      FencePrefix(p[1..], s, fence);
      if |t| >= |fence| {
        assert t[..|fence|][0] != fence[0];
        calc {
          RemoveFence(t, fence);
          [t[0]] + RemoveFence(t[1..], fence);
          [p[0]] + (p[1..] + RemoveFence(s, fence));
        }
      } else {
        assert RemoveFence(s, fence) == s;
      }
      assert p == [p[0]] + p[1..];
      assert p + RemoveFence(s, fence) == [p[0]] + (p[1..] + RemoveFence(s, fence));
    } else {
      assert p + s == s;
    }
  }

  /** A text without backticks passes both removals unchanged, so it is only trimmed. */
  lemma PlainOutputIsTrimmed(s: string)
    requires '`' !in s
    ensures StripFences(s) == Trim(s)
  {
    FencePrefix(s, "", JsonFence);
    FencePrefix(s, "", Fence);
    assert s + "" == s;
  }

  /** A text starting with something other than a backtick keeps its first character. */
  lemma KeepsFirst(s: string)
    requires s != [] && s[0] != '`'
    ensures RemoveFence(s, Fence) != [] && RemoveFence(s, Fence)[0] == s[0]
  {
    if |s| >= |Fence| {
      assert s[..3][0] != Fence[0];
    }
  }

  /** Keeping a first character that starts no fence leaves fewer than three backticks at the front. */
  lemma FrontRunShort(s: string)
    requires |s| >= 3 && s[..3] != Fence
    ensures !OccursAt([s[0]] + RemoveFence(s[1..], Fence), Fence, 0)
  {
    var t := RemoveFence(s[1..], Fence);
    if s[0] == '`' {
      if s[1] != '`' {
        KeepsFirst(s[1..]);
      } else {
        assert s[2] != '`';
        var u := s[1..];
        if |u| < 3 {
          assert t == u;
        } else {
          assert u[..3][1] != '`';
          assert t == [u[0]] + RemoveFence(u[1..], Fence);
          KeepsFirst(u[1..]);
        }
        assert t[1] != '`';
        assert ([s[0]] + t)[1] == t[0] && ([s[0]] + t)[2] == t[1];
      }
    }
  }

  /** A fence in `[c] + t` either starts at the front or lies in `t`. */
  lemma ConsNoFence(c: char, t: string)
    requires !Contains(t, Fence) && !OccursAt([c] + t, Fence, 0)
    ensures !Contains([c] + t, Fence)
  {
    var r := [c] + t;
    forall i: nat | 1 <= i <= |r| ensures !OccursAt(r, Fence, i) {
      if OccursAt(r, Fence, i) {
        assert t[i - 1..i - 1 + 3] == r[i..i + 3];
        ContainsAt(t, Fence, i - 1);
      }
    }
  }

  /** No removal leaves three backticks in a row: the bare-fence pass leaves no fence behind. */
  lemma {:induction false} NoFenceLeft(s: string)
    ensures !Contains(RemoveFence(s, Fence), Fence)
    decreases |s|
  {
    if |s| < 3 {
      assert |RemoveFence(s, Fence)| < 3;
    } else if s[..3] == Fence {
      var rest := s[3..];
      if rest != [] && rest[0] == '\n' {
        NoFenceLeft(rest[1..]);
      } else {
        NoFenceLeft(rest);
      }
    } else {
      NoFenceLeft(s[1..]);
      FrontRunShort(s);
      ConsNoFence(s[0], RemoveFence(s[1..], Fence));
    }
  }

  /** A slice of a text is contained in it. */
  lemma SliceContained(s: string, a: nat, b: nat, p: string)
    requires a <= b <= |s| && Contains(s[a..b], p)
    ensures Contains(s, p)
  {
    assert s == s[..a] + s[a..b] + s[b..];
    ContainsInConcat(s[..a], s[a..b], p);
    ContainsInConcat(s[..a] + s[a..b], s[b..], p);
  }

  /** What reaches `JSON.parse` never holds a code fence. */
  lemma StrippedHasNoFence(s: string)
    ensures !Contains(StripFences(s), Fence)
  {
    var t := RemoveFence(RemoveFence(s, JsonFence), Fence);
    NoFenceLeft(RemoveFence(s, JsonFence));
    var a := LeadingSpaces(t);
    if Contains(StripFences(s), Fence) {
      SliceContained(t, a, a + |StripFences(s)|, Fence);
    }
  }

  /** A JSON body fenced as a Markdown code block comes out as the body, trimmed. */
  lemma FencedBlock(body: string)
    requires '`' !in body
    ensures StripFences(JsonFence + "\n" + body + "\n" + Fence) == Trim(body)
  {
    var s := JsonFence + "\n" + body + "\n" + Fence;
    assert s[..7] == JsonFence;
    assert s[7..][0] == '\n';
    assert s[7..][1..] == body + ("\n" + Fence);
    FencePrefix(body, "\n" + Fence, JsonFence);
    assert RemoveFence("\n" + Fence, JsonFence) == "\n" + Fence;
    FencePrefix(body + "\n", Fence, Fence);
    assert body + ("\n" + Fence) == (body + "\n") + Fence;
    assert RemoveFence(Fence, Fence) == "";
    assert (body + "\n") + "" == body + "\n";
    TrimDropsTrailingSpace(body, "\n");
  }
}
