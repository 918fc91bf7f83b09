/**
 * The JavaScript string operations the core relies on, on `seq<char>`:
 * white space as `String.prototype.trim` and the regular-expression class `\s`
 * see it, ASCII lower-casing, `\b` word boundaries, substring search,
 * first-occurrence replacement and `Array.prototype.join`.
 */
module Text {
  import opened Wrappers

  /** The ECMAScript WhiteSpace and LineTerminator code points: what `trim` removes and `\s` matches. */
  predicate IsSpace(c: char)
  {
    c == '\t' || c == '\n' || c == '\U{000B}' || c == '\U{000C}' || c == '\r' || c == ' '
    || c == '\U{00A0}' || c == '\U{1680}' || ('\U{2000}' <= c <= '\U{200A}')
    || c == '\U{2028}' || c == '\U{2029}' || c == '\U{202F}' || c == '\U{205F}'
    || c == '\U{3000}' || c == '\U{FEFF}'
  }

  /** The characters of the regular-expression class `\w`. */
  predicate IsWordChar(c: char)
  {
    ('a' <= c <= 'z') || ('A' <= c <= 'Z') || ('0' <= c <= '9') || c == '_'
  }

  /** The characters of the regular-expression class `\d`. */
  predicate IsDigit(c: char)
  {
    '0' <= c <= '9'
  }

  function DigitValue(c: char): (n: int)
    requires IsDigit(c)
    ensures 0 <= n <= 9
  {
    c as int - '0' as int
  }

  /** The decimal digit of a number in 0..9, as `${n}` renders it. */
  function DigitChar(n: int): (c: char)
    requires 0 <= n <= 9
    ensures IsDigit(c) && DigitValue(c) == n
  {
    ('0' as int + n) as char
  }

  function LowerChar(c: char): char
  {
    if 'A' <= c <= 'Z' then (c as int + 32) as char else c
  }

  /** `toLowerCase`, restricted to ASCII letters. */
  function Lower(s: string): (r: string)
    ensures |r| == |s|
    ensures forall i :: 0 <= i < |s| ==> r[i] == LowerChar(s[i])
  {
    seq(|s|, i requires 0 <= i < |s| => LowerChar(s[i]))
  }

  // ---------------------------------------------------------------- substrings

  /** `p` occurs in `s` starting at index `i`. */
  predicate OccursAt(s: string, p: string, i: nat)
  {
    i + |p| <= |s| && s[i..i + |p|] == p
  }

  /** `s.includes(p)`. */
  predicate Contains(s: string, p: string)
  {
    exists i: nat | i <= |s| :: OccursAt(s, p, i)
  }

  lemma ContainsAt(s: string, p: string, i: nat)
    requires OccursAt(s, p, i)
    ensures Contains(s, p)
  {
  }

  /** The middle of a three-part concatenation is a substring of it. */
  lemma ContainsMiddle(a: string, b: string, c: string)
    ensures OccursAt(a + b + c, b, |a|) && Contains(a + b + c, b)
  {
    assert (a + b + c)[|a|..|a| + |b|] == b;
    assert OccursAt(a + b + c, b, |a|);
  }

  /** Every character of a substring is a character of the string: the cheapest way to refute `Contains`. */
  lemma ContainedChars(s: string, p: string, c: char)
    requires c in p
    ensures Contains(s, p) ==> c in s
  {
    if Contains(s, p) {
      var i: nat :| i <= |s| && OccursAt(s, p, i);
      var j :| 0 <= j < |p| && p[j] == c;
      assert s[i..i + |p|][j] == c;
      assert s[i + j] == c;
    }
  }

  /** A substring of `a` or of `b` is a substring of `a + b`. */
  lemma ContainsInConcat(a: string, b: string, p: string)
    ensures Contains(a, p) ==> Contains(a + b, p)
    ensures Contains(b, p) ==> Contains(a + b, p)
  {
    if Contains(a, p) {
      var i: nat :| i <= |a| && OccursAt(a, p, i);
      assert (a + b)[i..i + |p|] == a[i..i + |p|];
      assert OccursAt(a + b, p, i);
    }
    if Contains(b, p) {
      var i: nat :| i <= |b| && OccursAt(b, p, i);
      assert (a + b)[|a| + i..|a| + i + |p|] == b[i..i + |p|];
      assert OccursAt(a + b, p, |a| + i);
    }
  }

  /** Containment is transitive. */
  lemma ContainsTransitive(s: string, q: string, p: string)
    requires Contains(s, q) && Contains(q, p)
    ensures Contains(s, p)
  {
    var i: nat :| i <= |s| && OccursAt(s, q, i);
    var j: nat :| j <= |q| && OccursAt(q, p, j);
    forall k | 0 <= k < |p| ensures s[i + j + k] == p[k] {
      assert q[j + k] == s[i..i + |q|][j + k];
      assert p[k] == q[j..j + |p|][k];
    }
    assert s[i + j..i + j + |p|] == p;
    assert OccursAt(s, p, i + j);
  }

  /**
   * No occurrence of `p` straddles the end of `a` when the last character of `a` is not in `p`:
   * an occurrence in `a + b` lies wholly in `a` or wholly in `b`.
   */
  lemma NoStraddle(a: string, b: string, p: string)
    requires |a| > 0 && a[|a| - 1] !in p
    ensures Contains(a + b, p) ==> Contains(a, p) || Contains(b, p)
  {
    if Contains(a + b, p) {
      var i: nat :| i <= |a + b| && OccursAt(a + b, p, i);
      if i + |p| <= |a| {
        assert a[i..i + |p|] == (a + b)[i..i + |p|];
        assert OccursAt(a, p, i);
      } else {
        assert forall j :: i <= j < i + |p| ==> (a + b)[j] == p[j - i];
        assert (a + b)[|a| - 1] == a[|a| - 1];
        assert i >= |a|;
        assert b[i - |a|..i - |a| + |p|] == (a + b)[i..i + |p|];
        assert OccursAt(b, p, i - |a|);
      }
    }
  }

  /** `s.indexOf(p)`, as an option: the first index at which `p` occurs. */
  function IndexOf(s: string, p: string): (r: Option<nat>)
    ensures r.Some? ==> OccursAt(s, p, r.value) && forall j: nat :: j < r.value ==> !OccursAt(s, p, j)
    ensures r.None? <==> !Contains(s, p)
  {
    IndexFrom(s, p, 0)
  }

  function IndexFrom(s: string, p: string, k: nat): (r: Option<nat>)
    ensures r.Some? ==> k <= r.value && OccursAt(s, p, r.value)
    ensures r.Some? ==> forall j: nat :: k <= j < r.value ==> !OccursAt(s, p, j)
    ensures r.None? ==> forall j: nat :: k <= j ==> !OccursAt(s, p, j)
    decreases |s| - k
  {
    if k + |p| > |s| then None
    else if s[k..k + |p|] == p then Some(k)
    else IndexFrom(s, p, k + 1)
  }

  /** `s.replace(p, rep)` with a string pattern: only the first occurrence is replaced. */
  function ReplaceFirst(s: string, p: string, rep: string): (r: string)
    ensures !Contains(s, p) ==> r == s
    ensures Contains(s, p) ==> |r| == |s| - |p| + |rep|
    ensures Contains(s, p) ==>
      exists i: nat :: OccursAt(s, p, i) && (forall j: nat :: j < i ==> !OccursAt(s, p, j)) && r == s[..i] + rep + s[i + |p|..]
  {
    match IndexOf(s, p)
    case None => s
    case Some(i) => s[..i] + rep + s[i + |p|..]
  }

  /** When the first character of `p` is not in `a`, the first occurrence of `p` in `a + p + b` is the one after `a`. */
  lemma ReplaceFirstAfter(a: string, p: string, b: string, rep: string)
    requires p != [] && p[0] !in a
    ensures ReplaceFirst(a + p + b, p, rep) == a + rep + b
  {
    var s := a + p + b;
    ContainsMiddle(a, p, b);
    forall j: nat | j < |a| ensures !OccursAt(s, p, j) {
      assert s[j] == a[j];
    }
    assert IndexOf(s, p) == Some(|a|);
    assert s[..|a|] == a && s[|a| + |p|..] == b;
  }

  /** No proper suffix of `p` is also a prefix of it, so two occurrences of `p` never overlap. */
  predicate Unbordered(p: string)
  {
    forall k :: 0 < k < |p| ==> p[k..] != p[..|p| - k]
  }

  /**
   * When `a` does not contain an unbordered `p`, the first occurrence of `p` in `a + p + b` is
   * the one after `a`: none lies inside `a`, and none can start in `a` and run into `p`.
   */
  lemma ReplaceFirstOfFirst(a: string, p: string, b: string, rep: string)
    requires p != [] && Unbordered(p) && !Contains(a, p)
    ensures ReplaceFirst(a + p + b, p, rep) == a + rep + b
  {
    var s := a + p + b;
    ContainsMiddle(a, p, b);
    forall j: nat | j < |a| ensures !OccursAt(s, p, j) {
      if j + |p| <= |a| {
        NotInside(a, p, b, j);
      } else {
        NotAcross(a, p, b, j);
      }
    }
    assert IndexOf(s, p) == Some(|a|);
    assert s[..|a|] == a && s[|a| + |p|..] == b;
  }

  lemma NotInside(a: string, p: string, b: string, j: nat)
    requires !Contains(a, p) && j + |p| <= |a|
    ensures !OccursAt(a + p + b, p, j)
  {
    assert (a + p + b)[j..j + |p|] == a[j..j + |p|];
    assert !OccursAt(a, p, j);
  }

  lemma NotAcross(a: string, p: string, b: string, j: nat)
    requires Unbordered(p) && j < |a| < j + |p|
    ensures !OccursAt(a + p + b, p, j)
  {
    var s := a + p + b;
    var k := |a| - j;
    assert p[k..] != p[..|p| - k];
    assert s[|a|..|a| + |p| - k] == p[..|p| - k];
    assert s[j..j + |p|][k..] == s[|a|..|a| + |p| - k];
  }

  /** An occurrence inside a slice is an occurrence in the slice, shifted by its start. */
  lemma SliceOccurs(s: string, a: nat, e: nat, p: string, o: nat)
    requires a <= o && o + |p| <= e <= |s| && OccursAt(s, p, o)
    ensures OccursAt(s[a..e], p, o - a)
  {
    forall k | 0 <= k < |p| ensures s[a..e][o - a + k] == p[k] {
      assert p[k] == s[o..o + |p|][k];
    }
    assert s[a..e][o - a..o - a + |p|] == p;
  }

  // ---------------------------------------------------------------- trim

  /** The number of white-space characters `trimStart` removes. */
  function LeadingSpaces(s: string): (n: nat)
    ensures n <= |s|
    ensures forall i :: 0 <= i < n ==> IsSpace(s[i])
    ensures n < |s| ==> !IsSpace(s[n])
  {
    if s == [] || !IsSpace(s[0]) then 0 else 1 + LeadingSpaces(s[1..])
  }

  /** The number of white-space characters `trimEnd` removes. */
  function TrailingSpaces(s: string): (n: nat)
    ensures n <= |s|
    ensures forall i :: |s| - n <= i < |s| ==> IsSpace(s[i])
    ensures n < |s| ==> !IsSpace(s[|s| - 1 - n])
  {
    if s == [] || !IsSpace(s[|s| - 1]) then 0 else 1 + TrailingSpaces(s[..|s| - 1])
  }

  /**
   * `s.trim()`: the slice of `s` left after removing white space at both ends.
   * The contract pins it down: a slice, white space around it, no white space at its ends.
   */
  function Trim(s: string): (r: string)
    ensures |r| <= |s| && LeadingSpaces(s) + |r| <= |s|
    ensures r == s[LeadingSpaces(s)..LeadingSpaces(s) + |r|]
    ensures forall i :: 0 <= i < LeadingSpaces(s) ==> IsSpace(s[i])
    ensures forall i :: LeadingSpaces(s) + |r| <= i < |s| ==> IsSpace(s[i])
    ensures r != [] ==> !IsSpace(r[0]) && !IsSpace(r[|r| - 1])
  {
    var a := LeadingSpaces(s);
    var t := s[a..];
    var n := TrailingSpaces(t);
    assert a < |s| ==> !IsSpace(t[0]);
    t[..|t| - n]
  }

  /** White space on its own. */
  predicate AllSpace(s: string)
  {
    forall i :: 0 <= i < |s| ==> IsSpace(s[i])
  }

  /** No white space at either end. */
  predicate Trimmed(t: string)
  {
    t != [] ==> !IsSpace(t[0]) && !IsSpace(t[|t| - 1])
  }

  /**
   * Trim is determined by its contract: white space, then a text with no white space at its ends,
   * then white space, trims to that text.
   */
  lemma {:induction false} TrimOfPadded(w1: string, t: string, w2: string)
    requires AllSpace(w1) && AllSpace(w2) && Trimmed(t)
    ensures Trim(w1 + t + w2) == t
  {
    var s := w1 + t + w2;
    var r := Trim(s);
    var a := LeadingSpaces(s);
    if t == [] {
      assert forall i :: 0 <= i < |s| ==> IsSpace(s[i]) by {
        forall i | 0 <= i < |s| ensures IsSpace(s[i]) {
          if i < |w1| { assert s[i] == w1[i]; } else { assert s[i] == w2[i - |w1|]; }
        }
      }
    } else {
      assert s[|w1|] == t[0];
      assert forall i :: 0 <= i < |w1| ==> IsSpace(s[i]) by {
        forall i | 0 <= i < |w1| ensures IsSpace(s[i]) { assert s[i] == w1[i]; }
      }
      assert a == |w1|;
      assert s[|w1| + |t| - 1] == t[|t| - 1];
      assert forall i :: |w1| + |t| <= i < |s| ==> IsSpace(s[i]) by {
        forall i | |w1| + |t| <= i < |s| ensures IsSpace(s[i]) { assert s[i] == w2[i - |w1| - |t|]; }
      }
      // r is s[a..a + |r|]: its last character is not white space, and everything after t is.
      assert !IsSpace(s[|w1| + |t| - 1]);
      assert |r| >= |t|;
      assert r[|r| - 1] == s[|w1| + |r| - 1];
      assert |r| <= |t|;
      assert r == s[|w1|..|w1| + |t|];
    }
  }

  /** A text trims to nothing exactly when it is all white space. */
  lemma TrimEmpty(s: string)
    ensures Trim(s) == [] <==> AllSpace(s)
  {
    var a, r := LeadingSpaces(s), Trim(s);
    if r == [] {
      forall i | 0 <= i < |s| ensures IsSpace(s[i]) {
        if i >= a { assert a + |r| <= i; }
      }
    } else {
      assert s[a] == r[0];
    }
  }

  /** A text is its leading white space, its trimmed text and its trailing white space. */
  lemma TrimSplit(s: string)
    ensures var a := LeadingSpaces(s); var e := a + |Trim(s)|;
      s == s[..a] + Trim(s) + s[e..] && AllSpace(s[..a]) && AllSpace(s[e..])
  {
    var a, r := LeadingSpaces(s), Trim(s);
    var e := a + |r|;
    SplitThree(s, a, e);
    forall i | 0 <= i < |s[..a]| ensures IsSpace(s[..a][i]) { assert s[..a][i] == s[i]; }
    forall i | 0 <= i < |s[e..]| ensures IsSpace(s[e..][i]) { assert s[e..][i] == s[e + i]; }
  }

  lemma SplitThree(s: string, a: nat, e: nat)
    requires a <= e <= |s|
    ensures s == s[..a] + s[a..e] + s[e..]
  {
  }

  /** Trailing white space, such as a final newline, does not change the trimmed text. */
  lemma TrimDropsTrailingSpace(s: string, w: string)
    requires AllSpace(w)
    ensures Trim(s + w) == Trim(s)
  {
    var a := LeadingSpaces(s);
    var t := Trim(s);
    var w1, w2 := s[..a], s[a + |t|..];
    TrimSplit(s);
    AllSpaceAppend(w2, w);
    Regroup(s, w1, t, w2, w);
    TrimOfPadded(w1, t, w2 + w);
  }

  lemma Regroup(s: string, a: string, b: string, c: string, d: string)
    requires s == a + b + c
    ensures s + d == a + b + (c + d)
  {
  }

  lemma AllSpaceAppend(a: string, b: string)
    requires AllSpace(a) && AllSpace(b)
    ensures AllSpace(a + b)
  {
    forall i | 0 <= i < |a + b| ensures IsSpace((a + b)[i]) {
      if i < |a| { assert (a + b)[i] == a[i]; } else { assert (a + b)[i] == b[i - |a|]; }
    }
  }

  /** Trimming twice is trimming once. */
  lemma TrimIdempotent(s: string)
    ensures Trim(Trim(s)) == Trim(s)
  {
    var t := Trim(s);
    assert t == [] + t + [];
    TrimOfPadded([], t, []);
  }

  /** Leading white space stops at the first other character. */
  lemma {:induction false} LeadingSpacesBound(s: string, k: nat)
    requires k < |s| && !IsSpace(s[k])
    ensures LeadingSpaces(s) <= k
  {
    if k > 0 && IsSpace(s[0]) {
      assert s[1..][k - 1] == s[k];
      LeadingSpacesBound(s[1..], k - 1);
    }
  }

  /** Trailing white space stops at the last other character. */
  lemma {:induction false} TrailingSpacesBound(s: string, k: nat)
    requires k < |s| && !IsSpace(s[k])
    ensures TrailingSpaces(s) <= |s| - 1 - k
  {
    if k < |s| - 1 && IsSpace(s[|s| - 1]) {
      assert s[..|s| - 1][k] == s[k];
      TrailingSpacesBound(s[..|s| - 1], k);
    }
  }

  /**
   * A stretch that starts and ends with a character other than white space survives trimming
   * whole: the trimmed slice reaches from before its start to after its end.
   */
  lemma TrimWindow(s: string, lo: nat, hi: nat)
    requires lo < hi <= |s| && !IsSpace(s[lo]) && !IsSpace(s[hi - 1])
    ensures LeadingSpaces(s) <= lo && hi <= LeadingSpaces(s) + |Trim(s)|
  {
    var a := LeadingSpaces(s);
    var r := Trim(s);
    LeadingSpacesBound(s, lo);
    var t := s[a..];
    assert t[hi - 1 - a] == s[hi - 1];
    TrailingSpacesBound(t, hi - 1 - a);
    assert r == t[..|t| - TrailingSpaces(t)];
  }

  /** An occurrence inside the part trimming keeps is an occurrence in the trimmed text. */
  lemma TrimOccurs(s: string, p: string, o: nat)
    requires LeadingSpaces(s) <= o && o + |p| <= LeadingSpaces(s) + |Trim(s)| && OccursAt(s, p, o)
    ensures OccursAt(Trim(s), p, o - LeadingSpaces(s))
  {
    SliceOccursIn(s, Trim(s), LeadingSpaces(s), p, o);
  }

  /** The same, for a text known to be a slice. */
  lemma SliceOccursIn(s: string, r: string, a: nat, p: string, o: nat)
    requires a + |r| <= |s| && r == s[a..a + |r|]
    requires a <= o && o + |p| <= a + |r| && OccursAt(s, p, o)
    ensures OccursAt(r, p, o - a)
  {
    SliceOccurs(s, a, a + |r|, p, o);
  }

  /** A text that starts and ends with something other than white space is kept whole by trimming. */
  lemma TrimKeeps(s: string, m: string, o: nat)
    requires OccursAt(s, m, o) && m != [] && !IsSpace(m[0]) && !IsSpace(m[|m| - 1])
    ensures LeadingSpaces(s) <= o && OccursAt(Trim(s), m, o - LeadingSpaces(s))
  {
    assert s[o] == m[0] && s[o + |m| - 1] == m[|m| - 1];
    TrimWindow(s, o, o + |m|);
    TrimOccurs(s, m, o);
  }

  /** An occurrence in the second of two texts, in their concatenation. */
  lemma OccursAfter(a: string, b: string, x: string, o: nat)
    requires OccursAt(b, x, o)
    ensures OccursAt(a + b, x, |a| + o)
  {
    assert (a + b)[|a| + o..|a| + o + |x|] == b[o..o + |x|];
  }

  /** An occurrence inside an occurrence: offsets add up. */
  lemma OccursCompose(t: string, m: string, x: string, o1: nat, o2: nat)
    requires OccursAt(t, m, o1) && OccursAt(m, x, o2)
    ensures OccursAt(t, x, o1 + o2)
  {
    forall k | 0 <= k < |x| ensures t[o1 + o2 + k] == x[k] {
      assert x[k] == m[o2..o2 + |x|][k] == m[o2 + k];
      assert m[o2 + k] == t[o1..o1 + |m|][o2 + k];
    }
  }

  // ---------------------------------------------------------------- length

  /** A character beyond the Basic Multilingual Plane, which UTF-16 writes as a surrogate pair. */
  predicate IsAstral(c: char)
  {
    c as int > 0xFFFF
  }

  /** `s.length`: the number of UTF-16 code units, two for an astral character and one for any other. */
  function Utf16Length(s: string): (n: nat)
    ensures |s| <= n <= 2 * |s|
  {
    if s == [] then 0 else (if IsAstral(s[0]) then 2 else 1) + Utf16Length(s[1..])
  }

  /** Without astral characters, code units and characters agree. */
  lemma {:induction false} Utf16LengthOfBmp(s: string)
    requires forall i :: 0 <= i < |s| ==> !IsAstral(s[i])
    ensures Utf16Length(s) == |s|
  {
    if s != [] {
      assert !IsAstral(s[0]);
      Utf16LengthOfBmp(s[1..]);
    }
  }

  /** A text made of astral characters only is twice as long in code units as in characters. */
  lemma {:induction false} Utf16LengthOfAstral(s: string)
    requires forall i :: 0 <= i < |s| ==> IsAstral(s[i])
    ensures Utf16Length(s) == 2 * |s|
  {
    if s != [] {
      assert IsAstral(s[0]);
      Utf16LengthOfAstral(s[1..]);
    }
  }

  // ---------------------------------------------------------------- join

  /** `parts.join(sep)`. */
  function Join(parts: seq<string>, sep: string): string
  {
    if |parts| == 0 then ""
    else if |parts| == 1 then parts[0]
    else parts[0] + sep + Join(parts[1..], sep)
  }

  /** A character found in neither the separator nor any part is not in the joined text. */
  lemma {:induction false} JoinAvoids(parts: seq<string>, sep: string, c: char)
    requires c !in sep
    requires forall i :: 0 <= i < |parts| ==> c !in parts[i]
    ensures c !in Join(parts, sep)
  {
    if |parts| > 1 {
      JoinAvoids(parts[1..], sep, c);
    }
  }

  /** Joining one more part appends the separator and the part. */
  lemma {:induction false} JoinSnoc(parts: seq<string>, x: string, sep: string)
    ensures Join(parts + [x], sep) == if parts == [] then x else Join(parts, sep) + sep + x
  {
    if |parts| > 1 {
      assert (parts + [x])[1..] == parts[1..] + [x];
      JoinSnoc(parts[1..], x, sep);
    } else if |parts| == 1 {
      assert (parts + [x])[1..] == [x];
    }
  }

  /** Every part is a substring of the joined text. */
  lemma {:induction false} JoinContainsPart(parts: seq<string>, sep: string, i: nat)
    requires i < |parts|
    ensures Contains(Join(parts, sep), parts[i])
  {
    if |parts| == 1 {
      assert OccursAt(parts[0], parts[0], 0);
    } else {
      assert Join(parts, sep) == (parts[0] + sep) + Join(parts[1..], sep);
      if i == 0 {
        assert OccursAt(parts[0] + sep, parts[0], 0);
        ContainsInConcat(parts[0] + sep, Join(parts[1..], sep), parts[0]);
      } else {
        JoinContainsPart(parts[1..], sep, i - 1);
        ContainsInConcat(parts[0] + sep, Join(parts[1..], sep), parts[i]);
      }
    }
  }

  /** Lower-casing keeps substrings: the lower-cased text contains the lower-cased pattern. */
  lemma LowerKeepsContains(s: string, p: string)
    requires Contains(s, p)
    ensures Contains(Lower(s), Lower(p))
  {
    var i: nat :| i <= |s| && OccursAt(s, p, i);
    forall k | 0 <= k < |p| ensures Lower(s)[i + k] == Lower(p)[k] {
      assert s[i + k] == s[i..i + |p|][k];
    }
    assert Lower(s)[i..i + |p|] == Lower(p);
    assert OccursAt(Lower(s), Lower(p), i);
  }

  // ---------------------------------------------------------------- lines

  /** The text made of the given lines, each followed by a newline. */
  function Lines(lines: seq<string>): string
  {
    if lines == [] then "" else lines[0] + "\n" + Lines(lines[1..])
  }

  lemma {:induction false} LinesAppend(a: seq<string>, b: seq<string>)
    ensures Lines(a + b) == Lines(a) + Lines(b)
  {
    if a == [] {
      assert a + b == b;
    } else {
      assert (a + b)[0] == a[0];
      assert (a + b)[1..] == a[1..] + b;
      LinesAppend(a[1..], b);
    }
  }

  /** The text of consecutive lines is a substring of the whole text. */
  lemma LinesSegment(a: seq<string>, b: seq<string>, c: seq<string>)
    ensures Contains(Lines(a + b + c), Lines(b))
  {
    LinesAppend(a + b, c);
    LinesAppend(a, b);
    ContainsMiddle(Lines(a), Lines(b), Lines(c));
  }

  /** A line of the text is a substring of it. */
  lemma {:induction false} LineInLines(lines: seq<string>, line: string, tail: string)
    requires line in lines
    ensures Contains(Lines(lines) + tail, line)
  {
    assert Lines(lines) + tail == lines[0] + ("\n" + Lines(lines[1..]) + tail);
    if lines[0] == line {
      assert OccursAt(Lines(lines) + tail, line, 0);
    } else {
      LineInLines(lines[1..], line, tail);
      ContainsInConcat(lines[0] + "\n", Lines(lines[1..]) + tail, line);
      assert Lines(lines) + tail == (lines[0] + "\n") + (Lines(lines[1..]) + tail);
    }
  }

  /** A pattern without the character `c` that occurs in `a + [c]` occurs in `a`. */
  lemma DropLastChar(a: string, c: char, p: string)
    requires c !in p && Contains(a + [c], p)
    ensures Contains(a, p)
  {
    var i: nat :| i <= |a + [c]| && OccursAt(a + [c], p, i);
    if |p| == 0 {
      assert OccursAt(a, p, 0);
    } else {
      assert (a + [c])[i..i + |p|][|p| - 1] == p[|p| - 1];
      assert p[|p| - 1] in p;
      assert (a + [c])[|a|] == c;
      assert i + |p| <= |a|;
      assert a[i..i + |p|] == (a + [c])[i..i + |p|];
      assert OccursAt(a, p, i);
    }
  }

  /** A pattern without a newline that occurs in the lines followed by a tail occurs within one line or within the tail. */
  lemma {:induction false} ContainsInLines(lines: seq<string>, tail: string, p: string)
    requires '\n' !in p
    requires Contains(Lines(lines) + tail, p)
    ensures Contains(tail, p) || exists line :: line in lines && Contains(line, p)
  {
    if lines == [] {
      assert Lines(lines) + tail == tail;
    } else {
      var head := lines[0] + "\n";
      assert Lines(lines) + tail == head + (Lines(lines[1..]) + tail);
      assert head[|head| - 1] == '\n';
      NoStraddle(head, Lines(lines[1..]) + tail, p);
      if Contains(head, p) {
        DropLastChar(lines[0], '\n', p);
        assert lines[0] in lines;
      } else {
        ContainsInLines(lines[1..], tail, p);
        if !Contains(tail, p) {
          var line :| line in lines[1..] && Contains(line, p);
          assert line in lines;
        }
      }
    }
  }

  /** A pattern without a newline found in no line and not in the tail is not in the text. */
  lemma AbsentFromLines(lines: seq<string>, tail: string, p: string)
    requires '\n' !in p
    requires forall line | line in lines :: !Contains(line, p)
    requires !Contains(tail, p)
    ensures !Contains(Lines(lines) + tail, p)
  {
    if Contains(Lines(lines) + tail, p) {
      ContainsInLines(lines, tail, p);
    }
  }
}
