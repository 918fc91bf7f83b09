/**
 * The download side of the CV viewer (src/components/CVViewer.tsx, `handleDownload`): the
 * plain-text rendering of a CV record and the name of the file it is saved under.
 */
module CvViewer {
  import opened Wrappers
  import opened Text
  import opened CvRecord

  /** `value || ''`: an absent optional field is rendered as nothing. */
  function OrEmpty(v: Option<string>): (r: string)
    ensures v.None? ==> r == ""
    ensures v.Some? ==> r == v.value
  {
    if v.Some? then v.value else ""
  }

  /** Line 32: `${degree} - ${institution} (${year})`. */
  function EducationLine(e: Education): string
  {
    e.degree + " - " + e.institution + " (" + e.year + ")"
  }

  /** Line 35: `${title} at ${company} (${period})`, a newline, the description. */
  function ExperienceBlock(e: Experience): string
  {
    e.title + " at " + e.company + " (" + e.period + ")\n" + e.description
  }

  function EducationLines(es: seq<Education>): seq<string>
  {
    seq(|es|, i requires 0 <= i < |es| => EducationLine(es[i]))
  }

  function ExperienceBlocks(es: seq<Experience>): seq<string>
  {
    seq(|es|, i requires 0 <= i < |es| => ExperienceBlock(es[i]))
  }

  /** The texts of a template literal, its literal pieces and its substitutions, one after the other. */
  function Concat(parts: seq<string>): string
  {
    if parts == [] then "" else parts[0] + Concat(parts[1..])
  }

  /** Where part `j` starts in the concatenated text: the lengths of the parts before it. */
  function Offset(parts: seq<string>, j: nat): nat
    requires j <= |parts|
  {
    if j == 0 then 0 else Offset(parts, j - 1) + |parts[j - 1]|
  }

  lemma {:induction false} ConcatAppend(a: seq<string>, b: seq<string>)
    ensures Concat(a + b) == Concat(a) + Concat(b)
  {
    if a == [] {
      assert a + b == b;
    } else {
      assert (a + b)[1..] == a[1..] + b;
      ConcatAppend(a[1..], b);
    }
  }

  /** Offsets past the first part are offsets in the rest, shifted by its length. */
  lemma {:induction false} OffsetTail(parts: seq<string>, j: nat)
    requires 0 < j <= |parts|
    ensures Offset(parts, j) == |parts[0]| + Offset(parts[1..], j - 1)
  {
    if j > 1 {
      OffsetTail(parts, j - 1);
      assert parts[1..][j - 2] == parts[j - 1];
    }
  }

  /** Each part stands at its offset in the concatenation. */
  lemma {:induction false} PartAt(parts: seq<string>, j: nat)
    requires j < |parts|
    ensures OccursAt(Concat(parts), parts[j], Offset(parts, j))
  {
    if j == 0 {
      assert Concat(parts)[..|parts[0]|] == parts[0];
    } else {
      var rest := parts[1..];
      PartAt(rest, j - 1);
      OffsetTail(parts, j);
      assert rest[j - 1] == parts[j];
      OccursAfter(parts[0], Concat(rest), parts[j], Offset(rest, j - 1));
    }
  }

  /** Offsets grow with the index. */
  lemma {:induction false} OffsetGrows(parts: seq<string>, i: nat, j: nat)
    requires i <= j <= |parts|
    ensures Offset(parts, i) <= Offset(parts, j)
    decreases j - i
  {
    if i < j {
      OffsetGrows(parts, i, j - 1);
    }
  }

  /** The texts substituted into the template, one per field. */
  datatype Rendered = Rendered(
    name: string, email: string, phone: string, location: string, summary: string,
    education: string, experience: string, skills: string)

  function Render(cv: Cv): Rendered
  {
    Rendered(cv.name, cv.email, OrEmpty(cv.phone), OrEmpty(cv.location), cv.summary,
             EducationText(cv.education), ExperienceText(cv.experience), SkillsText(cv.skills))
  }

  /**
   * Lines 24-38: the template literal before `.trim()`, part by part: its opening lines, the
   * stretch from the bar opening the phone field to the SKILLS header, and its closing lines,
   * the last of which is four spaces.
   */
  function Parts(r: Rendered): (p: seq<string>)
    ensures |p| == 26
  {
    Opening(r) + Kept(r) + Closing(r)
  }

  function Opening(r: Rendered): (p: seq<string>)
    ensures |p| == 5
  {
    ["\n", r.name, "\n", r.email, " "]
  }

  function Kept(r: Rendered): (p: seq<string>)
    ensures |p| == 18
  {
    ["| ", r.phone, " | ", r.location, "\n\n",
     "PROFESSIONAL SUMMARY", "\n", r.summary, "\n\n",
     "EDUCATION", "\n", r.education, "\n\n",
     "EXPERIENCE", "\n", r.experience, "\n\n",
     "SKILLS"]
  }

  function Closing(r: Rendered): (p: seq<string>)
    ensures |p| == 3
  {
    ["\n", r.skills, "\n    "]
  }

  /** Line 32: the education entries, one per line. */
  function EducationText(es: seq<Education>): string
  {
    Join(EducationLines(es), "\n")
  }

  /** Line 35: the experience entries, a blank line between two. */
  function ExperienceText(es: seq<Experience>): string
  {
    Join(ExperienceBlocks(es), "\n\n")
  }

  /** Line 38. */
  function SkillsText(skills: seq<string>): string
  {
    Join(skills, ", ")
  }

  /** Line 39: the downloaded text. */
  function CvText(cv: Cv): (text: string)
    ensures Trimmed(text)
  {
    Trim(Concat(Parts(Render(cv))))
  }

  // ---------------------------------------------------------------- layout

  /**
   * Trimming never reaches past the bar nor the SKILLS header: the whole stretch between
   * them is in the text.
   */
  lemma KeptInText(r: Rendered) returns (o: nat)
    ensures OccursAt(Trim(Concat(Parts(r))), Concat(Kept(r)), o)
  {
    ConcatParts(r);
    KeptEnds(r);
    o := KeptInPadded(Concat(Opening(r)), Concat(Kept(r)), Concat(Closing(r)));
  }

  /** A text with no white space at its ends, between any two texts, survives trimming whole. */
  lemma KeptInPadded(a: string, m: string, c: string) returns (o: nat)
    requires m != [] && !IsSpace(m[0]) && !IsSpace(m[|m| - 1])
    ensures OccursAt(Trim(a + m + c), m, o)
  {
    ContainsMiddle(a, m, c);
    TrimKeeps(a + m + c, m, |a|);
    o := |a| - LeadingSpaces(a + m + c);
  }

  lemma ConcatParts(r: Rendered)
    ensures Concat(Parts(r)) == Concat(Opening(r)) + Concat(Kept(r)) + Concat(Closing(r))
  {
    ConcatAppend(Opening(r) + Kept(r), Closing(r));
    ConcatAppend(Opening(r), Kept(r));
  }

  /** The kept stretch starts with the bar and ends with the SKILLS header. */
  lemma KeptEnds(r: Rendered)
    ensures var m := Concat(Kept(r)); m != [] && m[0] == '|' && m[|m| - 1] == 'S'
  {
    var q := Kept(r);
    assert q[0] == "| " && q[17] == "SKILLS";
    ConcatFirst(q);
    ConcatLast(q);
  }

  /** A header, a newline and the section's text, from offset `i` on. */
  predicate SectionAt(t: string, header: string, body: string, i: nat)
  {
    OccursAt(t, header, i) && OccursAt(t, "\n", i + |header|) && OccursAt(t, body, i + |header| + 1)
  }

  /** A section inside a text that itself stands at offset `o`. */
  lemma SectionMoves(t: string, m: string, o: nat, header: string, body: string, i: nat)
    requires OccursAt(t, m, o) && SectionAt(m, header, body, i)
    ensures SectionAt(t, header, body, o + i)
  {
    OccursCompose(t, m, header, o, i);
    OccursCompose(t, m, "\n", o, i + |header|);
    OccursCompose(t, m, body, o, i + |header| + 1);
  }

  /** Three consecutive parts, the middle one a newline, form a section. */
  lemma SectionOfParts(q: seq<string>, h: nat)
    requires h + 2 < |q| && q[h + 1] == "\n"
    ensures SectionAt(Concat(q), q[h], q[h + 2], Offset(q, h))
  {
    PartAt(q, h);
    PartAt(q, h + 1);
    PartAt(q, h + 2);
  }

  /** The kept stretch holds the three sections and then the SKILLS header. */
  lemma SectionsInKept(r: Rendered) returns (i1: nat, i2: nat, i3: nat, i4: nat)
    ensures i1 < i2 < i3 < i4
    ensures SectionAt(Concat(Kept(r)), "PROFESSIONAL SUMMARY", r.summary, i1)
    ensures SectionAt(Concat(Kept(r)), "EDUCATION", r.education, i2)
    ensures SectionAt(Concat(Kept(r)), "EXPERIENCE", r.experience, i3)
    ensures OccursAt(Concat(Kept(r)), "SKILLS", i4)
  {
    var q := Kept(r);
    SectionOfParts(q, 5);
    SectionOfParts(q, 9);
    SectionOfParts(q, 13);
    PartAt(q, 17);
    OffsetGrows(q, 6, 9);
    OffsetGrows(q, 10, 13);
    OffsetGrows(q, 14, 17);
    i1, i2, i3, i4 := Offset(q, 5), Offset(q, 9), Offset(q, 13), Offset(q, 17);
  }

  /**
   * The sections come in the fixed order PROFESSIONAL SUMMARY, EDUCATION, EXPERIENCE, SKILLS,
   * each of the first three headers followed by a newline and its text.
   */
  lemma SectionsInOrder(cv: Cv)
    ensures exists i1: nat, i2: nat, i3: nat, i4: nat :: (i1 < i2 < i3 < i4
      && SectionAt(CvText(cv), "PROFESSIONAL SUMMARY", cv.summary, i1)
      && SectionAt(CvText(cv), "EDUCATION", EducationText(cv.education), i2)
      && SectionAt(CvText(cv), "EXPERIENCE", ExperienceText(cv.experience), i3)
      && OccursAt(CvText(cv), "SKILLS", i4))
  {
    var r := Render(cv);
    var t, m := CvText(cv), Concat(Kept(r));
    var o := KeptInText(r);
    var i1, i2, i3, i4 := SectionsInKept(r);
    SectionMoves(t, m, o, "PROFESSIONAL SUMMARY", cv.summary, i1);
    SectionMoves(t, m, o, "EDUCATION", EducationText(cv.education), i2);
    SectionMoves(t, m, o, "EXPERIENCE", ExperienceText(cv.experience), i3);
    OccursCompose(t, m, "SKILLS", o, i4);
  }

  /** The text holds the rendered education and experience sections. */
  lemma SectionTexts(r: Rendered)
    ensures Contains(Trim(Concat(Parts(r))), r.education)
    ensures Contains(Trim(Concat(Parts(r))), r.experience)
  {
    var o := KeptInText(r);
    var i1, i2, i3, i4 := SectionsInKept(r);
    SectionShown(Trim(Concat(Parts(r))), Concat(Kept(r)), o, "EDUCATION", r.education, i2);
    SectionShown(Trim(Concat(Parts(r))), Concat(Kept(r)), o, "EXPERIENCE", r.experience, i3);
  }

  /** The text of a section inside a stretch of `t` is in `t`. */
  lemma SectionShown(t: string, m: string, o: nat, header: string, body: string, i: nat)
    requires OccursAt(t, m, o) && SectionAt(m, header, body, i)
    ensures Contains(t, body)
  {
    SectionMoves(t, m, o, header, body, i);
    ContainsAt(t, body, o + i + |header| + 1);
  }

  /** Every education entry appears, rendered as "degree - institution (year)". */
  lemma EducationShown(cv: Cv, i: nat)
    requires i < |cv.education|
    ensures Contains(CvText(cv), EducationLine(cv.education[i]))
  {
    JoinContainsPart(EducationLines(cv.education), "\n", i);
    SectionTexts(Render(cv));
    ContainsTransitive(CvText(cv), EducationText(cv.education), EducationLine(cv.education[i]));
  }

  /** Every experience entry appears, rendered as "title at company (period)", a newline, the description. */
  lemma ExperienceShown(cv: Cv, i: nat)
    requires i < |cv.experience|
    ensures Contains(CvText(cv), ExperienceBlock(cv.experience[i]))
  {
    JoinContainsPart(ExperienceBlocks(cv.experience), "\n\n", i);
    SectionTexts(Render(cv));
    ContainsTransitive(CvText(cv), ExperienceText(cv.experience), ExperienceBlock(cv.experience[i]));
  }

  /** The first character of a concatenation whose first part is not empty. */
  lemma ConcatFirst(parts: seq<string>)
    requires parts != [] && parts[0] != []
    ensures Concat(parts) != [] && Concat(parts)[0] == parts[0][0]
  {
  }

  /** The last character of a concatenation whose last part is not empty. */
  lemma ConcatLast(parts: seq<string>)
    requires parts != [] && parts[|parts| - 1] != []
    ensures Concat(parts) != [] && Concat(parts)[|Concat(parts)| - 1] == parts[|parts| - 1][|parts[|parts| - 1]| - 1]
  {
    var n := |parts|;
    assert parts == parts[..n - 1] + [parts[n - 1]];
    ConcatAppend(parts[..n - 1], [parts[n - 1]]);
    assert Concat([parts[n - 1]]) == parts[n - 1];
  }

  /**
   * When the name starts and the skills line ends with something other than white space,
   * trimming removes exactly the template's first newline and its closing line: the text
   * opens with the name and the contact line and closes with the skills.
   */
  lemma WholeText(cv: Cv)
    requires cv.name != [] && !IsSpace(cv.name[0])
    requires SkillsText(cv.skills) != [] && !IsSpace(SkillsText(cv.skills)[|SkillsText(cv.skills)| - 1])
    ensures CvText(cv) == Concat(Parts(Render(cv))[1..25])
  {
    var p := Parts(Render(cv));
    var mid := p[1..25];
    assert p[1] == cv.name && p[24] == SkillsText(cv.skills);
    assert mid[0] == p[1] && mid[23] == p[24];
    assert p == [p[0]] + mid + [p[25]];
    ConcatAppend([p[0]] + mid, [p[25]]);
    ConcatAppend([p[0]], mid);
    assert Concat([p[0]]) == "\n" && Concat([p[25]]) == "\n    ";
    ConcatFirst(mid);
    ConcatLast(mid);
    assert AllSpace("\n    ") by {
      forall i | 0 <= i < 5 ensures IsSpace("\n    "[i]) {
      }
    }
    TrimOfPadded("\n", Concat(mid), "\n    ");
  }

  // ---------------------------------------------------------------- the file name

  /** `name.replace(/\s+/g, '_')`: every maximal run of white space becomes one underscore. */
  function CollapseSpaces(s: string): (r: string)
    ensures |r| <= |s|
    ensures forall i :: 0 <= i < |r| ==> !IsSpace(r[i])
    decreases |s|
  {
    if s == [] then []
    else if IsSpace(s[0]) then
      var n := LeadingSpaces(s);
      assert n > 0;
      "_" + CollapseSpaces(s[n..])
    else [s[0]] + CollapseSpaces(s[1..])
  }

  /** Line 45: the name of the downloaded file. */
  function DownloadName(cv: Cv): string
  {
    CollapseSpaces(cv.name) + "_CV.txt"
  }

  /** White space on its own, before anything else, is exactly what leading white space is. */
  lemma {:induction false} LeadingOfRun(w: string, b: string)
    requires AllSpace(w) && (b == [] || !IsSpace(b[0]))
    ensures LeadingSpaces(w + b) == |w|
  {
    if w != [] {
      assert (w + b)[1..] == w[1..] + b;
      LeadingOfRun(w[1..], b);
    } else {
      assert w + b == b;
    }
  }

  /** A name without white space is kept as it is. */
  lemma {:induction false} KeepsPlainText(a: string, b: string)
    requires forall i :: 0 <= i < |a| ==> !IsSpace(a[i])
    ensures CollapseSpaces(a + b) == a + CollapseSpaces(b)
  {
    if a != [] {
      assert (a + b)[1..] == a[1..] + b;
      KeepsPlainText(a[1..], b);
      assert [a[0]] + (a[1..] + CollapseSpaces(b)) == a + CollapseSpaces(b);
    } else {
      assert a + b == b;
    }
  }

  /**
   * Each maximal run of white space becomes exactly one underscore: between a text without
   * white space and one that does not start with it, a run of any length gives one "_".
   */
  lemma OneUnderscorePerRun(a: string, w: string, b: string)
    requires forall i :: 0 <= i < |a| ==> !IsSpace(a[i])
    requires w != [] && AllSpace(w) && (b == [] || !IsSpace(b[0]))
    ensures CollapseSpaces(a + w + b) == a + "_" + CollapseSpaces(b)
  {
    assert a + w + b == a + (w + b);
    KeepsPlainText(a, w + b);
    LeadingOfRun(w, b);
    assert (w + b)[0] == w[0];
    assert (w + b)[|w|..] == b;
  }

  /** The file name has no white space in it and ends in "_CV.txt". */
  lemma NameHasNoSpace(cv: Cv)
    ensures forall i :: 0 <= i < |DownloadName(cv)| ==> !IsSpace(DownloadName(cv)[i])
    ensures |DownloadName(cv)| >= 7 && DownloadName(cv)[|DownloadName(cv)| - 7..] == "_CV.txt"
  {
    var c := CollapseSpaces(cv.name);
    forall i | 0 <= i < |DownloadName(cv)| ensures !IsSpace(DownloadName(cv)[i]) {
      if i >= |c| {
        assert DownloadName(cv)[i] == "_CV.txt"[i - |c|];
      }
    }
  }

  /** Collapsing is idempotent: the file name of a collapsed name is the same. */
  lemma CollapseIdempotent(s: string)
    ensures CollapseSpaces(CollapseSpaces(s)) == CollapseSpaces(s)
  {
    var r := CollapseSpaces(s);
    KeepsPlainText(r, []);
    assert r + [] == r;
  }
}
