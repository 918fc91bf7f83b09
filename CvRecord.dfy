/**
 * The CV record the CV handlers return and the CV viewer renders (the `cvData`
 * shape of src/components/CVViewer.tsx, lines 8-17), its JSON form, and the fixed
 * records the handlers fall back on.
 */
module CvRecord {
  import opened Wrappers
  import opened ModelOutput

  datatype Education = Education(degree: string, institution: string, year: string)

  datatype Experience = Experience(title: string, company: string, period: string, description: string)

  /** `phone` and `location` are optional fields. */
  datatype Cv = Cv(
    name: string, email: string, phone: Option<string>, location: Option<string>, summary: string,
    education: seq<Education>, experience: seq<Experience>, skills: seq<string>)

  // ---------------------------------------------------------------- to JSON

  function EducationJson(e: Education): Json
  {
    JObject([Field("degree", JString(e.degree)), Field("institution", JString(e.institution)), Field("year", JString(e.year))])
  }

  function ExperienceJson(e: Experience): Json
  {
    JObject([Field("title", JString(e.title)), Field("company", JString(e.company)),
             Field("period", JString(e.period)), Field("description", JString(e.description))])
  }

  function EducationItems(es: seq<Education>): seq<Json>
  {
    seq(|es|, i requires 0 <= i < |es| => EducationJson(es[i]))
  }

  function ExperienceItems(es: seq<Experience>): seq<Json>
  {
    seq(|es|, i requires 0 <= i < |es| => ExperienceJson(es[i]))
  }

  function SkillItems(ss: seq<string>): seq<Json>
  {
    seq(|ss|, i requires 0 <= i < |ss| => JString(ss[i]))
  }

  /** An optional field is written only when present. */
  function OptionalField(key: string, v: Option<string>): seq<Field>
  {
    if v.Some? then [Field(key, JString(v.value))] else []
  }

  /** The CV as the handlers send it, fields in the order of the handlers' object literals. */
  function CvJson(cv: Cv): Json
  {
    JObject(
      [Field("name", JString(cv.name)), Field("email", JString(cv.email))]
      + OptionalField("phone", cv.phone) + OptionalField("location", cv.location)
      + [Field("summary", JString(cv.summary)),
         Field("education", JArray(EducationItems(cv.education))),
         Field("experience", JArray(ExperienceItems(cv.experience))),
         Field("skills", JArray(SkillItems(cv.skills)))])
  }

  // ---------------------------------------------------------------- from JSON

  /** The value of the first field named `key`. */
  function Lookup(fields: seq<Field>, key: string): Option<Json>
  {
    if fields == [] then None
    else if fields[0].key == key then Some(fields[0].value)
    else Lookup(fields[1..], key)
  }

  function StringField(fields: seq<Field>, key: string): Option<string>
  {
    match Lookup(fields, key)
    case Some(JString(s)) => Some(s)
    case _ => None
  }

  function EducationOf(j: Json): Option<Education>
  {
    if !j.JObject? then None
    else
      var degree := StringField(j.fields, "degree");
      var institution := StringField(j.fields, "institution");
      var year := StringField(j.fields, "year");
      if degree.Some? && institution.Some? && year.Some? then Some(Education(degree.value, institution.value, year.value))
      else None
  }

  function ExperienceOf(j: Json): Option<Experience>
  {
    if !j.JObject? then None
    else
      var title := StringField(j.fields, "title");
      var company := StringField(j.fields, "company");
      var period := StringField(j.fields, "period");
      var description := StringField(j.fields, "description");
      if title.Some? && company.Some? && period.Some? && description.Some? then
        Some(Experience(title.value, company.value, period.value, description.value))
      else None
  }

  function EducationsOf(items: seq<Json>): Option<seq<Education>>
  {
    if items == [] then Some([])
    else
      var head := EducationOf(items[0]);
      var tail := EducationsOf(items[1..]);
      if head.Some? && tail.Some? then Some([head.value] + tail.value) else None
  }

  function ExperiencesOf(items: seq<Json>): Option<seq<Experience>>
  {
    if items == [] then Some([])
    else
      var head := ExperienceOf(items[0]);
      var tail := ExperiencesOf(items[1..]);
      if head.Some? && tail.Some? then Some([head.value] + tail.value) else None
  }

  function StringsOf(items: seq<Json>): Option<seq<string>>
  {
    if items == [] then Some([])
    else if items[0].JString? && StringsOf(items[1..]).Some? then Some([items[0].s] + StringsOf(items[1..]).value)
    else None
  }

  function ArrayField(fields: seq<Field>, key: string): Option<seq<Json>>
  {
    match Lookup(fields, key)
    case Some(JArray(items)) => Some(items)
    case _ => None
  }

  /** Reading a CV back from JSON, as the viewer's props type expects it; None when the shape does not fit. */
  function CvOf(j: Json): Option<Cv>
  {
    if !j.JObject? then None
    else
      var f := j.fields;
      var name := StringField(f, "name");
      var email := StringField(f, "email");
      var summary := StringField(f, "summary");
      var education := if ArrayField(f, "education").Some? then EducationsOf(ArrayField(f, "education").value) else None;
      var experience := if ArrayField(f, "experience").Some? then ExperiencesOf(ArrayField(f, "experience").value) else None;
      var skills := if ArrayField(f, "skills").Some? then StringsOf(ArrayField(f, "skills").value) else None;
      if name.Some? && email.Some? && summary.Some? && education.Some? && experience.Some? && skills.Some? then
        Some(Cv(name.value, email.value, StringField(f, "phone"), StringField(f, "location"), summary.value,
                education.value, experience.value, skills.value))
      else None
  }

  // ---------------------------------------------------------------- round trip

  /** Keys that differ in their first character are different keys. */
  lemma KeysDiffer(a: string, b: string)
    requires a != [] && b != [] && (|a| != |b| || a[0] != b[0])
    ensures a != b
  {
  }

  lemma EducationBack(e: Education)
    ensures EducationOf(EducationJson(e)) == Some(e)
  {
    var f := EducationJson(e).fields;
    KeysDiffer("degree", "institution");
    KeysDiffer("degree", "year");
    KeysDiffer("institution", "year");
    assert StringField(f, "degree") == Some(e.degree);
    assert Lookup(f[1..], "institution") == Some(JString(e.institution));
    assert StringField(f, "institution") == Some(e.institution);
    assert Lookup(f[2..], "year") == Some(JString(e.year));
    assert Lookup(f[1..], "year") == Lookup(f[2..], "year");
    assert StringField(f, "year") == Some(e.year);
  }

  lemma ExperienceBack(e: Experience)
    ensures ExperienceOf(ExperienceJson(e)) == Some(e)
  {
    var f := ExperienceJson(e).fields;
    KeysDiffer("title", "company");
    KeysDiffer("title", "period");
    KeysDiffer("title", "description");
    KeysDiffer("company", "period");
    KeysDiffer("company", "description");
    KeysDiffer("period", "description");
    assert StringField(f, "title") == Some(e.title);
    assert Lookup(f[1..], "company") == Some(JString(e.company));
    assert StringField(f, "company") == Some(e.company);
    assert Lookup(f[2..], "period") == Some(JString(e.period));
    assert Lookup(f[1..], "period") == Lookup(f[2..], "period");
    assert StringField(f, "period") == Some(e.period);
    assert Lookup(f[3..], "description") == Some(JString(e.description));
    assert Lookup(f[2..], "description") == Lookup(f[3..], "description");
    assert Lookup(f[1..], "description") == Lookup(f[2..], "description");
    assert StringField(f, "description") == Some(e.description);
  }

  lemma {:induction false} EducationsRoundTrip(es: seq<Education>)
    ensures EducationsOf(EducationItems(es)) == Some(es)
  {
    var items := EducationItems(es);
    if es != [] {
      assert items[1..] == EducationItems(es[1..]);
      EducationsRoundTrip(es[1..]);
      EducationBack(es[0]);
      assert es == [es[0]] + es[1..];
    }
  }

  lemma {:induction false} ExperiencesRoundTrip(es: seq<Experience>)
    ensures ExperiencesOf(ExperienceItems(es)) == Some(es)
  {
    var items := ExperienceItems(es);
    if es != [] {
      assert items[1..] == ExperienceItems(es[1..]);
      ExperiencesRoundTrip(es[1..]);
      ExperienceBack(es[0]);
      assert es == [es[0]] + es[1..];
    }
  }

  lemma {:induction false} StringsRoundTrip(ss: seq<string>)
    ensures StringsOf(SkillItems(ss)) == Some(ss)
  {
    var items := SkillItems(ss);
    if ss != [] {
      assert items[1..] == SkillItems(ss[1..]);
      StringsRoundTrip(ss[1..]);
      assert ss == [ss[0]] + ss[1..];
    }
  }

  /** Looking a key up in two lists of fields: the first list wins. */
  lemma {:induction false} LookupAppend(a: seq<Field>, b: seq<Field>, key: string)
    ensures Lookup(a + b, key) == if Lookup(a, key).Some? then Lookup(a, key) else Lookup(b, key)
  {
    if a != [] {
      assert (a + b)[1..] == a[1..] + b;
      LookupAppend(a[1..], b, key);
    } else {
      assert a + b == b;
    }
  }

  /** A key no field carries is not found. */
  lemma {:induction false} LookupAbsent(fields: seq<Field>, key: string)
    requires forall i :: 0 <= i < |fields| ==> fields[i].key != key
    ensures Lookup(fields, key).None?
  {
    if fields != [] {
      LookupAbsent(fields[1..], key);
    }
  }

  /** The three parts of a CV object: the fields always written first, the optional ones, the rest. */
  function CvHead(cv: Cv): seq<Field>
  {
    [Field("name", JString(cv.name)), Field("email", JString(cv.email))]
  }

  function CvOptional(cv: Cv): seq<Field>
  {
    OptionalField("phone", cv.phone) + OptionalField("location", cv.location)
  }

  function CvTail(cv: Cv): seq<Field>
  {
    CvJson(cv).fields[|CvHead(cv)| + |CvOptional(cv)|..]
  }

  lemma CvParts(cv: Cv)
    ensures CvJson(cv).fields == CvHead(cv) + CvOptional(cv) + CvTail(cv)
    ensures |CvTail(cv)| == 4
    ensures CvTail(cv)[0].key == "summary" && CvTail(cv)[1].key == "education"
    ensures CvTail(cv)[2].key == "experience" && CvTail(cv)[3].key == "skills"
    ensures CvTail(cv)[0].value == JString(cv.summary)
    ensures CvTail(cv)[1].value == JArray(EducationItems(cv.education))
    ensures CvTail(cv)[2].value == JArray(ExperienceItems(cv.experience))
    ensures CvTail(cv)[3].value == JArray(SkillItems(cv.skills))
  {
  }

  /** The optional fields are found in the middle part only, and only when present. */
  lemma OptionalBack(cv: Cv)
    ensures StringField(CvJson(cv).fields, "phone") == cv.phone
    ensures StringField(CvJson(cv).fields, "location") == cv.location
  {
    CvParts(cv);
    KeysDiffer("name", "phone");
    KeysDiffer("email", "phone");
    KeysDiffer("summary", "phone");
    KeysDiffer("education", "phone");
    KeysDiffer("experience", "phone");
    KeysDiffer("skills", "phone");
    MiddleLookup(CvHead(cv), CvOptional(cv), CvTail(cv), "phone");
    LocationBack(cv);
    KeysDiffer("phone", "location");
    LookupAppend(OptionalField("phone", cv.phone), OptionalField("location", cv.location), "phone");
  }

  lemma LocationBack(cv: Cv)
    ensures StringField(CvJson(cv).fields, "location") == cv.location
  {
    CvParts(cv);
    KeysDiffer("name", "location");
    KeysDiffer("email", "location");
    KeysDiffer("summary", "location");
    KeysDiffer("education", "location");
    KeysDiffer("experience", "location");
    KeysDiffer("skills", "location");
    MiddleLookup(CvHead(cv), CvOptional(cv), CvTail(cv), "location");
    KeysDiffer("phone", "location");
    LookupAppend(OptionalField("phone", cv.phone), OptionalField("location", cv.location), "location");
  }

  /** A key carried by no field of the first and last parts is looked up in the middle one. */
  lemma MiddleLookup(h: seq<Field>, o: seq<Field>, t: seq<Field>, key: string)
    requires forall i :: 0 <= i < |h| ==> h[i].key != key
    requires forall i :: 0 <= i < |t| ==> t[i].key != key
    ensures Lookup(h + o + t, key) == Lookup(o, key)
  {
    LookupAppend(h + o, t, key);
    LookupAppend(h, o, key);
    LookupAbsent(h, key);
    LookupAbsent(t, key);
  }

  /** The required fields that come after the optional ones are found in the last part. */
  lemma TailBack(cv: Cv, key: string)
    requires key in {"summary", "education", "experience", "skills"}
    ensures Lookup(CvJson(cv).fields, key) == Lookup(CvTail(cv), key)
  {
    CvParts(cv);
    var h, o := CvHead(cv), CvOptional(cv);
    KeysDiffer("name", key);
    KeysDiffer("email", key);
    KeysDiffer("phone", key);
    KeysDiffer("location", key);
    LookupAppend(h + o, CvTail(cv), key);
    LookupAppend(h, o, key);
    LookupAppend(OptionalField("phone", cv.phone), OptionalField("location", cv.location), key);
  }

  /** The two fields written first are found in the first part. */
  lemma HeadBack(cv: Cv)
    ensures StringField(CvJson(cv).fields, "name") == Some(cv.name)
    ensures StringField(CvJson(cv).fields, "email") == Some(cv.email)
  {
    CvParts(cv);
    var h, o, t := CvHead(cv), CvOptional(cv), CvTail(cv);
    KeysDiffer("name", "email");
    LookupAppend(h, o + t, "name");
    LookupAppend(h, o + t, "email");
    assert h + o + t == h + (o + t);
    assert Lookup(h[1..], "email") == Some(JString(cv.email));
  }

  /** The four fields written last are found in the last part. */
  lemma TailFieldsBack(cv: Cv)
    ensures StringField(CvJson(cv).fields, "summary") == Some(cv.summary)
    ensures ArrayField(CvJson(cv).fields, "education") == Some(EducationItems(cv.education))
    ensures ArrayField(CvJson(cv).fields, "experience") == Some(ExperienceItems(cv.experience))
    ensures ArrayField(CvJson(cv).fields, "skills") == Some(SkillItems(cv.skills))
  {
    CvParts(cv);
    var t := CvTail(cv);
    KeysDiffer("summary", "education");
    KeysDiffer("summary", "experience");
    KeysDiffer("summary", "skills");
    KeysDiffer("education", "experience");
    KeysDiffer("education", "skills");
    KeysDiffer("experience", "skills");
    TailBack(cv, "summary");
    TailBack(cv, "education");
    TailBack(cv, "experience");
    TailBack(cv, "skills");
    assert Lookup(t[1..], "education") == Some(t[1].value);
    assert Lookup(t[2..], "experience") == Some(t[2].value);
    assert Lookup(t[1..], "experience") == Lookup(t[2..], "experience");
    assert Lookup(t[3..], "skills") == Some(t[3].value);
    assert Lookup(t[2..], "skills") == Lookup(t[3..], "skills");
    assert Lookup(t[1..], "skills") == Lookup(t[2..], "skills");
  }

  /** Reading back what the handlers send gives the record that was sent. */
  lemma CvRoundTrip(cv: Cv)
    ensures CvOf(CvJson(cv)) == Some(cv)
  {
    HeadBack(cv);
    OptionalBack(cv);
    TailFieldsBack(cv);
    EducationsRoundTrip(cv.education);
    ExperiencesRoundTrip(cv.experience);
    StringsRoundTrip(cv.skills);
  }

  // ---------------------------------------------------------------- the fixed records

  /** generate-cv's record when the model's text does not parse (lines 118-140). */
  const GeneratedFallback: Cv := Cv(
    "Professional Candidate", "candidate@example.com", Some("+1234567890"), Some("Global"),
    "Experienced professional seeking new opportunities",
    [Education("Bachelor's Degree", "University", "2020")],
    [Experience("Professional", "Previous Company", "2020-Present", "Demonstrated expertise in various professional capacities")],
    ["Communication", "Problem Solving", "Team Collaboration"])

  /** parse-cv's record when the model's text does not parse (lines 143-165). */
  const ParsedFallback: Cv := Cv(
    "Professional Candidate", "candidate@example.com", Some("+1234567890"), Some("Global"),
    "Experienced professional seeking new opportunities",
    [Education("Bachelor's Degree", "University", "2020")],
    [Experience("Professional", "Company", "2020-2024", "Various professional responsibilities")],
    ["Communication", "Problem Solving", "Teamwork"])

  /** parse-cv's record for a missing or too short CV text (lines 28-37). */
  const UnknownCv: Cv := Cv(
    "Unknown", "unknown@example.com", Some(""), Some(""),
    "Could not extract CV information. Please ensure the file contains readable text.",
    [], [], [])
}
