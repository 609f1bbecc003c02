/**
  How the three outputs of `save_structured_profile` relate: the Markdown resume read back
  by `markdown_to_docx`, and the HTML fragment, show the same sections in the same order.
 */
module ResumeFormats {
  import opened Wrappers
  import opened Strings
  import opened Profile
  import opened ProfileMarkdown
  import ProfileHtml
  import opened Docx
  import opened MarkdownDocx
  import opened Paths

  // ---------------------------------------------------------------------------------------
  // How the classifier reads the lines the Markdown renderer writes
  // ---------------------------------------------------------------------------------------

  /** A text that `markdown_to_docx` would not take for a heading or a list item. */
  predicate PlainText(s: string) {
    KindOf(s) == OtherLine
  }

  /**
    The free-text fields that the Markdown resume prints on a line of their own (the about
    text, descriptions, degree lines and recommendation texts) do not start with a marker.
   */
  predicate PlainFreeText(p: LinkedInProfile) {
    PlainText(p.about)
    && (forall e | e in p.experience :: PlainText(DescriptionText(e)))
    && (forall e | e in p.education :: PlainText(DegreeText(e)))
    && (forall r | r in Items(p.recommendations) :: PlainText(r.text))
  }

  /** `[t]` when `k` is `k0`, otherwise nothing: what one line of kind `k0` adds to the lines of kind `k`. */
  function Only(k: LineKind, k0: LineKind, t: string): (r: seq<string>)
    ensures |r| <= 1
  {
    if k == k0 then [t] else []
  }

  lemma MarkedLine(level: nat, s: string)
    requires level <= 3
    ensures KindOf(HeadingMark(level) + s) == HeadingLine(level)
    ensures MarkedText(HeadingMark(level) + s) == s
  {
    var m := HeadingMark(level);
    var l := m + s;
    assert l[..|m|] == m;
    if level >= 1 {
      NotStartsWithAt(l, "# ", 1);
    }
    if level >= 2 {
      NotStartsWithAt(l, "## ", 2);
    }
    if level >= 3 {
      NotStartsWithAt(l, "### ", 3);
    }
  }

  lemma BulletMarked(s: string)
    ensures KindOf("- " + s) == BulletLine && MarkedText("- " + s) == s
  {
    var l := "- " + s;
    assert l[..2] == "- ";
    NotStartsWithAt(l, "# ", 0);
    NotStartsWithAt(l, "## ", 0);
    NotStartsWithAt(l, "### ", 0);
    NotStartsWithAt(l, "#### ", 0);
  }

  /** A line that starts with neither `#` nor `-` is neither a heading nor a list item. */
  lemma PlainStart(s: string)
    requires s == [] || (s[0] != '#' && s[0] != '-')
    ensures PlainText(s)
  {
    if s != [] {
      NotStartsWithAt(s, "# ", 0);
      NotStartsWithAt(s, "## ", 0);
      NotStartsWithAt(s, "### ", 0);
      NotStartsWithAt(s, "#### ", 0);
      NotStartsWithAt(s, "- ", 0);
    }
  }

  lemma {:induction false} LinesOfKindAppend(a: seq<string>, b: seq<string>, k: LineKind)
    ensures LinesOfKind(a + b, k) == LinesOfKind(a, k) + LinesOfKind(b, k)
    decreases |b|
  {
    if b == [] {
      assert a + b == a;
    } else {
      assert (a + b)[..|a + b| - 1] == a + b[..|b| - 1];
      LinesOfKindAppend(a, b[..|b| - 1], k);
    }
  }

  /** The lines of kind `k` in the blocks of a list are the per-element contributions `g`, in order. */
  lemma {:induction false} LinesOfKindFlatMap<T>(xs: seq<T>, f: T -> seq<string>, g: T -> seq<string>, k: LineKind)
    requires forall x | x in xs :: LinesOfKind(f(x), k) == g(x)
    ensures LinesOfKind(FlatMap(xs, f), k) == FlatMap(xs, g)
    decreases |xs|
  {
    if xs != [] {
      var n := |xs| - 1;
      LinesOfKindFlatMap(xs[..n], f, g, k);
      LinesOfKindAppend(FlatMap(xs[..n], f), f(xs[n]), k);
    }
  }

  lemma LinesOfKindOne(l: string, k: LineKind)
    ensures LinesOfKind([l], k) == if KindOf(l) == k then [MarkedText(l)] else []
  {
    assert [l][..0] == [];
  }

  lemma LinesOfKindPrefix(ls: seq<string>, j: nat, k: LineKind)
    requires j < |ls|
    ensures LinesOfKind(ls[..j + 1], k) == LinesOfKind(ls[..j], k) + LinesOfKind([ls[j]], k)
  {
    assert ls[..j + 1][..j] == ls[..j];
    LinesOfKindOne(ls[j], k);
  }

  /** Lines of any kind that follow a line of another kind. */
  lemma LinesOfKindCons(l: string, rest: seq<string>, k: LineKind)
    ensures LinesOfKind([l] + rest, k) == LinesOfKind([l], k) + LinesOfKind(rest, k)
  {
    LinesOfKindAppend([l], rest, k);
  }

  // ---------------------------------------------------------------------------------------
  // The headings and list items of each Markdown block
  // ---------------------------------------------------------------------------------------

  lemma ExperienceKinds(e: Experience, k: LineKind)
    requires k != OtherLine && PlainText(DescriptionText(e))
    ensures LinesOfKind(ExperienceLines(e), k) == Only(k, HeadingLine(3), ExperienceHeading(e))
  {
    var ls := ExperienceLines(e);
    PlainStart(ls[0]);
    MarkedLine(3, ExperienceHeading(e));
    PlainStart(ls[2]);
    PlainStart(ls[3]);
    LinesOfKindPrefix(ls, 0, k);
    LinesOfKindPrefix(ls, 1, k);
    LinesOfKindPrefix(ls, 2, k);
    LinesOfKindPrefix(ls, 3, k);
    LinesOfKindPrefix(ls, 4, k);
    assert ls[..5] == ls;
  }

  lemma EducationKinds(e: Education, k: LineKind)
    requires k != OtherLine && PlainText(DegreeText(e))
    ensures LinesOfKind(EducationLines(e), k) == Only(k, HeadingLine(3), e.school)
  {
    var ls := EducationLines(e);
    PlainStart(ls[0]);
    MarkedLine(3, e.school);
    PlainStart(ls[3]);
    LinesOfKindPrefix(ls, 0, k);
    LinesOfKindPrefix(ls, 1, k);
    LinesOfKindPrefix(ls, 2, k);
    LinesOfKindPrefix(ls, 3, k);
    assert ls[..4] == ls;
  }

  lemma BulletKinds(s: string, k: LineKind)
    requires k != OtherLine
    ensures LinesOfKind(BulletLines(s), k) == Only(k, BulletLine, s)
  {
    BulletMarked(s);
    LinesOfKindOne("- " + s, k);
  }

  lemma CertificationKinds(c: Certification, k: LineKind)
    requires k != OtherLine
    ensures LinesOfKind(CertificationLines(c), k) == Only(k, HeadingLine(3), c.name)
  {
    var ls := CertificationLines(c);
    PlainStart(ls[0]);
    MarkedLine(3, c.name);
    PlainStart(ls[2]);
    LinesOfKindPrefix(ls, 0, k);
    LinesOfKindPrefix(ls, 1, k);
    LinesOfKindPrefix(ls, 2, k);
    assert ls[..3] == ls;
  }

  lemma RecommendationKinds(r: Recommendation, k: LineKind)
    requires k != OtherLine && PlainText(r.text)
    ensures LinesOfKind(RecommendationLines(r), k) == Only(k, HeadingLine(3), RecommendationHeading(r))
  {
    var ls := RecommendationLines(r);
    PlainStart(ls[0]);
    MarkedLine(3, RecommendationHeading(r));
    LinesOfKindPrefix(ls, 0, k);
    LinesOfKindPrefix(ls, 1, k);
    LinesOfKindPrefix(ls, 2, k);
    assert ls[..3] == ls;
  }

  lemma IntroKinds(name: string, headline: string, location: string, k: LineKind)
    requires k != OtherLine
    ensures LinesOfKind(["# " + name, "", "## " + headline, "**Location:** " + location], k)
         == Only(k, HeadingLine(0), name) + Only(k, HeadingLine(1), headline)
  {
    var ls := ["# " + name, "", "## " + headline, "**Location:** " + location];
    MarkedLine(0, name);
    PlainStart(ls[1]);
    MarkedLine(1, headline);
    PlainStart(ls[3]);
    LinesOfKindPrefix(ls, 0, k);
    LinesOfKindPrefix(ls, 1, k);
    LinesOfKindPrefix(ls, 2, k);
    LinesOfKindPrefix(ls, 3, k);
    assert ls[..4] == ls;
  }

  lemma AboutKinds(about: string, t1: string, t2: string, k: LineKind)
    requires k != OtherLine && PlainText(about)
    ensures LinesOfKind(["", SectionHeading(t1), about, "", SectionHeading(t2)], k)
         == Only(k, HeadingLine(2), t1) + Only(k, HeadingLine(2), t2)
  {
    var first, middle, last := ["", SectionHeading(t1)], [about], ["", SectionHeading(t2)];
    assert ["", SectionHeading(t1), about, "", SectionHeading(t2)] == first + (middle + last);
    LinesOfKindAppend(first, middle + last, k);
    LinesOfKindAppend(middle, last, k);
    OpeningKinds(t1, k);
    OpeningKinds(t2, k);
    LinesOfKindOne(about, k);
  }

  lemma HeaderKinds(p: LinkedInProfile, k: LineKind)
    requires k != OtherLine && PlainText(p.about)
    ensures LinesOfKind(HeaderLines(p), k)
         == Only(k, HeadingLine(0), p.name) + Only(k, HeadingLine(1), p.headline)
          + Only(k, HeadingLine(2), "About") + Only(k, HeadingLine(2), "Experience")
  {
    var intro := ["# " + p.name, "", "## " + p.headline, "**Location:** " + p.location];
    var about := ["", SectionHeading("About"), p.about, "", SectionHeading("Experience")];
    assert HeaderLines(p) == intro + about;
    LinesOfKindAppend(intro, about, k);
    IntroKinds(p.name, p.headline, p.location, k);
    AboutKinds(p.about, "About", "Experience", k);
  }

  // ---------------------------------------------------------------------------------------
  // The headings and list items of each Markdown section
  // ---------------------------------------------------------------------------------------

  /** The `#### ` heading text of each kind of entry. */
  function ExperienceEntry(e: Experience): seq<string> {
    [ExperienceHeading(e)]
  }

  function EducationEntry(e: Education): seq<string> {
    [e.school]
  }

  function CertificationEntry(c: Certification): seq<string> {
    [c.name]
  }

  function RecommendationEntry(r: Recommendation): seq<string> {
    [RecommendationHeading(r)]
  }

  /** The `#### ` headings of the Markdown resume: every experience, school, certification and recommendation, in order. */
  function EntryTitles(p: LinkedInProfile): seq<string> {
    FlatMap(p.experience, ExperienceEntry) + FlatMap(p.education, EducationEntry)
    + FlatMap(Items(p.certifications), CertificationEntry) + FlatMap(Items(p.recommendations), RecommendationEntry)
  }

  /** A list none of whose blocks has a line of kind `k` has none either. */
  lemma {:induction false} LinesOfKindFlatMapNone<T>(xs: seq<T>, f: T -> seq<string>, k: LineKind)
    requires forall x | x in xs :: LinesOfKind(f(x), k) == []
    ensures LinesOfKind(FlatMap(xs, f), k) == []
    decreases |xs|
  {
    if xs != [] {
      var n := |xs| - 1;
      LinesOfKindFlatMapNone(xs[..n], f, k);
      LinesOfKindAppend(FlatMap(xs[..n], f), f(xs[n]), k);
    }
  }

  /** The items of a bullet list, read back, are the list. */
  lemma {:induction false} BulletItems(xs: seq<string>)
    ensures LinesOfKind(FlatMap(xs, BulletLines), BulletLine) == xs
    decreases |xs|
  {
    if xs != [] {
      var n := |xs| - 1;
      var init, last := FlatMap(xs[..n], BulletLines), BulletLines(xs[n]);
      assert FlatMap(xs, BulletLines) == init + last;
      BulletItems(xs[..n]);
      LinesOfKindAppend(init, last, BulletLine);
      BulletKinds(xs[n], BulletLine);
      assert xs[..n] + [xs[n]] == xs;
    }
  }

  lemma BulletListKinds(xs: seq<string>, k: LineKind)
    requires k != OtherLine
    ensures LinesOfKind(FlatMap(xs, BulletLines), k) == if k == BulletLine then xs else []
  {
    if k == BulletLine {
      BulletItems(xs);
    } else {
      forall x | x in xs ensures LinesOfKind(BulletLines(x), k) == [] {
        BulletKinds(x, k);
      }
      LinesOfKindFlatMapNone(xs, BulletLines, k);
    }
  }

  lemma OpeningKinds(title: string, k: LineKind)
    requires k != OtherLine
    ensures LinesOfKind(["", SectionHeading(title)], k) == Only(k, HeadingLine(2), title)
  {
    var ls := ["", SectionHeading(title)];
    PlainStart(ls[0]);
    MarkedLine(2, title);
    LinesOfKindPrefix(ls, 0, k);
    LinesOfKindPrefix(ls, 1, k);
    assert ls[..2] == ls;
  }

  /** A list of entry blocks whose only marked lines are their `#### ` headings. */
  lemma EntryListKinds<T>(xs: seq<T>, f: T -> seq<string>, entry: T -> seq<string>, k: LineKind)
    requires forall x | x in xs :: LinesOfKind(f(x), k) == if k == HeadingLine(3) then entry(x) else []
    ensures LinesOfKind(FlatMap(xs, f), k) == if k == HeadingLine(3) then FlatMap(xs, entry) else []
  {
    if k == HeadingLine(3) {
      LinesOfKindFlatMap(xs, f, entry, k);
    } else {
      LinesOfKindFlatMapNone(xs, f, k);
    }
  }

  lemma ExperienceListKinds(p: LinkedInProfile, k: LineKind)
    requires k != OtherLine && forall e | e in p.experience :: PlainText(DescriptionText(e))
    ensures LinesOfKind(FlatMap(p.experience, ExperienceLines), k)
         == if k == HeadingLine(3) then FlatMap(p.experience, ExperienceEntry) else []
  {
    forall e | e in p.experience
      ensures LinesOfKind(ExperienceLines(e), k) == if k == HeadingLine(3) then ExperienceEntry(e) else []
    {
      ExperienceKinds(e, k);
    }
    EntryListKinds(p.experience, ExperienceLines, ExperienceEntry, k);
  }

  lemma EducationSectionKinds(p: LinkedInProfile, k: LineKind)
    requires k != OtherLine && forall e | e in p.education :: PlainText(DegreeText(e))
    ensures LinesOfKind(EducationSection(p), k)
         == Only(k, HeadingLine(2), "Education")
          + (if k == HeadingLine(3) then FlatMap(p.education, EducationEntry) else [])
  {
    forall e | e in p.education
      ensures LinesOfKind(EducationLines(e), k) == if k == HeadingLine(3) then EducationEntry(e) else []
    {
      EducationKinds(e, k);
    }
    EntryListKinds(p.education, EducationLines, EducationEntry, k);
    OpeningKinds("Education", k);
    LinesOfKindAppend(["", SectionHeading("Education")], FlatMap(p.education, EducationLines), k);
  }

  lemma SkillsSectionKinds(p: LinkedInProfile, k: LineKind)
    requires k != OtherLine
    ensures LinesOfKind(SkillsSection(p), k)
         == if p.skills != [] then Only(k, HeadingLine(2), "Skills") + (if k == BulletLine then p.skills else [])
            else []
  {
    if p.skills != [] {
      BulletListKinds(p.skills, k);
      OpeningKinds("Skills", k);
      LinesOfKindAppend(["", SectionHeading("Skills")], FlatMap(p.skills, BulletLines), k);
    }
  }

  lemma CertificationsSectionKinds(p: LinkedInProfile, k: LineKind)
    requires k != OtherLine
    ensures LinesOfKind(CertificationsSection(p), k)
         == if NonEmpty(p.certifications) then
              Only(k, HeadingLine(2), "Certifications")
              + (if k == HeadingLine(3) then FlatMap(Items(p.certifications), CertificationEntry) else [])
            else []
  {
    if NonEmpty(p.certifications) {
      var cs := p.certifications.value;
      forall c | c in cs
        ensures LinesOfKind(CertificationLines(c), k) == if k == HeadingLine(3) then CertificationEntry(c) else []
      {
        CertificationKinds(c, k);
      }
      EntryListKinds(cs, CertificationLines, CertificationEntry, k);
      OpeningKinds("Certifications", k);
      LinesOfKindAppend(["", SectionHeading("Certifications")], FlatMap(cs, CertificationLines), k);
    }
  }

  lemma LanguagesSectionKinds(p: LinkedInProfile, k: LineKind)
    requires k != OtherLine
    ensures LinesOfKind(LanguagesSection(p), k)
         == if NonEmpty(p.languages) then
              Only(k, HeadingLine(2), "Languages") + (if k == BulletLine then Items(p.languages) else [])
            else []
  {
    if NonEmpty(p.languages) {
      BulletListKinds(p.languages.value, k);
      OpeningKinds("Languages", k);
      LinesOfKindAppend(["", SectionHeading("Languages")], FlatMap(p.languages.value, BulletLines), k);
    }
  }

  lemma RecommendationsSectionKinds(p: LinkedInProfile, k: LineKind)
    requires k != OtherLine && forall r | r in Items(p.recommendations) :: PlainText(r.text)
    ensures LinesOfKind(RecommendationsSection(p), k)
         == if NonEmpty(p.recommendations) then
              Only(k, HeadingLine(2), "Recommendations")
              + (if k == HeadingLine(3) then FlatMap(Items(p.recommendations), RecommendationEntry) else [])
            else []
  {
    if NonEmpty(p.recommendations) {
      var rs := p.recommendations.value;
      forall r | r in rs
        ensures LinesOfKind(RecommendationLines(r), k) == if k == HeadingLine(3) then RecommendationEntry(r) else []
      {
        RecommendationKinds(r, k);
      }
      EntryListKinds(rs, RecommendationLines, RecommendationEntry, k);
      OpeningKinds("Recommendations", k);
      LinesOfKindAppend(["", SectionHeading("Recommendations")], FlatMap(rs, RecommendationLines), k);
    }
  }

  /** The marked lines of the whole resume are those of its parts, in order. */
  lemma MarkdownKinds(p: LinkedInProfile, k: LineKind)
    ensures LinesOfKind(MarkdownLines(p), k)
         == LinesOfKind(HeaderLines(p), k) + LinesOfKind(FlatMap(p.experience, ExperienceLines), k)
          + LinesOfKind(EducationSection(p), k) + LinesOfKind(SkillsSection(p), k)
          + LinesOfKind(CertificationsSection(p), k) + LinesOfKind(LanguagesSection(p), k)
          + LinesOfKind(RecommendationsSection(p), k)
  {
    var h := HeaderLines(p);
    var e := FlatMap(p.experience, ExperienceLines);
    var ed := EducationSection(p);
    var s := SkillsSection(p);
    var c := CertificationsSection(p);
    var l := LanguagesSection(p);
    var r := RecommendationsSection(p);
    LinesOfKindAppend(h, e, k);
    LinesOfKindAppend(h + e, ed, k);
    LinesOfKindAppend(h + e + ed, s, k);
    LinesOfKindAppend(h + e + ed + s, c, k);
    LinesOfKindAppend(h + e + ed + s + c, l, k);
    LinesOfKindAppend(h + e + ed + s + c + l, r, k);
  }

  // ---------------------------------------------------------------------------------------
  // The Markdown resume, read line by line with the classifier's prefixes
  // ---------------------------------------------------------------------------------------

  /** The `### ` headings are the section titles: About, Experience and Education, then each non-empty optional section. */
  lemma MarkdownSectionHeadings(p: LinkedInProfile)
    requires PlainFreeText(p)
    ensures LinesOfKind(MarkdownLines(p), HeadingLine(2)) == SectionTitles(p)
  {
    var k := HeadingLine(2);
    var h, e, ed, s, c, l, r := ["About", "Experience"], [], ["Education"],
      (if p.skills != [] then ["Skills"] else []),
      (if NonEmpty(p.certifications) then ["Certifications"] else []),
      (if NonEmpty(p.languages) then ["Languages"] else []),
      (if NonEmpty(p.recommendations) then ["Recommendations"] else []);
    ReadParts(p, k, h, e, ed, s, c, l, r);
    BaseParts(s, c, l, r);
  }

  /** There is one `#### ` heading per entry, in list order. */
  lemma MarkdownEntryHeadings(p: LinkedInProfile)
    requires PlainFreeText(p)
    ensures LinesOfKind(MarkdownLines(p), HeadingLine(3)) == EntryTitles(p)
  {
    var x := FlatMap(p.experience, ExperienceEntry);
    var y := FlatMap(p.education, EducationEntry);
    var z := FlatMap(Items(p.certifications), CertificationEntry);
    var w := FlatMap(Items(p.recommendations), RecommendationEntry);
    ReadParts(p, HeadingLine(3), [], x, y, [], z, [], w);
    EntryParts(x, y, z, w);
  }

  /** The list items are the skills, then the languages, each once and in order. */
  lemma MarkdownListItems(p: LinkedInProfile)
    requires PlainFreeText(p)
    ensures LinesOfKind(MarkdownLines(p), BulletLine) == p.skills + Items(p.languages)
  {
    ReadParts(p, BulletLine, [], [], [], p.skills, [], Items(p.languages), []);
    EmptyParts(p.skills, Items(p.languages));
  }

  /** The only `# ` line of the resume carries the name. */
  lemma MarkdownName(p: LinkedInProfile)
    requires PlainFreeText(p)
    ensures LinesOfKind(MarkdownLines(p), HeadingLine(0)) == [p.name]
  {
    ReadParts(p, HeadingLine(0), [p.name], [], [], [], [], [], []);
    HeaderPart([p.name]);
  }

  /** The only `## ` line of the resume carries the headline. */
  lemma MarkdownHeadline(p: LinkedInProfile)
    requires PlainFreeText(p)
    ensures LinesOfKind(MarkdownLines(p), HeadingLine(1)) == [p.headline]
  {
    ReadParts(p, HeadingLine(1), [p.headline], [], [], [], [], [], []);
    HeaderPart([p.headline]);
  }

  /**
    The marked lines of kind `k` of the resume, given what each part contributes: the header,
    the experience entries, and the Education, Skills, Certifications, Languages and
    Recommendations sections.
   */
  lemma ReadParts(p: LinkedInProfile, k: LineKind, h: seq<string>, e: seq<string>, ed: seq<string>,
                  s: seq<string>, c: seq<string>, l: seq<string>, r: seq<string>)
    requires k != OtherLine && PlainFreeText(p)
    requires h == Only(k, HeadingLine(0), p.name) + Only(k, HeadingLine(1), p.headline)
                 + Only(k, HeadingLine(2), "About") + Only(k, HeadingLine(2), "Experience")
    requires e == if k == HeadingLine(3) then FlatMap(p.experience, ExperienceEntry) else []
    requires ed == Only(k, HeadingLine(2), "Education")
                  + (if k == HeadingLine(3) then FlatMap(p.education, EducationEntry) else [])
    requires s == if p.skills != [] then Only(k, HeadingLine(2), "Skills") + (if k == BulletLine then p.skills else [])
                  else []
    requires c == if NonEmpty(p.certifications) then
                    Only(k, HeadingLine(2), "Certifications")
                    + (if k == HeadingLine(3) then FlatMap(Items(p.certifications), CertificationEntry) else [])
                  else []
    requires l == if NonEmpty(p.languages) then
                    Only(k, HeadingLine(2), "Languages") + (if k == BulletLine then Items(p.languages) else [])
                  else []
    requires r == if NonEmpty(p.recommendations) then
                    Only(k, HeadingLine(2), "Recommendations")
                    + (if k == HeadingLine(3) then FlatMap(Items(p.recommendations), RecommendationEntry) else [])
                  else []
    ensures LinesOfKind(MarkdownLines(p), k) == h + e + ed + s + c + l + r
  {
    MarkdownKinds(p, k);
    HeaderKinds(p, k);
    ExperienceListKinds(p, k);
    EducationSectionKinds(p, k);
    SkillsSectionKinds(p, k);
    CertificationsSectionKinds(p, k);
    LanguagesSectionKinds(p, k);
    RecommendationsSectionKinds(p, k);
  }

  lemma EmptyParts(a: seq<string>, b: seq<string>)
    ensures [] + [] + [] + a + [] + b + [] == a + b
  {
  }

  lemma EntryParts(x: seq<string>, y: seq<string>, z: seq<string>, w: seq<string>)
    ensures [] + x + y + [] + z + [] + w == x + y + z + w
  {
  }

  lemma HeaderPart(h: seq<string>)
    ensures h + [] + [] + [] + [] + [] + [] == h
  {
  }

  lemma BaseParts(s: seq<string>, c: seq<string>, l: seq<string>, r: seq<string>)
    ensures ["About", "Experience"] + [] + ["Education"] + s + c + l + r
         == ["About", "Experience", "Education"] + s + c + l + r
  {
    assert ["About", "Experience"] + [] + ["Education"] == ["About", "Experience", "Education"];
  }

  // ---------------------------------------------------------------------------------------
  // The Markdown text splits back into the rendered lines
  // ---------------------------------------------------------------------------------------

  predicate AllOneLine(ls: seq<string>) {
    forall i | 0 <= i < |ls| :: OneLine(ls[i])
  }

  lemma AllOneLineAppend(a: seq<string>, b: seq<string>)
    requires AllOneLine(a) && AllOneLine(b)
    ensures AllOneLine(a + b)
  {
    forall i | 0 <= i < |a + b| ensures OneLine((a + b)[i]) {
      if i >= |a| {
        assert (a + b)[i] == b[i - |a|];
      }
    }
  }

  lemma {:induction false} AllOneLineFlatMap<T>(xs: seq<T>, f: T -> seq<string>)
    requires forall x | x in xs :: AllOneLine(f(x))
    ensures AllOneLine(FlatMap(xs, f))
    decreases |xs|
  {
    if xs != [] {
      var n := |xs| - 1;
      AllOneLineFlatMap(xs[..n], f);
      AllOneLineAppend(FlatMap(xs[..n], f), f(xs[n]));
    }
  }

  lemma TextOneLine(o: Option<string>)
    requires OneLineOpt(o)
    ensures OneLine(if Truthy(o) then o.value else "")
  {
  }

  /** A profile without line breaks in its fields renders to lines without line breaks. */
  lemma MarkdownLinesOneLine(p: LinkedInProfile)
    requires NoLineBreaks(p)
    ensures AllOneLine(MarkdownLines(p))
  {
    var h := HeaderLines(p);
    var e := FlatMap(p.experience, ExperienceLines);
    var ed, s, c, l, r := EducationSection(p), SkillsSection(p), CertificationsSection(p),
                          LanguagesSection(p), RecommendationsSection(p);
    assert AllOneLine(h);
    ExperienceOneLine(p);
    EducationOneLine(p);
    ListsOneLine(p);
    CertificationsOneLine(p);
    RecommendationsOneLine(p);
    AllOneLineAppend(h, e);
    AllOneLineAppend(h + e, ed);
    AllOneLineAppend(h + e + ed, s);
    AllOneLineAppend(h + e + ed + s, c);
    AllOneLineAppend(h + e + ed + s + c, l);
    AllOneLineAppend(h + e + ed + s + c + l, r);
  }

  lemma ExperienceOneLine(p: LinkedInProfile)
    requires NoLineBreaks(p)
    ensures AllOneLine(FlatMap(p.experience, ExperienceLines))
  {
    forall e | e in p.experience ensures AllOneLine(ExperienceLines(e)) {
      TextOneLine(e.description);
    }
    AllOneLineFlatMap(p.experience, ExperienceLines);
  }

  lemma EducationOneLine(p: LinkedInProfile)
    requires NoLineBreaks(p)
    ensures AllOneLine(EducationSection(p))
  {
    forall e | e in p.education ensures AllOneLine(EducationLines(e)) {
      TextOneLine(e.field);
      TextOneLine(e.years);
    }
    AllOneLineFlatMap(p.education, EducationLines);
    AllOneLineAppend(["", SectionHeading("Education")], FlatMap(p.education, EducationLines));
  }

  lemma ListsOneLine(p: LinkedInProfile)
    requires NoLineBreaks(p)
    ensures AllOneLine(SkillsSection(p)) && AllOneLine(LanguagesSection(p))
  {
    AllOneLineFlatMap(p.skills, BulletLines);
    AllOneLineAppend(["", SectionHeading("Skills")], FlatMap(p.skills, BulletLines));
    AllOneLineFlatMap(Items(p.languages), BulletLines);
    AllOneLineAppend(["", SectionHeading("Languages")], FlatMap(Items(p.languages), BulletLines));
  }

  lemma CertificationsOneLine(p: LinkedInProfile)
    requires NoLineBreaks(p)
    ensures AllOneLine(CertificationsSection(p))
  {
    var cs := Items(p.certifications);
    forall c | c in cs ensures AllOneLine(CertificationLines(c)) {
      TextOneLine(c.date);
    }
    AllOneLineFlatMap(cs, CertificationLines);
    AllOneLineAppend(["", SectionHeading("Certifications")], FlatMap(cs, CertificationLines));
  }

  lemma RecommendationsOneLine(p: LinkedInProfile)
    requires NoLineBreaks(p)
    ensures AllOneLine(RecommendationsSection(p))
  {
    var rs := Items(p.recommendations);
    AllOneLineFlatMap(rs, RecommendationLines);
    AllOneLineAppend(["", SectionHeading("Recommendations")], FlatMap(rs, RecommendationLines));
  }

  /** Reading the written Markdown file back gives one paragraph list per rendered line, in order. */
  lemma DocxOfMarkdown(p: LinkedInProfile)
    requires NoLineBreaks(p)
    ensures DocxOf(Markdown(p)) == Paragraphs(MarkdownLines(p))
  {
    var ls := MarkdownLines(p);
    MarkdownFileLines(p);
    var all := ls + [""];
    assert all[..|all| - 1] == ls;
    assert ClassifyLine("") == [];
  }

  /** The paragraphs of one heading level or of the list style, as the Markdown lines of that kind. */
  lemma DocxStyle(p: LinkedInProfile, k: LineKind)
    requires NoLineBreaks(p) && k != OtherLine
    ensures TextsWithStyle(DocxOf(Markdown(p)), StyleOf(k)) == LinesOfKind(MarkdownLines(p), k)
  {
    DocxOfMarkdown(p);
    StyledParagraphsAreMarkedLines(MarkdownLines(p), k);
  }

  /**
    The Markdown file opens with `# name`, a blank line, `## headline`, `**Location:** location`,
    a blank line, `### About`, the about text, a blank line and `### Experience`.
   */
  lemma MarkdownFileStart(p: LinkedInProfile)
    requires NoLineBreaks(p)
    ensures var f := SplitOn(Markdown(p), "\n");
      |f| >= 9 && f[0] == "# " + p.name && f[1] == "" && f[2] == "## " + p.headline
      && f[3] == "**Location:** " + p.location && f[4] == "" && f[5] == "### About" && f[6] == p.about
      && f[7] == "" && f[8] == "### Experience"
  {
    MarkdownFileLines(p);
    var f := SplitOn(Markdown(p), "\n");
    var h := HeaderLines(p);
    forall j | 0 <= j < 9 ensures f[j] == h[j] {
      InExperiencePart(p, j);
    }
    assert SectionHeading("About") == "### About";
    assert SectionHeading("Experience") == "### Experience";
  }

  /** Splitting the Markdown text on line breaks gives back the rendered lines and a final empty piece. */
  lemma MarkdownFileLines(p: LinkedInProfile)
    requires NoLineBreaks(p)
    ensures SplitOn(Markdown(p), "\n") == MarkdownLines(p) + [""]
  {
    MarkdownLinesOneLine(p);
    SplitUnlines(MarkdownLines(p));
  }

  // ---------------------------------------------------------------------------------------
  // The DOCX document made from the Markdown resume
  // ---------------------------------------------------------------------------------------

  /** The Title paragraph is the name and the level-1 heading the headline, each exactly once. */
  lemma DocxTitleAndHeadline(p: LinkedInProfile)
    requires NoLineBreaks(p) && PlainFreeText(p)
    ensures TextsWithStyle(DocxOf(Markdown(p)), Heading(0)) == [p.name]
    ensures TextsWithStyle(DocxOf(Markdown(p)), Heading(1)) == [p.headline]
  {
    DocxStyle(p, HeadingLine(0));
    MarkdownName(p);
    DocxStyle(p, HeadingLine(1));
    MarkdownHeadline(p);
  }

  /** The level-2 headings of the document are the section titles, in order. */
  lemma DocxSectionHeadings(p: LinkedInProfile)
    requires NoLineBreaks(p) && PlainFreeText(p)
    ensures TextsWithStyle(DocxOf(Markdown(p)), Heading(2)) == SectionTitles(p)
  {
    DocxStyle(p, HeadingLine(2));
    MarkdownSectionHeadings(p);
  }

  /** The level-3 headings are the entries: experiences, schools, certifications, recommendations. */
  lemma DocxEntryHeadings(p: LinkedInProfile)
    requires NoLineBreaks(p) && PlainFreeText(p)
    ensures TextsWithStyle(DocxOf(Markdown(p)), Heading(3)) == EntryTitles(p)
  {
    DocxStyle(p, HeadingLine(3));
    MarkdownEntryHeadings(p);
  }

  /** The List Bullet paragraphs are the skills followed by the languages. */
  lemma DocxListItems(p: LinkedInProfile)
    requires NoLineBreaks(p) && PlainFreeText(p)
    ensures TextsWithStyle(DocxOf(Markdown(p)), ListBullet) == p.skills + Items(p.languages)
  {
    DocxStyle(p, BulletLine);
    MarkdownListItems(p);
  }

  /** The DOCX section headings and the HTML `<h3>` titles are the same list. */
  lemma FormatsAgreeOnSections(p: LinkedInProfile)
    requires NoLineBreaks(p) && PlainFreeText(p)
    ensures TextsWithStyle(DocxOf(Markdown(p)), Heading(2))
         == ProfileHtml.H3Titles(ProfileHtml.Render(ProfileHtml.HtmlLines(p)))
  {
    DocxSectionHeadings(p);
    ProfileHtml.HtmlSectionTitles(p);
  }

  /** Volunteer entries reach none of the outputs. */
  lemma MarkdownIgnoresVolunteer(p: LinkedInProfile, v: Option<seq<Volunteer>>)
    ensures Markdown(p.(volunteer := v)) == Markdown(p)
  {
    var q := p.(volunteer := v);
    assert HeaderLines(q) == HeaderLines(p);
    assert EducationSection(q) == EducationSection(p);
  }

  // ---------------------------------------------------------------------------------------
  // Saving the three files
  // ---------------------------------------------------------------------------------------

  /** What `save_structured_profile` writes: each file's path and content. */
  datatype SavedProfile = SavedProfile(
    markdownFile: string, markdown: string,
    htmlFile: string, html: string,
    docxFile: string, docx: seq<Paragraph>)

  /**
    `save_structured_profile(profile, output_dir)`: the Markdown text, the HTML fragment, and
    the Word document that `markdown_to_docx` makes of the Markdown file, each under its
    fixed name in `outputDir`.
   */
  method SaveStructuredProfile(p: LinkedInProfile, outputDir: string) returns (saved: SavedProfile)
    ensures saved.markdownFile == PathJoin(outputDir, "structured_profile.md")
    ensures saved.htmlFile == PathJoin(outputDir, "structured_profile.html")
    ensures saved.docxFile == PathJoin(outputDir, "structured_profile.docx")
    ensures saved.markdown == Markdown(p) && saved.html == ProfileHtml.Html(p)
    ensures saved.docx == DocxOf(saved.markdown)
  {
    var markdown := RenderMarkdown(p);
    var html := ProfileHtml.Html(p);
    var markdownFile := PathJoin(outputDir, "structured_profile.md");
    var htmlFile := PathJoin(outputDir, "structured_profile.html");
    var docxFile := PathJoin(outputDir, "structured_profile.docx");
    var docx := MarkdownToDocx(markdown);
    saved := SavedProfile(markdownFile, markdown, htmlFile, html, docxFile, docx);
  }

  /** The three files never collide: their names differ in the last character of the extension. */
  lemma SavedFilesDistinct(outputDir: string)
    ensures var md := PathJoin(outputDir, "structured_profile.md");
      var ht := PathJoin(outputDir, "structured_profile.html");
      var dx := PathJoin(outputDir, "structured_profile.docx");
      md != ht && md != dx && ht != dx
  {
    var md := PathJoin(outputDir, "structured_profile.md");
    var ht := PathJoin(outputDir, "structured_profile.html");
    var dx := PathJoin(outputDir, "structured_profile.docx");
    LastChar(md, "structured_profile.md");
    LastChar(ht, "structured_profile.html");
    LastChar(dx, "structured_profile.docx");
  }

  lemma LastChar(s: string, t: string)
    requires t != [] && EndsWith(s, t)
    ensures s != [] && s[|s| - 1] == t[|t| - 1]
  {
    assert s[|s| - |t|..][|t| - 1] == s[|s| - 1];
  }
}
