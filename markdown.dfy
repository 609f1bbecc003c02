/**
  The Markdown resume that `save_structured_profile` writes.  Every f-string of the source
  is a list of lines, each one followed by a line break, so the document is
  `Unlines(MarkdownLines(p))`.
 */
module ProfileMarkdown {
  import opened Wrappers
  import opened Strings
  import opened Profile

  /** The `### ` heading line of a section. */
  function SectionHeading(title: string): string {
    "### " + title
  }

  /** `f"# {name}\n\n## {headline}\n**Location:** {location}\n\n### About\n{about}\n\n### Experience\n"`. */
  function HeaderLines(p: LinkedInProfile): seq<string> {
    ["# " + p.name, "", "## " + p.headline, "**Location:** " + p.location, "",
     SectionHeading("About"), p.about, "", SectionHeading("Experience")]
  }

  /** The `title at company` heading of one experience. */
  function ExperienceHeading(e: Experience): string {
    e.title + " at " + e.company
  }

  /** One experience: a blank line, `#### title at company`, `*duration*`, a blank line, the description. */
  function ExperienceLines(e: Experience): seq<string> {
    ["", "#### " + ExperienceHeading(e), "*" + e.duration + "*", "", DescriptionText(e)]
  }

  /** `*years*` when the years are non-empty, otherwise an empty line. */
  function YearsLine(e: Education): string {
    if Truthy(e.years) then "*" + e.years.value + "*" else ""
  }

  function EducationLines(e: Education): seq<string> {
    ["", "#### " + e.school, DegreeText(e), YearsLine(e)]
  }

  function BulletLines(s: string): seq<string> {
    ["- " + s]
  }

  /** `Issued by issuer`, followed by ` (date)` only when the date is non-empty. */
  function IssuerLine(c: Certification): string {
    "Issued by " + c.issuer + (if Truthy(c.date) then " (" + c.date.value + ")" else "")
  }

  function CertificationLines(c: Certification): seq<string> {
    ["", "#### " + c.name, IssuerLine(c)]
  }

  /** The `From author (relationship)` heading of one recommendation. */
  function RecommendationHeading(r: Recommendation): string {
    "From " + r.author + " (" + r.relationship + ")"
  }

  function RecommendationLines(r: Recommendation): seq<string> {
    ["", "#### " + RecommendationHeading(r), r.text]
  }

  function EducationSection(p: LinkedInProfile): seq<string> {
    ["", SectionHeading("Education")] + FlatMap(p.education, EducationLines)
  }

  function SkillsSection(p: LinkedInProfile): seq<string> {
    if p.skills != [] then ["", SectionHeading("Skills")] + FlatMap(p.skills, BulletLines) else []
  }

  function CertificationsSection(p: LinkedInProfile): seq<string> {
    if NonEmpty(p.certifications) then
      ["", SectionHeading("Certifications")] + FlatMap(p.certifications.value, CertificationLines)
    else []
  }

  function LanguagesSection(p: LinkedInProfile): seq<string> {
    if NonEmpty(p.languages) then ["", SectionHeading("Languages")] + FlatMap(p.languages.value, BulletLines) else []
  }

  function RecommendationsSection(p: LinkedInProfile): seq<string> {
    if NonEmpty(p.recommendations) then
      ["", SectionHeading("Recommendations")] + FlatMap(p.recommendations.value, RecommendationLines)
    else []
  }

  /** The lines of the Markdown document, in the fixed section order of the source. */
  function MarkdownLines(p: LinkedInProfile): seq<string> {
    HeaderLines(p) + FlatMap(p.experience, ExperienceLines) + EducationSection(p)
    + SkillsSection(p) + CertificationsSection(p) + LanguagesSection(p) + RecommendationsSection(p)
  }

  function Markdown(p: LinkedInProfile): string {
    Unlines(MarkdownLines(p))
  }

  /**
    The experience entries follow the header in list order, five lines each: a blank line,
    `#### title at company`, `*duration*`, a blank line and the description.
   */
  lemma ExperienceEntryLines(p: LinkedInProfile, i: nat)
    requires i < |p.experience|
    ensures var ls := MarkdownLines(p); var b := 9 + 5 * i; var e := p.experience[i];
      b + 5 <= |ls| && ls[b] == "" && ls[b + 1] == "#### " + ExperienceHeading(e)
      && ls[b + 2] == "*" + e.duration + "*" && ls[b + 3] == "" && ls[b + 4] == DescriptionText(e)
  {
    var ex := FlatMap(p.experience, ExperienceLines);
    FlatMapBlock(p.experience, ExperienceLines, 5, i);
    var k := 5 * i;
    var blk := ex[k..k + 5];
    assert blk == ExperienceLines(p.experience[i]);
    var front := HeaderLines(p) + ex;
    assert front[9 + k] == blk[0] && front[9 + k + 1] == blk[1] && front[9 + k + 2] == blk[2]
        && front[9 + k + 3] == blk[3] && front[9 + k + 4] == blk[4];
    InExperiencePart(p, 9 + k);
    InExperiencePart(p, 9 + k + 1);
    InExperiencePart(p, 9 + k + 2);
    InExperiencePart(p, 9 + k + 3);
    InExperiencePart(p, 9 + k + 4);
  }

  lemma InExperiencePart(p: LinkedInProfile, n: nat)
    requires n < |HeaderLines(p) + FlatMap(p.experience, ExperienceLines)|
    ensures n < |MarkdownLines(p)| && MarkdownLines(p)[n] == (HeaderLines(p) + FlatMap(p.experience, ExperienceLines))[n]
  {
    var front := HeaderLines(p) + FlatMap(p.experience, ExperienceLines);
    InFirstParts(p, n);
    PrefixAt(front + EducationSection(p), front, EducationSection(p), n);
  }

  /** The lines up to the end of the education section come first, unchanged. */
  lemma InFirstParts(p: LinkedInProfile, i: nat)
    requires i < |HeaderLines(p) + FlatMap(p.experience, ExperienceLines) + EducationSection(p)|
    ensures i < |MarkdownLines(p)|
    ensures MarkdownLines(p)[i] == (HeaderLines(p) + FlatMap(p.experience, ExperienceLines) + EducationSection(p))[i]
  {
    var l1 := HeaderLines(p) + FlatMap(p.experience, ExperienceLines) + EducationSection(p);
    var l2 := l1 + SkillsSection(p);
    var l3 := l2 + CertificationsSection(p);
    var l4 := l3 + LanguagesSection(p);
    PrefixAt(MarkdownLines(p), l4, RecommendationsSection(p), i);
    PrefixAt(l4, l3, LanguagesSection(p), i);
    PrefixAt(l3, l2, CertificationsSection(p), i);
    PrefixAt(l2, l1, SkillsSection(p), i);
  }

  /**
    The education entries follow the `### Education` heading in list order, four lines each:
    a blank line, `#### school`, the degree line and the years line.
   */
  lemma EducationEntryLines(p: LinkedInProfile, i: nat)
    requires i < |p.education|
    ensures var ls := MarkdownLines(p); var b := 9 + 5 * |p.experience| + 2 + 4 * i; var e := p.education[i];
      b + 4 <= |ls| && ls[b] == "" && ls[b + 1] == "#### " + e.school
      && ls[b + 2] == DegreeText(e) && ls[b + 3] == YearsLine(e)
  {
    FlatMapLength(p.experience, ExperienceLines, 5);
    var k := 2 + 4 * i;
    EducationBlockAt(p, i);
    InEducationPart(p, k);
    InEducationPart(p, k + 1);
    InEducationPart(p, k + 2);
    InEducationPart(p, k + 3);
  }

  lemma EducationBlockAt(p: LinkedInProfile, i: nat)
    requires i < |p.education|
    ensures var edu := EducationSection(p); var k := 2 + 4 * i; var e := p.education[i];
      k + 4 <= |edu| && edu[k] == "" && edu[k + 1] == "#### " + e.school
      && edu[k + 2] == DegreeText(e) && edu[k + 3] == YearsLine(e)
  {
    var ed := FlatMap(p.education, EducationLines);
    FlatMapBlock(p.education, EducationLines, 4, i);
    var k := 4 * i;
    var blk := ed[k..k + 4];
    assert blk == EducationLines(p.education[i]);
    assert ed[k] == blk[0] && ed[k + 1] == blk[1] && ed[k + 2] == blk[2] && ed[k + 3] == blk[3];
  }

  lemma InEducationPart(p: LinkedInProfile, n: nat)
    requires n < |EducationSection(p)|
    ensures var front := HeaderLines(p) + FlatMap(p.experience, ExperienceLines);
      |front| + n < |MarkdownLines(p)| && MarkdownLines(p)[|front| + n] == EducationSection(p)[n]
  {
    var front := HeaderLines(p) + FlatMap(p.experience, ExperienceLines);
    InFirstParts(p, |front| + n);
    SuffixAt(front + EducationSection(p), front, EducationSection(p), n);
  }

  /** The years line is empty exactly when the years are absent or empty. */
  lemma YearsLineEmpty(e: Education)
    ensures YearsLine(e) == "" <==> !Truthy(e.years)
  {
  }

  /** The `markdown +=` statements of `save_structured_profile`, in source order. */
  method RenderMarkdown(p: LinkedInProfile) returns (markdown: string)
    ensures markdown == Markdown(p)
  {
    markdown := Unlines(HeaderLines(p));
    markdown := AppendBlocks(markdown, HeaderLines(p), p.experience, ExperienceLines);
    ghost var done := HeaderLines(p) + FlatMap(p.experience, ExperienceLines);
    markdown := AppendSection(markdown, done, true, SectionHeading("Education"), p.education, EducationLines);
    done := done + EducationSection(p);
    markdown := AppendSection(markdown, done, p.skills != [], SectionHeading("Skills"), p.skills, BulletLines);
    done := done + SkillsSection(p);
    markdown := AppendSection(markdown, done, NonEmpty(p.certifications), SectionHeading("Certifications"),
                              Items(p.certifications), CertificationLines);
    done := done + CertificationsSection(p);
    markdown := AppendSection(markdown, done, NonEmpty(p.languages), SectionHeading("Languages"),
                              Items(p.languages), BulletLines);
    done := done + LanguagesSection(p);
    markdown := AppendSection(markdown, done, NonEmpty(p.recommendations), SectionHeading("Recommendations"),
                              Items(p.recommendations), RecommendationLines);
    done := done + RecommendationsSection(p);
    assert done == MarkdownLines(p);
  }

  /**
    `if present: markdown += "\n" + heading + "\n"`, then the loop over the section's items.
    The Education section is always present.
   */
  method AppendSection<T>(markdown0: string, ghost done: seq<string>, present: bool, heading: string,
                          items: seq<T>, block: T -> seq<string>)
    returns (markdown: string)
    requires markdown0 == Unlines(done)
    ensures markdown == Unlines(done + (if present then ["", heading] + FlatMap(items, block) else []))
  {
    if present {
      UnlinesAppend(done, ["", heading]);
      markdown := markdown0 + Unlines(["", heading]);
      markdown := AppendBlocks(markdown, done + ["", heading], items, block);
      assert done + ["", heading] + FlatMap(items, block)
          == done + (["", heading] + FlatMap(items, block));
    } else {
      markdown := markdown0;
      assert done + [] == done;
    }
  }

  /** `for x in items: markdown += <block of x>`. */
  method AppendBlocks<T>(markdown0: string, ghost done: seq<string>, items: seq<T>, block: T -> seq<string>)
    returns (markdown: string)
    requires markdown0 == Unlines(done)
    ensures markdown == Unlines(done + FlatMap(items, block))
  {
    markdown := markdown0;
    assert done + FlatMap(items[..0], block) == done;
    for i := 0 to |items|
      invariant markdown == Unlines(done + FlatMap(items[..i], block))
    {
      FlatMapSnoc(items, i, block);
      UnlinesAppend(done + FlatMap(items[..i], block), block(items[i]));
      assert done + FlatMap(items[..i + 1], block) == done + FlatMap(items[..i], block) + block(items[i]);
      markdown := markdown + Unlines(block(items[i]));
    }
    assert items[..|items|] == items;
  }
}
