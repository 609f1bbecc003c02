/**
  `ResponseFormatter`: the Markdown summary that `format_profile_summary` assembles from a
  profile dictionary, and the HTML escaping that `format_response` applies before its
  regular-expression rewrites.  A dictionary key that is absent is `None`; a present value
  is the text the f-string prints for it.  The `about` value, which the source only tests
  for truthiness, is `None` or `""` when it is falsy.
 */
module ResponseFormatter {
  import opened Wrappers
  import opened Strings

  // ---------------------------------------------------------------------------------------
  // `html.escape(s, quote=True)`
  // ---------------------------------------------------------------------------------------

  /** The replacement of one character: `&`, `<`, `>`, `"` and `'` become entities, the rest stay. */
  function EscapeChar(c: char): string {
    if c == '&' then "&amp;"
    else if c == '<' then "&lt;"
    else if c == '>' then "&gt;"
    else if c == '"' then "&quot;"
    else if c == '\'' then "&#x27;"
    else [c]
  }

  /**
    `html.escape(s)`.  It replaces `&` first and then the other four characters, so no
    entity it writes is rewritten again and the result is the character-wise replacement.
   */
  function HtmlEscape(s: string): string {
    if s == [] then [] else EscapeChar(s[0]) + HtmlEscape(s[1..])
  }

  /** A markup character: one that `html.escape` replaces by an entity other than `&amp;`. */
  predicate Markup(c: char) {
    c == '<' || c == '>' || c == '"' || c == '\''
  }

  /** The five entities read back. */
  function HtmlUnescape(s: string): string
    decreases |s|
  {
    if s == [] then []
    else if StartsWith(s, "&amp;") then "&" + HtmlUnescape(s[5..])
    else if StartsWith(s, "&lt;") then "<" + HtmlUnescape(s[4..])
    else if StartsWith(s, "&gt;") then ">" + HtmlUnescape(s[4..])
    else if StartsWith(s, "&quot;") then "\"" + HtmlUnescape(s[6..])
    else if StartsWith(s, "&#x27;") then "'" + HtmlUnescape(s[6..])
    else [s[0]] + HtmlUnescape(s[1..])
  }

  /** No markup character survives the escaping. */
  lemma {:induction false} EscapedHasNoMarkup(s: string)
    ensures forall k :: 0 <= k < |HtmlEscape(s)| ==> !Markup(HtmlEscape(s)[k])
  {
    if s != [] {
      EscapedHasNoMarkup(s[1..]);
      var e := EscapeChar(s[0]);
      var r := HtmlEscape(s[1..]);
      assert HtmlEscape(s) == e + r;
      forall k | 0 <= k < |e + r| ensures !Markup((e + r)[k]) {
        if k >= |e| {
          assert (e + r)[k] == r[k - |e|];
        }
      }
    }
  }

  /** A text without `&` and markup characters is left as it is. */
  lemma {:induction false} EscapePlain(s: string)
    requires forall k :: 0 <= k < |s| ==> s[k] != '&' && !Markup(s[k])
    ensures HtmlEscape(s) == s
  {
    if s != [] {
      EscapePlain(s[1..]);
      assert s == [s[0]] + s[1..];
    }
  }

  /** Reading the entities back gives the original text: the escaping loses nothing. */
  lemma {:induction false} UnescapeEscape(s: string)
    ensures HtmlUnescape(HtmlEscape(s)) == s
  {
    if s != [] {
      UnescapeEscape(s[1..]);
      UnescapeChar(s[0], HtmlEscape(s[1..]));
      assert s == [s[0]] + s[1..];
    }
  }

  lemma UnescapeChar(c: char, rest: string)
    ensures HtmlUnescape(EscapeChar(c) + rest) == [c] + HtmlUnescape(rest)
  {
    var t := EscapeChar(c) + rest;
    if c == '&' {
      assert StartsWith(t, "&amp;") && t[5..] == rest;
    } else if c == '<' {
      assert !StartsWith(t, "&amp;") by { NotStartsWithAt(t, "&amp;", 1); }
      assert StartsWith(t, "&lt;") && t[4..] == rest;
    } else if c == '>' {
      assert !StartsWith(t, "&amp;") by { NotStartsWithAt(t, "&amp;", 1); }
      assert !StartsWith(t, "&lt;") by { NotStartsWithAt(t, "&lt;", 1); }
      assert StartsWith(t, "&gt;") && t[4..] == rest;
    } else if c == '"' {
      assert !StartsWith(t, "&amp;") by { NotStartsWithAt(t, "&amp;", 1); }
      assert !StartsWith(t, "&lt;") by { NotStartsWithAt(t, "&lt;", 1); }
      assert !StartsWith(t, "&gt;") by { NotStartsWithAt(t, "&gt;", 1); }
      assert StartsWith(t, "&quot;") && t[6..] == rest;
    } else if c == '\'' {
      assert !StartsWith(t, "&amp;") by { NotStartsWithAt(t, "&amp;", 1); }
      assert !StartsWith(t, "&lt;") by { NotStartsWithAt(t, "&lt;", 1); }
      assert !StartsWith(t, "&gt;") by { NotStartsWithAt(t, "&gt;", 1); }
      assert !StartsWith(t, "&quot;") by { NotStartsWithAt(t, "&quot;", 1); }
      assert StartsWith(t, "&#x27;") && t[6..] == rest;
    } else {
      assert t[0] == c && t[1..] == rest;
      assert !StartsWith(t, "&amp;") by { NotStartsWithAt(t, "&amp;", 0); }
      assert !StartsWith(t, "&lt;") by { NotStartsWithAt(t, "&lt;", 0); }
      assert !StartsWith(t, "&gt;") by { NotStartsWithAt(t, "&gt;", 0); }
      assert !StartsWith(t, "&quot;") by { NotStartsWithAt(t, "&quot;", 0); }
      assert !StartsWith(t, "&#x27;") by { NotStartsWithAt(t, "&#x27;", 0); }
    }
  }

  // ---------------------------------------------------------------------------------------
  // `format_response`
  // ---------------------------------------------------------------------------------------

  /**
    What the steps after the escaping (the regular-expression rewrites, the style wrapper and
    BeautifulSoup's `prettify`) make of the escaped text: the formatted HTML, or, when one of
    them raises, the value the `content` variable holds at that point.
   */
  datatype PostResult = Formatted(html: string) | Failed(content: string)

  /**
    `format_response(content)`: the text is escaped first and then handed to the rewrites
    (`post`, left abstract); when they raise, the partly rewritten `content` is returned.
   */
  function FormatResponse(content: string, post: string -> PostResult): (r: string)
    ensures post(HtmlEscape(content)).Failed? ==> r == post(HtmlEscape(content)).content
  {
    match post(HtmlEscape(content))
    case Formatted(out) => out
    case Failed(partial) => partial
  }

  /**
    When the rewrites raise before changing anything, the caller gets the escaped text and
    not its own input: it carries no markup character, and reading its entities back gives the input.
   */
  lemma FailedFormatIsEscaped(content: string, post: string -> PostResult)
    requires post(HtmlEscape(content)) == Failed(HtmlEscape(content))
    ensures var r := FormatResponse(content, post);
      HtmlUnescape(r) == content && forall k :: 0 <= k < |r| ==> !Markup(r[k])
  {
    EscapedHasNoMarkup(content);
    UnescapeEscape(content);
  }

  // ---------------------------------------------------------------------------------------
  // `format_profile_summary`
  // ---------------------------------------------------------------------------------------

  /** An entry of `profile_data['experience']`; `None` marks a missing key. */
  datatype ExperienceItem = ExperienceItem(title: Option<string>, company: Option<string>, duration: Option<string>)

  /** An entry of `profile_data['education']`. */
  datatype EducationItem = EducationItem(degree: Option<string>, school: Option<string>, years: Option<string>)

  /** The keys of `profile_data` that the summary reads. */
  datatype ProfileData = ProfileData(
    name: Option<string>,
    headline: Option<string>,
    location: Option<string>,
    about: Option<string>,
    experience: Option<seq<ExperienceItem>>,
    education: Option<seq<EducationItem>>,
    skills: Option<seq<string>>)

  /** `### title`, a line break and the body. */
  function Section(title: string, body: string): string {
    "### " + title + "\n" + body
  }

  /** One bolded line per present key among `name`, `headline` and `location`, in that order. */
  function BasicLines(d: ProfileData): seq<string> {
    (if d.name.Some? then ["**Name:** " + d.name.value] else [])
    + (if d.headline.Some? then ["**Headline:** " + d.headline.value] else [])
    + (if d.location.Some? then ["**Location:** " + d.location.value] else [])
  }

  predicate ExperienceKeys(e: ExperienceItem) {
    e.title.Some? && e.company.Some?
  }

  predicate EducationKeys(e: EducationItem) {
    e.degree.Some? && e.school.Some?
  }

  /** `- **title** at company`, then the indented duration when the entry has a `duration` key. */
  function ExperienceBlock(e: ExperienceItem): seq<string>
    requires ExperienceKeys(e)
  {
    ["- **" + e.title.value + "** at " + e.company.value]
    + (if e.duration.Some? then ["  " + e.duration.value] else [])
  }

  /** `- **degree** from school`, then the indented years when the entry has a `years` key. */
  function EducationBlock(e: EducationItem): seq<string>
    requires EducationKeys(e)
  {
    ["- **" + e.degree.value + "** from " + e.school.value]
    + (if e.years.Some? then ["  " + e.years.value] else [])
  }

  /** The lines of the experience entries, in order. */
  function ExperienceItemLines(items: seq<ExperienceItem>): seq<string>
    requires forall j | 0 <= j < |items| :: ExperienceKeys(items[j])
  {
    if items == [] then [] else ExperienceItemLines(items[..|items| - 1]) + ExperienceBlock(items[|items| - 1])
  }

  function EducationItemLines(items: seq<EducationItem>): seq<string>
    requires forall j | 0 <= j < |items| :: EducationKeys(items[j])
  {
    if items == [] then [] else EducationItemLines(items[..|items| - 1]) + EducationBlock(items[|items| - 1])
  }

  function SkillLines(skills: seq<string>): seq<string> {
    if skills == [] then [] else SkillLines(skills[..|skills| - 1]) + ["- " + skills[|skills| - 1]]
  }

  /**
    Whether the summary can be built: every entry of a non-empty experience or education
    list has the keys its line needs (an empty or absent list is not looked at).
   */
  predicate HasEntryKeys(d: ProfileData) {
    (forall j | 0 <= j < |Items(d.experience)| :: ExperienceKeys(Items(d.experience)[j]))
    && (forall j | 0 <= j < |Items(d.education)| :: EducationKeys(Items(d.education)[j]))
  }

  /** `[Section(title, body)]` when the section is present, otherwise nothing. */
  function OptSection(present: bool, title: string, body: string): seq<string> {
    if present then [Section(title, body)] else []
  }

  function OptTitle(present: bool, title: string): seq<string> {
    if present then [title] else []
  }

  predicate HasBasic(d: ProfileData) {
    d.name.Some? || d.headline.Some? || d.location.Some?
  }

  /**
    The titles of the sections the summary has, in the fixed order: Basic Information when
    any of `name`, `headline`, `location` is a key, then About, Experience, Education and
    Skills when the key is present and its value is truthy.
   */
  function SummaryTitles(d: ProfileData): seq<string> {
    OptTitle(HasBasic(d), "Basic Information")
    + OptTitle(Truthy(d.about), "About")
    + OptTitle(NonEmpty(d.experience), "Experience")
    + OptTitle(NonEmpty(d.education), "Education")
    + OptTitle(NonEmpty(d.skills), "Skills")
  }

  /** The sections of the summary. */
  function SummarySections(d: ProfileData): seq<string>
    requires HasEntryKeys(d)
  {
    OptSection(HasBasic(d), "Basic Information", Join(BasicLines(d), "\n"))
    + OptSection(Truthy(d.about), "About", d.about.GetOr(""))
    + OptSection(NonEmpty(d.experience), "Experience", Join(ExperienceItemLines(Items(d.experience)), "\n"))
    + OptSection(NonEmpty(d.education), "Education", Join(EducationItemLines(Items(d.education)), "\n"))
    + OptSection(NonEmpty(d.skills), "Skills", Join(SkillLines(Items(d.skills)), "\n"))
  }

  /**
    `format_profile_summary(profile_data)`: the sections joined by blank lines and formatted
    by `format_response`; a missing entry key raises `KeyError`, and then the summary is
    `str(profile_data)`, given here as `raw`.
   */
  function ProfileSummary(d: ProfileData, raw: string, post: string -> PostResult): string {
    if HasEntryKeys(d) then FormatResponse(Join(SummarySections(d), "\n\n"), post) else raw
  }

  /** Each of `ss` starts with the `###` heading of the title at the same place in `ts`. */
  predicate Headed(ss: seq<string>, ts: seq<string>) {
    |ss| == |ts| && forall k :: 0 <= k < |ts| ==> StartsWith(ss[k], "### " + ts[k] + "\n")
  }

  lemma HeadedAppend(ss: seq<string>, ts: seq<string>, present: bool, title: string, body: string)
    requires Headed(ss, ts)
    ensures Headed(ss + OptSection(present, title, body), ts + OptTitle(present, title))
  {
    StartsWithConcat("### " + title + "\n", body);
  }

  /** There is one section per title, and each section starts with the `###` heading of its title. */
  lemma SummarySectionHeadings(d: ProfileData)
    requires HasEntryKeys(d)
    ensures Headed(SummarySections(d), SummaryTitles(d))
  {
    var s1 := OptSection(HasBasic(d), "Basic Information", Join(BasicLines(d), "\n"));
    var s2 := OptSection(Truthy(d.about), "About", d.about.GetOr(""));
    var s3 := OptSection(NonEmpty(d.experience), "Experience", Join(ExperienceItemLines(Items(d.experience)), "\n"));
    var s4 := OptSection(NonEmpty(d.education), "Education", Join(EducationItemLines(Items(d.education)), "\n"));
    var s5 := OptSection(NonEmpty(d.skills), "Skills", Join(SkillLines(Items(d.skills)), "\n"));
    var t1 := OptTitle(HasBasic(d), "Basic Information");
    var t2 := OptTitle(Truthy(d.about), "About");
    var t3 := OptTitle(NonEmpty(d.experience), "Experience");
    var t4 := OptTitle(NonEmpty(d.education), "Education");
    var t5 := OptTitle(NonEmpty(d.skills), "Skills");
    HeadedAppend([], [], HasBasic(d), "Basic Information", Join(BasicLines(d), "\n"));
    assert [] + s1 == s1 && [] + t1 == t1;
    HeadedAppend(s1, t1, Truthy(d.about), "About", d.about.GetOr(""));
    HeadedAppend(s1 + s2, t1 + t2, NonEmpty(d.experience), "Experience", Join(ExperienceItemLines(Items(d.experience)), "\n"));
    HeadedAppend(s1 + s2 + s3, t1 + t2 + t3, NonEmpty(d.education), "Education", Join(EducationItemLines(Items(d.education)), "\n"));
    HeadedAppend(s1 + s2 + s3 + s4, t1 + t2 + t3 + t4, NonEmpty(d.skills), "Skills", Join(SkillLines(Items(d.skills)), "\n"));
  }

  /** Experience entries give one bullet line each, plus one indented line for each entry with a duration. */
  lemma {:induction false} ExperienceLineCount(items: seq<ExperienceItem>)
    requires forall j | 0 <= j < |items| :: ExperienceKeys(items[j])
    ensures |ExperienceItemLines(items)| == |items| + |DurationsOf(items)|
  {
    if items != [] {
      ExperienceLineCount(items[..|items| - 1]);
    }
  }

  /** The lines of consecutive runs of entries follow one another. */
  lemma {:induction false} ExperienceLinesAppend(a: seq<ExperienceItem>, b: seq<ExperienceItem>)
    requires forall j | 0 <= j < |a| :: ExperienceKeys(a[j])
    requires forall j | 0 <= j < |b| :: ExperienceKeys(b[j])
    ensures forall j | 0 <= j < |a + b| :: ExperienceKeys((a + b)[j])
    ensures ExperienceItemLines(a + b) == ExperienceItemLines(a) + ExperienceItemLines(b)
  {
    if b != [] {
      var b' := b[..|b| - 1];
      assert (a + b)[..|a + b| - 1] == a + b';
      ExperienceLinesAppend(a, b');
    } else {
      assert a + b == a;
    }
  }

  /**
    Entry `i` starts at the line after the lines of the entries before it: first its
    `- **title** at company` bullet, then, exactly when it has a duration, the indented
    duration line; the next entry starts right after.
   */
  lemma ExperienceEntryPlacement(items: seq<ExperienceItem>, i: nat)
    requires forall j | 0 <= j < |items| :: ExperienceKeys(items[j])
    requires i < |items|
    ensures var at := |ExperienceItemLines(items[..i])|;
      var ls := ExperienceItemLines(items);
      && at < |ls|
      && ls[at] == "- **" + items[i].title.value + "** at " + items[i].company.value
      && (items[i].duration.Some? ==> at + 1 < |ls| && ls[at + 1] == "  " + items[i].duration.value)
      && |ExperienceItemLines(items[..i + 1])| == at + 1 + (if items[i].duration.Some? then 1 else 0)
  {
    assert items[..i + 1][..i] == items[..i];
    assert items == items[..i + 1] + items[i + 1..];
    ExperienceLinesAppend(items[..i + 1], items[i + 1..]);
  }

  /** The durations of the entries that have one, in order. */
  function DurationsOf(items: seq<ExperienceItem>): seq<string> {
    if items == [] then [] else
      var e := items[|items| - 1];
      DurationsOf(items[..|items| - 1]) + (if e.duration.Some? then [e.duration.value] else [])
  }

  /** The skills section has one `- skill` line per skill, in order. */
  lemma {:induction false} SkillLinesShape(skills: seq<string>)
    ensures |SkillLines(skills)| == |skills|
    ensures forall k :: 0 <= k < |skills| ==> SkillLines(skills)[k] == "- " + skills[k]
  {
    if skills != [] {
      SkillLinesShape(skills[..|skills| - 1]);
    }
  }

  // ---------------------------------------------------------------------------------------
  // The loops of `format_profile_summary`
  // ---------------------------------------------------------------------------------------

  /** `for exp in profile_data['experience']: exp_items.append(...)`; `ok` is false when a key is missing. */
  method CollectExperience(items: seq<ExperienceItem>) returns (lines: seq<string>, ok: bool)
    ensures ok == forall j | 0 <= j < |items| :: ExperienceKeys(items[j])
    ensures ok ==> lines == ExperienceItemLines(items)
  {
    lines := [];
    for i := 0 to |items|
      invariant forall j | 0 <= j < i :: ExperienceKeys(items[j])
      invariant lines == ExperienceItemLines(items[..i])
    {
      var e := items[i];
      if e.title.None? || e.company.None? {
        return lines, false;
      }
      assert items[..i + 1][..i] == items[..i];
      lines := lines + ["- **" + e.title.value + "** at " + e.company.value];
      if e.duration.Some? {
        lines := lines + ["  " + e.duration.value];
      }
    }
    assert items[..|items|] == items;
    ok := true;
  }

  /** `for edu in profile_data['education']: edu_items.append(...)`. */
  method CollectEducation(items: seq<EducationItem>) returns (lines: seq<string>, ok: bool)
    ensures ok == forall j | 0 <= j < |items| :: EducationKeys(items[j])
    ensures ok ==> lines == EducationItemLines(items)
  {
    lines := [];
    for i := 0 to |items|
      invariant forall j | 0 <= j < i :: EducationKeys(items[j])
      invariant lines == EducationItemLines(items[..i])
    {
      var e := items[i];
      if e.degree.None? || e.school.None? {
        return lines, false;
      }
      assert items[..i + 1][..i] == items[..i];
      lines := lines + ["- **" + e.degree.value + "** from " + e.school.value];
      if e.years.Some? {
        lines := lines + ["  " + e.years.value];
      }
    }
    assert items[..|items|] == items;
    ok := true;
  }

  /** The `sections.append` statements; `ok` is false when an entry key is missing. */
  method CollectSections(d: ProfileData) returns (sections: seq<string>, ok: bool)
    ensures ok == HasEntryKeys(d)
    ensures ok ==> sections == SummarySections(d)
  {
    var basic := CollectBasic(d);
    sections := AppendSection([], HasBasic(d), "Basic Information", Join(basic, "\n"));
    sections := AppendSection(sections, Truthy(d.about), "About", d.about.GetOr(""));
    var expLines, eduLines, entriesOk := CollectEntries(d);
    if !entriesOk {
      return sections, false;
    }
    ghost var front := sections;
    assert front == OptSection(HasBasic(d), "Basic Information", Join(BasicLines(d), "\n"))
      + OptSection(Truthy(d.about), "About", d.about.GetOr(""));
    sections := AppendSection(sections, NonEmpty(d.experience), "Experience", Join(expLines, "\n"));
    sections := AppendSection(sections, NonEmpty(d.education), "Education", Join(eduLines, "\n"));
    var skillLines := CollectSkills(Items(d.skills));
    sections := AppendSection(sections, NonEmpty(d.skills), "Skills", Join(skillLines, "\n"));
    assert sections == front
      + OptSection(NonEmpty(d.experience), "Experience", Join(ExperienceItemLines(Items(d.experience)), "\n"))
      + OptSection(NonEmpty(d.education), "Education", Join(EducationItemLines(Items(d.education)), "\n"))
      + OptSection(NonEmpty(d.skills), "Skills", Join(SkillLines(Items(d.skills)), "\n"));
    ok := true;
  }

  /** `if present: sections.append(f"### {title}\n{body}")`. */
  method AppendSection(sections0: seq<string>, present: bool, title: string, body: string) returns (sections: seq<string>)
    ensures sections == sections0 + OptSection(present, title, body)
  {
    sections := sections0;
    if present {
      sections := sections + [Section(title, body)];
    }
  }

  /** The `basic_info.append` statements. */
  method CollectBasic(d: ProfileData) returns (basic: seq<string>)
    ensures basic == BasicLines(d)
  {
    basic := [];
    if d.name.Some? {
      basic := basic + ["**Name:** " + d.name.value];
    }
    if d.headline.Some? {
      basic := basic + ["**Headline:** " + d.headline.value];
    }
    if d.location.Some? {
      basic := basic + ["**Location:** " + d.location.value];
    }
  }

  /** The experience loop, then the education loop, each run only when its list is non-empty. */
  method CollectEntries(d: ProfileData) returns (expLines: seq<string>, eduLines: seq<string>, ok: bool)
    ensures ok == HasEntryKeys(d)
    ensures ok ==> expLines == ExperienceItemLines(Items(d.experience))
    ensures ok ==> eduLines == EducationItemLines(Items(d.education))
  {
    expLines, eduLines := [], [];
    var expOk, eduOk := true, true;
    if NonEmpty(d.experience) {
      expLines, expOk := CollectExperience(d.experience.value);
      assert Items(d.experience) == d.experience.value;
      if !expOk {
        return expLines, eduLines, false;
      }
    }
    if NonEmpty(d.education) {
      eduLines, eduOk := CollectEducation(d.education.value);
      assert Items(d.education) == d.education.value;
      if !eduOk {
        return expLines, eduLines, false;
      }
    }
    assert Items(d.experience) == [] || NonEmpty(d.experience);
    assert Items(d.education) == [] || NonEmpty(d.education);
    ok := true;
  }

  /** The generator `f"- {skill}" for skill in profile_data['skills']`. */
  method CollectSkills(skills: seq<string>) returns (lines: seq<string>)
    ensures lines == SkillLines(skills)
  {
    lines := [];
    for i := 0 to |skills|
      invariant lines == SkillLines(skills[..i])
    {
      assert skills[..i + 1][..i] == skills[..i];
      lines := lines + ["- " + skills[i]];
    }
    assert skills[..|skills|] == skills;
  }

  /** `format_profile_summary`, with `str(profile_data)` given as `raw` and the rewrites as `post`. */
  method FormatProfileSummary(d: ProfileData, raw: string, post: string -> PostResult) returns (r: string)
    ensures r == ProfileSummary(d, raw, post)
  {
    var sections, ok := CollectSections(d);
    if !ok {
      return raw;
    }
    r := FormatResponse(Join(sections, "\n\n"), post);
  }
}
