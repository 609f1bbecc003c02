/**
  The HTML fragment that `save_structured_profile` writes.  The source's triple-quoted
  templates are written here as lists of indented lines; the fragment is those lines
  joined with line breaks.  Field values are inserted as they are, without escaping.
 */
module ProfileHtml {
  import opened Wrappers
  import opened Strings
  import opened Profile

  /** The element names the templates use. */
  datatype Tag = Div | Header | Section | H1 | H2 | H3 | H4 | Span | I

  function TagName(t: Tag): (r: string)
    ensures |r| >= 1 && (r[0] == 'h' ==> |r| >= 2 && (r[1] == '3' <==> t == H3))
    ensures t == H3 ==> r == "h3"
  {
    match t
    case Div => "div"
    case Header => "header"
    case Section => "section"
    case H1 => "h1"
    case H2 => "h2"
    case H3 => "h3"
    case H4 => "h4"
    case Span => "span"
    case I => "i"
  }

  /** The `class` attributes the templates use, named after their CSS class. */
  datatype Cls =
    | ProfileContainer | ProfileHeader | ProfileName | ProfileHeadline | ProfileLocation | MapMarker
    | ProfileSection | ProfileAbout
    | ExperienceList | ExperienceItem | ExperienceHeader | CompanyName | Duration | ExperienceDescription
    | EducationList | EducationItem | EducationHeader | Degree | Years
    | SkillsList | SkillTag
    | CertificationsList | CertificationItem | CertificationMeta | Issuer | Date
    | LanguagesList | LanguageTag
    | RecommendationsSection | RecommendationsList | RecommendationItem | RecommendationHeader
    | Recommender | RecommenderName | Relationship | RecommendationContent

  function ClassName(c: Cls): string {
    match c
    case ProfileContainer => "profile-container"
    case ProfileHeader => "profile-header"
    case ProfileName => "profile-name"
    case ProfileHeadline => "profile-headline"
    case ProfileLocation => "profile-location"
    case MapMarker => "fas fa-map-marker-alt"
    case ProfileSection => "profile-section"
    case ProfileAbout => "profile-about"
    case ExperienceList => "experience-list"
    case ExperienceItem => "experience-item"
    case ExperienceHeader => "experience-header"
    case CompanyName => "company-name"
    case Duration => "duration"
    case ExperienceDescription => "experience-description"
    case EducationList => "education-list"
    case EducationItem => "education-item"
    case EducationHeader => "education-header"
    case Degree => "degree"
    case Years => "years"
    case SkillsList => "skills-list"
    case SkillTag => "skill-tag"
    case CertificationsList => "certifications-list"
    case CertificationItem => "certification-item"
    case CertificationMeta => "certification-meta"
    case Issuer => "issuer"
    case Date => "date"
    case LanguagesList => "languages-list"
    case LanguageTag => "language-tag"
    case RecommendationsSection => "profile-section recommendations-section"
    case RecommendationsList => "recommendations-list"
    case RecommendationItem => "recommendation-item"
    case RecommendationHeader => "recommendation-header"
    case Recommender => "recommender"
    case RecommenderName => "recommender-name"
    case Relationship => "relationship"
    case RecommendationContent => "recommendation-content"
  }

  /** One piece of markup: the text of a template line after its indentation. */
  datatype Piece =
    | Text(s: string)                          // a field value, or nothing
    | Open(tag: Tag, cls: Cls)                 // <tag class="cls">
    | Close(tag: Tag)                          // </tag>
    | Elem(tag: Tag, cls: Cls, body: string)   // <tag class="cls">body</tag>
    | Plain(tag: Tag, body: string)            // <tag>body</tag>
    | Icon(cls: Cls, after: string)            // <i class="cls"></i> after

  function OpenText(tag: Tag, cls: Cls): string {
    "<" + TagName(tag) + " class=\"" + ClassName(cls) + "\">"
  }

  function CloseText(tag: Tag): string {
    "</" + TagName(tag) + ">"
  }

  function PieceText(pc: Piece): string {
    match pc
    case Text(s) => s
    case Open(tag, cls) => OpenText(tag, cls)
    case Close(tag) => CloseText(tag)
    case Elem(tag, cls, body) => OpenText(tag, cls) + body + CloseText(tag)
    case Plain(tag, body) => "<" + TagName(tag) + ">" + body + CloseText(tag)
    case Icon(cls, after) => OpenText(I, cls) + CloseText(I) + " " + after
  }

  /** One line of the template: its indentation in spaces and the markup after it. */
  datatype Line = Line(indent: nat, piece: Piece)

  function RenderLine(ln: Line): seq<string> {
    [Indent(ln.indent) + PieceText(ln.piece)]
  }

  function Render(lines: seq<Line>): seq<string> {
    FlatMap(lines, RenderLine)
  }

  /** A line holding nothing but its indentation. */
  function Blank(indent: nat): Line {
    Line(indent, Text(""))
  }

  /** A `<section>`: its opening tag, its `<h3>` title and the lines between title and closing tag. */
  datatype SectionSpec = SectionSpec(opening: Piece, title: string, body: seq<Line>)

  function SectionLines(s: SectionSpec): seq<Line> {
    [Line(8, s.opening), Line(12, Plain(H3, s.title))] + s.body + [Line(8, Close(Section))]
  }

  /**
    A `<div>` holding `''.join(...)` of multi-line items.  The join starts on a line of 16
    spaces and every item ends with such a line, so each item is a run of whole lines.
   */
  function ItemList<T>(cls: Cls, items: seq<T>, item: T -> seq<Line>): seq<Line> {
    [Line(12, Open(Div, cls)), Blank(16)] + FlatMap(items, item) + [Line(12, Close(Div))]
  }

  /** `''.join(f'<span class="{cls}">{x}</span>' for x in xs)`. */
  function Spans(cls: Cls, xs: seq<string>): string {
    if xs == [] then "" else Spans(cls, xs[..|xs| - 1]) + PieceText(Elem(Span, cls, xs[|xs| - 1]))
  }

  function ExperienceBlock(e: Experience): seq<Line> {
    [Line(16, Open(Div, ExperienceItem)),
     Line(20, Open(Div, ExperienceHeader)),
     Line(24, Plain(H4, e.title)),
     Line(24, Elem(Div, CompanyName, e.company)),
     Line(24, Elem(Div, Duration, e.duration)),
     Line(20, Close(Div)),
     Line(20, Open(Div, ExperienceDescription)),
     Line(24, Text(DescriptionText(e))),
     Line(20, Close(Div)),
     Line(16, Close(Div)),
     Blank(16)]
  }

  function EducationBlock(e: Education): seq<Line> {
    [Line(16, Open(Div, EducationItem)),
     Line(20, Open(Div, EducationHeader)),
     Line(24, Plain(H4, e.school)),
     Line(24, Open(Div, Degree)),
     Line(28, Text(DegreeText(e))),
     Line(24, Close(Div)),
     Line(24, if Truthy(e.years) then Elem(Div, Years, e.years.value) else Text("")),
     Line(20, Close(Div)),
     Line(16, Close(Div)),
     Blank(16)]
  }

  function CertificationBlock(c: Certification): seq<Line> {
    [Line(16, Open(Div, CertificationItem)),
     Line(20, Plain(H4, c.name)),
     Line(20, Open(Div, CertificationMeta)),
     Line(24, Elem(Span, Issuer, "Issued by " + c.issuer)),
     Line(24, if Truthy(c.date) then Elem(Span, Date, c.date.value) else Text("")),
     Line(20, Close(Div)),
     Line(16, Close(Div)),
     Blank(16)]
  }

  function RecommendationBlock(r: Recommendation): seq<Line> {
    [Line(16, Open(Div, RecommendationItem)),
     Line(20, Open(Div, RecommendationHeader)),
     Line(24, Open(Div, Recommender)),
     Line(28, Elem(Span, RecommenderName, r.author)),
     Line(28, Elem(Span, Relationship, "(" + r.relationship + ")")),
     Line(24, Close(Div)),
     Line(20, Close(Div)),
     Line(20, Open(Div, RecommendationContent)),
     Line(24, Text("\"" + r.text + "\"")),
     Line(20, Close(Div)),
     Line(16, Close(Div)),
     Blank(16)]
  }

  /** The first template up to its `</header>`: an empty first line (the template opens with a line break), then the header. */
  function HeaderBlock(p: LinkedInProfile): seq<Line> {
    [Blank(0),
     Line(4, Open(Div, ProfileContainer)),
     Line(8, Open(Header, ProfileHeader)),
     Line(12, Elem(H1, ProfileName, p.name)),
     Line(12, Elem(H2, ProfileHeadline, p.headline)),
     Line(12, Open(Div, ProfileLocation)),
     Line(16, Icon(MapMarker, p.location)),
     Line(12, Close(Div)),
     Line(8, Close(Header))]
  }

  function AboutSection(p: LinkedInProfile): SectionSpec {
    SectionSpec(Open(Section, ProfileSection), "About",
      [Line(12, Open(Div, ProfileAbout)), Line(16, Text(p.about)), Line(12, Close(Div))])
  }

  function ExperienceSection(p: LinkedInProfile): SectionSpec {
    SectionSpec(Open(Section, ProfileSection), "Experience",
      ItemList(ExperienceList, p.experience, ExperienceBlock))
  }

  function EducationSection(p: LinkedInProfile): SectionSpec {
    SectionSpec(Open(Section, ProfileSection), "Education",
      ItemList(EducationList, p.education, EducationBlock))
  }

  /** The sections of the first template. */
  function BaseSections(p: LinkedInProfile): seq<SectionSpec> {
    [AboutSection(p), ExperienceSection(p), EducationSection(p)]
  }

  function SkillsPart(p: LinkedInProfile): seq<SectionSpec> {
    if p.skills != [] then
      [SectionSpec(Open(Section, ProfileSection), "Skills",
         [Line(12, Open(Div, SkillsList)), Line(16, Text(Spans(SkillTag, p.skills))),
          Line(12, Close(Div))])]
    else []
  }

  function CertificationsPart(p: LinkedInProfile): seq<SectionSpec> {
    if NonEmpty(p.certifications) then
      [SectionSpec(Open(Section, ProfileSection), "Certifications",
         ItemList(CertificationsList, p.certifications.value, CertificationBlock))]
    else []
  }

  function LanguagesPart(p: LinkedInProfile): seq<SectionSpec> {
    if NonEmpty(p.languages) then
      [SectionSpec(Open(Section, ProfileSection), "Languages",
         [Line(12, Open(Div, LanguagesList)), Line(16, Text(Spans(LanguageTag, p.languages.value))),
          Line(12, Close(Div))])]
    else []
  }

  function RecommendationsPart(p: LinkedInProfile): seq<SectionSpec> {
    if NonEmpty(p.recommendations) then
      [SectionSpec(Open(Section, RecommendationsSection), "Recommendations",
         ItemList(RecommendationsList, p.recommendations.value, RecommendationBlock))]
    else []
  }

  /** The sections of the fragment: the first template's, then the `html += ...` ones that are present. */
  function AllSections(p: LinkedInProfile): seq<SectionSpec> {
    BaseSections(p) + SkillsPart(p) + CertificationsPart(p) + LanguagesPart(p) + RecommendationsPart(p)
  }

  /**
    The indentation of the line that precedes section `i`.  The three sections of the first
    template are separated by empty lines; that template ends on a line of 4 spaces and every
    appended section on a line of 8, which the next section's leading line break ends (or on
    which the final `</div>` is written).
   */
  function Gap(i: nat): (r: nat)
    ensures r < 12
  {
    if i < 3 then 0 else if i == 3 then 4 else 8
  }

  /** Sections `i`, `i + 1`, ... each after its gap line, then the closing `</div>`. */
  function SectionRun(i: nat, sections: seq<SectionSpec>): seq<Line>
    decreases |sections|
  {
    if sections == [] then [Line(Gap(i), Close(Div))]
    else [Blank(Gap(i))] + SectionLines(sections[0]) + SectionRun(i + 1, sections[1..])
  }

  function HtmlLines(p: LinkedInProfile): seq<Line> {
    HeaderBlock(p) + SectionRun(0, AllSections(p))
  }

  function Html(p: LinkedInProfile): string {
    Join(Render(HtmlLines(p)), "\n")
  }

  // ---------------------------------------------------------------------------------------
  // The lines of the fragment
  // ---------------------------------------------------------------------------------------

  lemma {:induction false} RenderIndex(lines: seq<Line>)
    ensures |Render(lines)| == |lines|
    ensures forall i :: 0 <= i < |lines| ==> Render(lines)[i] == Indent(lines[i].indent) + PieceText(lines[i].piece)
    decreases |lines|
  {
    if lines != [] {
      RenderIndex(lines[..|lines| - 1]);
    }
  }

  lemma RenderAppend(a: seq<Line>, b: seq<Line>)
    ensures Render(a + b) == Render(a) + Render(b)
  {
    FlatMapAppend(a, b, RenderLine);
  }

  // ---------------------------------------------------------------------------------------
  // Section titles
  // ---------------------------------------------------------------------------------------

  /** A line that reads as a section title: twelve spaces, `<h3>`, the title and `</h3>`. */
  predicate IsH3(l: string) {
    |l| >= 21 && (forall i | 0 <= i < 12 :: l[i] == ' ') && l[12..16] == "<h3>" && l[|l| - 5..] == "</h3>"
  }

  /** The titles of the title lines, in order. */
  function H3Titles(lines: seq<string>): seq<string> {
    if lines == [] then []
    else
      var last := lines[|lines| - 1];
      H3Titles(lines[..|lines| - 1]) + (if IsH3(last) then [last[16..|last| - 5]] else [])
  }

  lemma {:induction false} H3TitlesAppend(a: seq<string>, b: seq<string>)
    ensures H3Titles(a + b) == H3Titles(a) + H3Titles(b)
    decreases |b|
  {
    if b == [] {
      assert a + b == a;
    } else {
      assert (a + b)[..|a + b| - 1] == a + b[..|b| - 1];
      H3TitlesAppend(a, b[..|b| - 1]);
    }
  }

  /**
    A template line that cannot read as a title: deeper than twelve spaces, shallower and
    starting with a tag (or empty), or at twelve spaces with markup other than `<h3>title</h3>`.
   */
  predicate NotTitle(ln: Line) {
    ln.indent > 12
    || (ln.indent < 12 && (ln.piece == Text("") || !ln.piece.Text?))
    || (ln.indent == 12 && !ln.piece.Text? && !(ln.piece.Plain? && ln.piece.tag == H3))
  }

  /** `"<" + name` followed by the character after the element name. */
  predicate TagStart(t: string, tag: Tag, after: char) {
    var n := TagName(tag);
    |t| > |n| + 1 && t[0] == '<' && t[1..|n| + 1] == n && t[|n| + 1] == after
  }

  lemma OpenStart(tag: Tag, cls: Cls)
    ensures TagStart(OpenText(tag, cls), tag, ' ')
  {
    OpenShape(TagName(tag), ClassName(cls));
  }

  /** An opening tag with a class, for any element and class name. */
  lemma OpenShape(n: string, c: string)
    ensures var t := "<" + n + " class=\"" + c + "\">";
      |t| > |n| + 1 && t[0] == '<' && t[1..|n| + 1] == n && t[|n| + 1] == ' '
  {
    var t := "<" + n + " class=\"" + c + "\">";
    assert t == "<" + n + [' '] + ("class=\"" + c + "\">");
    NameThen(n, ' ', "class=\"" + c + "\">");
  }

  lemma PlainStart(tag: Tag, body: string)
    ensures TagStart(PieceText(Plain(tag, body)), tag, '>')
  {
    NameThen(TagName(tag), '>', body + CloseText(tag));
    assert PieceText(Plain(tag, body)) == "<" + TagName(tag) + ['>'] + (body + CloseText(tag));
  }

  /** `"<" + n` followed by `after`: the shape `TagStart` asks for, for any element name. */
  lemma NameThen(n: string, after: char, rest: string)
    ensures var t := "<" + n + [after] + rest;
      |t| > |n| + 1 && t[0] == '<' && t[1..|n| + 1] == n && t[|n| + 1] == after
  {
    var t := "<" + n + [after] + rest;
    assert t[1..|n| + 1] == n;
  }

  /** Differs from `"<h3>"` at the second, third or fourth character. */
  predicate NotH3Start(t: string) {
    (|t| > 1 && t[1] != 'h') || (|t| > 2 && t[2] != '3') || (|t| > 3 && t[3] != '>')
  }

  lemma TagNotH3(t: string, tag: Tag, after: char)
    requires TagStart(t, tag, after)
    requires tag == H3 ==> after != '>'
    ensures NotH3Start(t)
  {
    var n := TagName(tag);
    assert t[1] == n[0];
    if n[0] == 'h' {
      assert t[2] == n[1];
    }
  }

  lemma OpenNotH3(tag: Tag, cls: Cls)
    ensures NotH3Start(OpenText(tag, cls))
  {
    OpenStart(tag, cls);
    TagNotH3(OpenText(tag, cls), tag, ' ');
  }

  /** Whatever follows a start that differs from `"<h3>"` leaves it differing. */
  lemma NotH3Extend(t: string, rest: string)
    requires NotH3Start(t)
    ensures NotH3Start(t + rest)
  {
  }

  /** Markup other than an `<h3>` element does not start like one. */
  lemma NotH3Markup(pc: Piece)
    requires !pc.Text? && !(pc.Plain? && pc.tag == H3)
    ensures NotH3Start(PieceText(pc))
  {
    match pc
    case Open(tag, cls) =>
      OpenNotH3(tag, cls);
    case Elem(tag, cls, body) =>
      OpenNotH3(tag, cls);
      NotH3Extend(OpenText(tag, cls), body);
      NotH3Extend(OpenText(tag, cls) + body, CloseText(tag));
    case Plain(tag, body) =>
      PlainStart(tag, body);
      TagNotH3(PieceText(pc), tag, '>');
    case Close(tag) =>
      assert CloseText(tag)[1] == '/';
    case Icon(cls, after) =>
      OpenNotH3(I, cls);
      NotH3Extend(OpenText(I, cls), CloseText(I));
      NotH3Extend(OpenText(I, cls) + CloseText(I), " ");
      NotH3Extend(OpenText(I, cls) + CloseText(I) + " ", after);
  }

  lemma TagFirst(pc: Piece)
    requires !pc.Text?
    ensures |PieceText(pc)| >= 1 && PieceText(pc)[0] == '<'
  {
  }

  lemma NotTitleRender(ln: Line)
    requires NotTitle(ln)
    ensures !IsH3(Indent(ln.indent) + PieceText(ln.piece))
  {
    var t := PieceText(ln.piece);
    var l := Indent(ln.indent) + t;
    var h := Indent(12) + "<h3>";
    if ln.indent > 12 {
      NotStartsWithAt(l, h, 12);
    } else if ln.indent < 12 {
      if ln.piece.Text? {
        assert |l| < 21;
      } else {
        TagFirst(ln.piece);
        NotStartsWithAt(l, h, ln.indent);
      }
    } else {
      NotH3Markup(ln.piece);
      if t[1] != 'h' {
        NotStartsWithAt(l, h, 13);
      } else if t[2] != '3' {
        NotStartsWithAt(l, h, 14);
      } else {
        NotStartsWithAt(l, h, 15);
      }
    }
  }

  lemma TitleRender(title: string)
    ensures var l := Indent(12) + PieceText(Plain(H3, title)); IsH3(l) && l[16..|l| - 5] == title
  {
    var l := Indent(12) + PieceText(Plain(H3, title));
    assert l == Indent(12) + "<h3>" + title + "</h3>";
    assert l[..16] == Indent(12) + "<h3>";
    assert l[|l| - 5..] == "</h3>";
    assert l[16..|l| - 5] == title;
  }

  predicate NoTitles(lines: seq<Line>) {
    forall ln | ln in lines :: NotTitle(ln)
  }

  lemma {:induction false} NoTitlesRender(lines: seq<Line>)
    requires NoTitles(lines)
    ensures H3Titles(Render(lines)) == []
    decreases |lines|
  {
    if lines != [] {
      var n := |lines| - 1;
      assert lines[n] in lines;
      NoTitlesRender(lines[..n]);
      FlatMapSnoc(lines, n, RenderLine);
      assert lines[..n + 1] == lines;
      H3TitlesAppend(Render(lines[..n]), RenderLine(lines[n]));
      NotTitleRender(lines[n]);
      assert RenderLine(lines[n])[..0] == [];
    }
  }

  lemma RenderTitlesAppend(a: seq<Line>, b: seq<Line>)
    ensures H3Titles(Render(a + b)) == H3Titles(Render(a)) + H3Titles(Render(b))
  {
    RenderAppend(a, b);
    H3TitlesAppend(Render(a), Render(b));
  }

  /** A section whose only title line is its `<h3>`: it opens with a tag and its body has none. */
  predicate TitledOnce(s: SectionSpec) {
    !s.opening.Text? && NoTitles(s.body)
  }

  lemma SectionTitle(s: SectionSpec)
    requires TitledOnce(s)
    ensures H3Titles(Render(SectionLines(s))) == [s.title]
  {
    var a := [Line(8, s.opening)];
    var t := [Line(12, Plain(H3, s.title))];
    var c := [Line(8, Close(Section))];
    assert SectionLines(s) == a + t + s.body + c;
    RenderTitlesAppend(a + t + s.body, c);
    RenderTitlesAppend(a + t, s.body);
    RenderTitlesAppend(a, t);
    NoTitlesRender(a);
    NoTitlesRender(s.body);
    NoTitlesRender(c);
    TitleRender(s.title);
    assert Render(t) == [Indent(12) + PieceText(Plain(H3, s.title))] by {
      assert t == [] + [t[0]];
    }
    assert H3Titles(Render(t)) == H3Titles([] + Render(t));
  }

  /** The titles of the given sections, in order. */
  function Titles(sections: seq<SectionSpec>): (r: seq<string>)
    ensures |r| == |sections|
  {
    if sections == [] then [] else Titles(sections[..|sections| - 1]) + [sections[|sections| - 1].title]
  }

  lemma {:induction false} TitlesAppend(a: seq<SectionSpec>, b: seq<SectionSpec>)
    ensures Titles(a + b) == Titles(a) + Titles(b)
    decreases |b|
  {
    if b == [] {
      assert a + b == a;
    } else {
      assert (a + b)[..|a + b| - 1] == a + b[..|b| - 1];
      TitlesAppend(a, b[..|b| - 1]);
    }
  }

  lemma {:induction false} TitlesCons(s: SectionSpec, rest: seq<SectionSpec>)
    ensures Titles([s] + rest) == [s.title] + Titles(rest)
  {
    TitlesAppend([s], rest);
    assert [s][..0] == [];
  }

  predicate AllTitledOnce(sections: seq<SectionSpec>) {
    forall i | 0 <= i < |sections| :: TitledOnce(sections[i])
  }

  lemma SectionStep(indent: nat, s: SectionSpec, rest: seq<Line>)
    requires indent < 12 && TitledOnce(s)
    ensures H3Titles(Render([Blank(indent)] + SectionLines(s) + rest)) == [s.title] + H3Titles(Render(rest))
  {
    var head := [Blank(indent)];
    SectionTitle(s);
    NoTitlesRender(head);
    RenderTitlesAppend(head + SectionLines(s), rest);
    RenderTitlesAppend(head, SectionLines(s));
  }

  /** A run of well-formed sections has exactly their titles as title lines. */
  lemma {:induction false} SectionRunTitles(i: nat, sections: seq<SectionSpec>)
    requires AllTitledOnce(sections)
    ensures H3Titles(Render(SectionRun(i, sections))) == Titles(sections)
    decreases |sections|
  {
    if sections == [] {
      NoTitlesRender(SectionRun(i, sections));
    } else {
      SectionRunTitles(i + 1, sections[1..]);
      SectionStep(Gap(i), sections[0], SectionRun(i + 1, sections[1..]));
      TitlesCons(sections[0], sections[1..]);
      assert [sections[0]] + sections[1..] == sections;
    }
  }

  lemma ItemListNoTitles<T>(cls: Cls, items: seq<T>, item: T -> seq<Line>)
    requires forall x, ln | x in items && ln in item(x) :: ln.indent > 12
    ensures NoTitles(ItemList(cls, items, item))
  {
    forall ln | ln in FlatMap(items, item) ensures NotTitle(ln) {
      FlatMapMember(items, item, ln);
    }
  }

  lemma BlocksAreIndented()
    ensures forall e, ln | ln in ExperienceBlock(e) :: ln.indent > 12
    ensures forall e, ln | ln in EducationBlock(e) :: ln.indent > 12
    ensures forall c, ln | ln in CertificationBlock(c) :: ln.indent > 12
    ensures forall r, ln | ln in RecommendationBlock(r) :: ln.indent > 12
  {
  }

  lemma HeaderNoTitles(p: LinkedInProfile)
    ensures NoTitles(HeaderBlock(p))
  {
  }

  lemma AllTitledOnceAppend(a: seq<SectionSpec>, b: seq<SectionSpec>)
    requires AllTitledOnce(a) && AllTitledOnce(b)
    ensures AllTitledOnce(a + b)
  {
    forall i | 0 <= i < |a + b| ensures TitledOnce((a + b)[i]) {
      if i >= |a| {
        assert (a + b)[i] == b[i - |a|];
      }
    }
  }

  lemma BaseTitled(p: LinkedInProfile)
    ensures AllTitledOnce(BaseSections(p))
  {
    BlocksAreIndented();
    ItemListNoTitles(ExperienceList, p.experience, ExperienceBlock);
    ItemListNoTitles(EducationList, p.education, EducationBlock);
  }

  lemma OptionalPartsTitled(p: LinkedInProfile)
    ensures AllTitledOnce(SkillsPart(p)) && AllTitledOnce(CertificationsPart(p))
    ensures AllTitledOnce(LanguagesPart(p)) && AllTitledOnce(RecommendationsPart(p))
  {
    BlocksAreIndented();
    ItemListNoTitles(CertificationsList, Items(p.certifications), CertificationBlock);
    ItemListNoTitles(RecommendationsList, Items(p.recommendations), RecommendationBlock);
  }

  lemma AllTitled(p: LinkedInProfile)
    ensures AllTitledOnce(AllSections(p))
  {
    var a, b, c, d := SkillsPart(p), CertificationsPart(p), LanguagesPart(p), RecommendationsPart(p);
    BaseTitled(p);
    OptionalPartsTitled(p);
    AllTitledOnceAppend(BaseSections(p), a);
    AllTitledOnceAppend(BaseSections(p) + a, b);
    AllTitledOnceAppend(BaseSections(p) + a + b, c);
    AllTitledOnceAppend(BaseSections(p) + a + b + c, d);
  }

  lemma PartTitles(part: seq<SectionSpec>)
    requires |part| <= 1
    ensures Titles(part) == if part == [] then [] else [part[0].title]
  {
    if part != [] {
      assert part[..0] == [];
    }
  }

  lemma PartsTitles(p: LinkedInProfile)
    ensures Titles(SkillsPart(p)) == if p.skills != [] then ["Skills"] else []
    ensures Titles(CertificationsPart(p)) == if NonEmpty(p.certifications) then ["Certifications"] else []
    ensures Titles(LanguagesPart(p)) == if NonEmpty(p.languages) then ["Languages"] else []
    ensures Titles(RecommendationsPart(p)) == if NonEmpty(p.recommendations) then ["Recommendations"] else []
  {
    PartTitles(SkillsPart(p));
    PartTitles(CertificationsPart(p));
    PartTitles(LanguagesPart(p));
    PartTitles(RecommendationsPart(p));
  }

  lemma BaseSectionTitles(p: LinkedInProfile)
    ensures Titles(BaseSections(p)) == ["About", "Experience", "Education"]
  {
    var base := BaseSections(p);
    TitlesCons(base[0], base[1..]);
    TitlesCons(base[1], base[2..]);
    TitlesCons(base[2], []);
    assert base == [base[0]] + ([base[1]] + ([base[2]] + []));
  }

  /** The sections present are the ones `SectionTitles` names, in the same order. */
  lemma SectionsPresent(p: LinkedInProfile)
    ensures Titles(AllSections(p)) == SectionTitles(p)
  {
    var base := BaseSections(p);
    var a, b, c, d := SkillsPart(p), CertificationsPart(p), LanguagesPart(p), RecommendationsPart(p);
    BaseSectionTitles(p);
    PartsTitles(p);
    TitlesAppend(base + a + b + c, d);
    TitlesAppend(base + a + b, c);
    TitlesAppend(base + a, b);
    TitlesAppend(base, a);
  }

  /**
    The `<h3>` lines of the fragment name its sections in order: About, Experience and
    Education always, then each optional section exactly when its list is non-empty.
   */
  lemma HtmlSectionTitles(p: LinkedInProfile)
    ensures H3Titles(Render(HtmlLines(p))) == SectionTitles(p)
  {
    var secs := AllSections(p);
    HeaderNoTitles(p);
    NoTitlesRender(HeaderBlock(p));
    AllTitled(p);
    SectionRunTitles(0, secs);
    SectionsPresent(p);
    RenderTitlesAppend(HeaderBlock(p), SectionRun(0, secs));
  }

  // ---------------------------------------------------------------------------------------
  // The shape of the fragment
  // ---------------------------------------------------------------------------------------

  lemma {:induction false} SectionRunLast(i: nat, sections: seq<SectionSpec>)
    ensures var run := SectionRun(i, sections); |run| >= 1 && run[|run| - 1] == Line(Gap(i + |sections|), Close(Div))
    decreases |sections|
  {
    if sections != [] {
      SectionRunLast(i + 1, sections[1..]);
    }
  }

  lemma HeaderRendered(p: LinkedInProfile)
    ensures var r := Render(HeaderBlock(p));
      |r| == 9
      && r[0] == ""
      && r[1] == Indent(4) + PieceText(Open(Div, ProfileContainer))
      && r[3] == Indent(12) + PieceText(Elem(H1, ProfileName, p.name))
      && r[4] == Indent(12) + PieceText(Elem(H2, ProfileHeadline, p.headline))
      && r[6] == Indent(16) + PieceText(Icon(MapMarker, p.location))
  {
    RenderIndex(HeaderBlock(p));
  }

  lemma AboutRendered(p: LinkedInProfile)
    ensures var r := Render(SectionRun(0, AllSections(p))); |r| > 4 && r[4] == Indent(16) + p.about
  {
    var body := [Line(12, Open(Div, ProfileAbout)), Line(16, Text(p.about)), Line(12, Close(Div))];
    var run := SectionRun(0, AllSections(p));
    assert AllSections(p)[0] == AboutSection(p);
    assert run[4] == Line(16, Text(p.about));
    RenderIndex(run);
  }

  lemma RenderedLast(p: LinkedInProfile)
    ensures var r := Render(SectionRun(0, AllSections(p)));
      |r| >= 1 && r[|r| - 1] == Indent(Gap(|AllSections(p)|)) + CloseText(Div)
  {
    var run := SectionRun(0, AllSections(p));
    SectionRunLast(0, AllSections(p));
    RenderIndex(run);
  }

  /** Lines `h + t` joined by line breaks, where `h` opens with an empty line. */
  lemma JoinedShape(h: seq<string>, t: seq<string>)
    requires |h| >= 2 && h[0] == "" && |t| >= 1
    ensures StartsWith(Join(h + t, "\n"), "\n" + h[1])
    ensures EndsWith(Join(h + t, "\n"), t[|t| - 1])
  {
    var r := h + t;
    assert r[0] == "" && r[1] == h[1] && r[|r| - 1] == t[|t| - 1];
    JoinStart(r, "\n");
    assert "" + "\n" + h[1] == "\n" + h[1];
    JoinEnd(r, "\n");
  }

  /**
    The fragment is one `<div class="profile-container">` opened on its second line (the
    template starts with a line break) and closed by the final `</div>`; there is no
    document head or body around it.
   */
  lemma HtmlFragmentShape(p: LinkedInProfile)
    ensures StartsWith(Html(p), "\n" + Indent(4) + OpenText(Div, ProfileContainer))
    ensures EndsWith(Html(p), CloseText(Div))
  {
    var h, t := Render(HeaderBlock(p)), Render(SectionRun(0, AllSections(p)));
    RenderAppend(HeaderBlock(p), SectionRun(0, AllSections(p)));
    HeaderRendered(p);
    RenderedLast(p);
    JoinedShape(h, t);
    assert "\n" + (Indent(4) + OpenText(Div, ProfileContainer)) == "\n" + Indent(4) + OpenText(Div, ProfileContainer);
    EndsWithSuffix(Html(p), Indent(Gap(|AllSections(p)|)), CloseText(Div));
  }

  /**
    Field values are written into the fragment as they are, without HTML escaping: the
    name, headline and location appear verbatim between the markup of their lines ...
   */
  lemma HtmlHeaderUnescaped(p: LinkedInProfile)
    ensures var r := Render(HtmlLines(p));
      |r| > 6
      && r[3] == Indent(12) + (OpenText(H1, ProfileName) + p.name + CloseText(H1))
      && r[4] == Indent(12) + (OpenText(H2, ProfileHeadline) + p.headline + CloseText(H2))
      && r[6] == Indent(16) + (OpenText(I, MapMarker) + CloseText(I) + " " + p.location)
  {
    var head, run := HeaderBlock(p), SectionRun(0, AllSections(p));
    RenderAppend(head, run);
    HeaderRendered(p);
    HeadOf(Render(HtmlLines(p)), Render(head), Render(run));
  }

  /** The lines before `|a|` of `a + b` are those of `a`. */
  lemma HeadOf<T>(r: seq<T>, a: seq<T>, b: seq<T>)
    requires r == a + b
    ensures |r| >= |a| && forall i | 0 <= i < |a| :: r[i] == a[i]
  {
  }

  /** ... and so does the about text. */
  lemma HtmlAboutUnescaped(p: LinkedInProfile)
    ensures var r := Render(HtmlLines(p)); |r| > 13 && r[13] == Indent(16) + p.about
  {
    RenderAppend(HeaderBlock(p), SectionRun(0, AllSections(p)));
    HeaderRendered(p);
    AboutRendered(p);
  }

  /** Volunteer entries never reach the fragment. */
  lemma HtmlIgnoresVolunteer(p: LinkedInProfile, v: Option<seq<Volunteer>>)
    ensures Html(p.(volunteer := v)) == Html(p)
  {
    var q := p.(volunteer := v);
    assert HeaderBlock(q) == HeaderBlock(p);
    assert AllSections(q) == AllSections(p);
  }
}
