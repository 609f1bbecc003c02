/**
  `markdown_to_docx`: the text is split on line breaks and every line is classified by
  its prefix into at most one paragraph.
 */
module MarkdownDocx {
  import opened Strings
  import opened Docx

  /** The prefix tests of the classifier, in the order the source makes them. */
  datatype LineKind = HeadingLine(level: nat) | BulletLine | OtherLine

  /** The marker of a heading line of the given level: `"# "`, `"## "`, `"### "`, `"#### "`. */
  function HeadingMark(level: nat): (r: string)
    requires level <= 3
    ensures |r| == level + 2 && r[level + 1] == ' '
    ensures forall i :: 0 <= i <= level ==> r[i] == '#'
  {
    if level == 0 then "# " else if level == 1 then "## " else if level == 2 then "### " else "#### "
  }

  function KindOf(line: string): (r: LineKind)
    ensures r.HeadingLine? ==> r.level <= 3 && StartsWith(line, HeadingMark(r.level))
    ensures r.BulletLine? ==> StartsWith(line, "- ")
  {
    if StartsWith(line, "# ") then HeadingLine(0)
    else if StartsWith(line, "## ") then HeadingLine(1)
    else if StartsWith(line, "### ") then HeadingLine(2)
    else if StartsWith(line, "#### ") then HeadingLine(3)
    else if StartsWith(line, "- ") then BulletLine
    else OtherLine
  }

  /** The runs of an inline-bold line: non-empty pieces of `line.split('**')`, bold at odd positions. */
  function InlineRuns(parts: seq<string>): seq<Run> {
    if parts == [] then []
    else
      var n := |parts| - 1;
      InlineRuns(parts[..n]) + (if parts[n] != "" then [Run(parts[n], bold := n % 2 == 1)] else [])
  }

  /** The paragraph (if any) that one Markdown line becomes. */
  function ClassifyLine(line: string): (r: seq<Paragraph>)
    ensures |r| <= 1
  {
    match KindOf(line)
    case HeadingLine(level) => [Paragraph(Heading(level), TextRuns(line[level + 2..]))]
    case BulletLine => [Paragraph(ListBullet, TextRuns(line[2..]))]
    case OtherLine =>
      if StartsWith(line, "*") && EndsWith(line, "*") then
        [Paragraph(Normal, [Run(StripChar(line, '*'), italic := true)])]
      else if StartsWith(line, "**") && EndsWith(line, "**") then
        [Paragraph(Normal, [Run(StripChar(line, '*'), bold := true)])]
      else if Contains(line, "**") then
        [Paragraph(Normal, InlineRuns(SplitOn(line, "**")))]
      else if !Blank(line) then
        [Paragraph(Normal, [Run(line)])]
      else []
  }

  function Paragraphs(lines: seq<string>): seq<Paragraph> {
    FlatMap(lines, ClassifyLine)
  }

  /** The document built from a Markdown text. */
  function DocxOf(content: string): seq<Paragraph> {
    Paragraphs(SplitOn(content, "\n"))
  }

  /** The loop of `markdown_to_docx`, adding one paragraph (or none) per line. */
  method MarkdownToDocx(content: string) returns (doc: seq<Paragraph>)
    ensures doc == DocxOf(content)
  {
    var lines := SplitOn(content, "\n");
    doc := [];
    for i := 0 to |lines|
      invariant doc == Paragraphs(lines[..i])
    {
      FlatMapSnoc(lines, i, ClassifyLine);
      doc := AddLine(doc, lines[i]);
    }
    assert lines[..|lines|] == lines;
  }

  /** The body of the loop: the `if`/`elif` chain over one line; the prefix tests come first. */
  method AddLine(doc0: seq<Paragraph>, line: string) returns (doc: seq<Paragraph>)
    ensures doc == doc0 + ClassifyLine(line)
  {
    doc := doc0;
    if StartsWith(line, "# ") {
      doc := doc + [Paragraph(Heading(0), TextRuns(line[2..]))];
    } else if StartsWith(line, "## ") {
      doc := doc + [Paragraph(Heading(1), TextRuns(line[3..]))];
    } else if StartsWith(line, "### ") {
      doc := doc + [Paragraph(Heading(2), TextRuns(line[4..]))];
    } else if StartsWith(line, "#### ") {
      doc := doc + [Paragraph(Heading(3), TextRuns(line[5..]))];
    } else if StartsWith(line, "- ") {
      doc := doc + [Paragraph(ListBullet, TextRuns(line[2..]))];
    } else {
      doc := AddOtherLine(doc0, line);
    }
  }

  /** The rest of the chain, for a line with no heading or bullet marker (`line.strip()` is the blank test). */
  method AddOtherLine(doc0: seq<Paragraph>, line: string) returns (doc: seq<Paragraph>)
    requires KindOf(line) == OtherLine
    ensures doc == doc0 + ClassifyLine(line)
  {
    doc := doc0;
    var blank := IsBlank(line);
    if StartsWith(line, "*") && EndsWith(line, "*") {
      doc := doc + [Paragraph(Normal, [Run(StripChar(line, '*'), italic := true)])];
    } else if StartsWith(line, "**") && EndsWith(line, "**") {
      doc := doc + [Paragraph(Normal, [Run(StripChar(line, '*'), bold := true)])];
    } else if Contains(line, "**") {
      var runs := BoldRuns(SplitOn(line, "**"));
      doc := doc + [Paragraph(Normal, runs)];
    } else if !blank {
      doc := doc + [Paragraph(Normal, [Run(line)])];
    } else {
      assert doc == doc0 + [];
    }
  }

  /** `for i, part in enumerate(parts): if part: p.add_run(part).bold = (i % 2 == 1)`. */
  method BoldRuns(parts: seq<string>) returns (runs: seq<Run>)
    ensures runs == InlineRuns(parts)
  {
    runs := [];
    for j := 0 to |parts|
      invariant runs == InlineRuns(parts[..j])
    {
      assert parts[..j + 1][..j] == parts[..j];
      if parts[j] != "" {
        runs := runs + [Run(parts[j], bold := j % 2 == 1)];
      }
    }
    assert parts[..|parts|] == parts;
  }

  // ---------------------------------------------------------------------------------------
  // What the classifier promises
  // ---------------------------------------------------------------------------------------

  /** The text a heading or bullet line contributes: the line without its marker. */
  function MarkedText(line: string): string {
    match KindOf(line)
    case HeadingLine(level) => line[level + 2..]
    case BulletLine => line[2..]
    case OtherLine => line
  }

  /** The marked texts of the lines of the given kind, in order. */
  function LinesOfKind(lines: seq<string>, kind: LineKind): seq<string> {
    if lines == [] then []
    else
      var last := lines[|lines| - 1];
      LinesOfKind(lines[..|lines| - 1], kind) + (if KindOf(last) == kind then [MarkedText(last)] else [])
  }

  /** The paragraph style a heading or bullet line gets. */
  function StyleOf(kind: LineKind): Style
    requires !kind.OtherLine?
  {
    if kind.HeadingLine? then Heading(kind.level) else ListBullet
  }

  lemma ClassifyOneStyle(line: string, kind: LineKind)
    requires !kind.OtherLine?
    ensures TextsWithStyle(ClassifyLine(line), StyleOf(kind))
         == if KindOf(line) == kind then [MarkedText(line)] else []
  {
    var r := ClassifyLine(line);
    if KindOf(line) == OtherLine {
      OtherLineNormal(line);
      if r != [] {
        TextsWithStyleOne(r[0], StyleOf(kind));
        assert r == [r[0]];
      }
    } else {
      MarkedLineParagraph(line);
      TextsWithStyleOne(r[0], StyleOf(kind));
    }
  }

  /** A heading or bullet line becomes one paragraph of its style holding the marked text. */
  lemma MarkedLineParagraph(line: string)
    requires KindOf(line) != OtherLine
    ensures ClassifyLine(line) == [Paragraph(StyleOf(KindOf(line)), TextRuns(MarkedText(line)))]
  {
  }

  /** Any other line becomes a `Normal` paragraph or nothing. */
  lemma OtherLineNormal(line: string)
    requires KindOf(line) == OtherLine
    ensures ClassifyLine(line) == [] || ClassifyLine(line)[0].style == Normal
  {
  }

  lemma TextsWithStyleOne(p: Paragraph, style: Style)
    ensures TextsWithStyle([p], style) == if p.style == style then [Text(p)] else []
  {
    assert [p][..0] == [];
  }

  /**
    Headings of each level and bullet items of the document are exactly the Markdown lines
    with the matching marker, in the same order and with the marker removed.
   */
  lemma {:induction false} StyledParagraphsAreMarkedLines(lines: seq<string>, kind: LineKind)
    requires !kind.OtherLine?
    ensures TextsWithStyle(Paragraphs(lines), StyleOf(kind)) == LinesOfKind(lines, kind)
    decreases |lines|
  {
    if lines != [] {
      var n := |lines| - 1;
      assert lines[..n + 1] == lines;
      FlatMapSnoc(lines, n, ClassifyLine);
      TextsWithStyleAppend(Paragraphs(lines[..n]), ClassifyLine(lines[n]), StyleOf(kind));
      StyledParagraphsAreMarkedLines(lines[..n], kind);
      ClassifyOneStyle(lines[n], kind);
    }
  }

  /** A line gives no paragraph exactly when it is empty or made only of whitespace. */
  lemma BlankLineIffNoParagraph(line: string)
    ensures ClassifyLine(line) == [] <==> Blank(line)
  {
    if Blank(line) && line != [] {
      BlankHasNoMarker(line);
    }
  }

  /** A blank line starts with white space, so no prefix test and no `**` test succeeds on it. */
  lemma BlankHasNoMarker(line: string)
    requires Blank(line) && line != []
    ensures KindOf(line) == OtherLine && !StartsWith(line, "*") && !Contains(line, "**")
  {
    assert IsSpace(line[0]);
    assert line[0] != '#' && line[0] != '-' && line[0] != '*';
    NotStartsWithAt(line, "*", 0);
    forall i: nat | i <= |line| ensures !OccursAt(line, "**", i) {
      if i + 2 <= |line| {
        assert line[i..i + 2][0] == line[i];
      }
    }
  }

  /**
    The italic test shadows the bold test: a non-heading, non-bullet line wrapped in `**`
    becomes one italic, non-bold run of the line with its asterisks stripped.
   */
  lemma WholeLineBoldIsItalic(line: string)
    requires KindOf(line) == OtherLine
    requires StartsWith(line, "**") && EndsWith(line, "**")
    ensures ClassifyLine(line) == [Paragraph(Normal, [Run(StripChar(line, '*'), bold := false, italic := true)])]
  {
    assert line[..1] == line[..2][..1];
    assert line[|line| - 1..] == line[|line| - 2..][1..];
  }

  /**
    The parity rule: every run of an inline-bold line is a non-empty piece of the split, and it is
    bold exactly when that piece sits at an odd position.
   */
  lemma {:induction false} InlineRunParity(parts: seq<string>, k: nat)
    requires k < |InlineRuns(parts)|
    ensures exists i | 0 <= i < |parts| ::
      parts[i] != "" && InlineRuns(parts)[k] == Run(parts[i], bold := i % 2 == 1)
    decreases |parts|
  {
    var n := |parts| - 1;
    var rs := InlineRuns(parts[..n]);
    if k < |rs| {
      InlineRunParity(parts[..n], k);
      var i :| 0 <= i < n && parts[..n][i] != "" && rs[k] == Run(parts[..n][i], bold := i % 2 == 1);
      assert parts[..n][i] == parts[i];
    } else {
      assert parts[n] != "" && InlineRuns(parts)[k] == Run(parts[n], bold := n % 2 == 1);
    }
  }

  /** Every non-empty piece of the split gives a run, so no text between the markers is lost. */
  lemma {:induction false} InlinePartHasRun(parts: seq<string>, i: nat)
    requires i < |parts| && parts[i] != ""
    ensures Run(parts[i], bold := i % 2 == 1) in InlineRuns(parts)
    decreases |parts|
  {
    var n := |parts| - 1;
    if i < n {
      InlinePartHasRun(parts[..n], i);
      assert parts[..n][i] == parts[i];
    }
  }

  /** The runs of an inline-bold line spell out the parts with the separators dropped. */
  lemma {:induction false} InlineRunsText(parts: seq<string>)
    ensures RunsText(InlineRuns(parts)) == Join(parts, "")
    decreases |parts|
  {
    if parts != [] {
      var n := |parts| - 1;
      InlineRunsText(parts[..n]);
      InlineRunsSnocText(parts);
      JoinLast(parts);
    }
  }

  /** The last part adds its own text (an empty part adds no run and no text). */
  lemma InlineRunsSnocText(parts: seq<string>)
    requires parts != []
    ensures RunsText(InlineRuns(parts)) == RunsText(InlineRuns(parts[..|parts| - 1])) + parts[|parts| - 1]
  {
    var n := |parts| - 1;
    var rs := InlineRuns(parts[..n]);
    if parts[n] != "" {
      assert InlineRuns(parts) == rs + [Run(parts[n], bold := n % 2 == 1)];
      RunsTextSnoc(rs, Run(parts[n], bold := n % 2 == 1));
    } else {
      assert InlineRuns(parts) == rs + [];
      assert rs + [] == rs;
    }
  }

  lemma JoinLast(parts: seq<string>)
    requires parts != []
    ensures Join(parts, "") == Join(parts[..|parts| - 1], "") + parts[|parts| - 1]
  {
    var n := |parts| - 1;
    JoinSnocEmpty(parts[..n], parts[n]);
    assert parts[..n] + [parts[n]] == parts;
  }

  /** Joining with no separator: the last part is simply appended. */
  lemma JoinSnocEmpty(init: seq<string>, x: string)
    ensures Join(init + [x], "") == Join(init, "") + x
  {
    JoinAppend(init, x, "");
  }

  lemma RunsTextSnoc(rs: seq<Run>, r: Run)
    ensures RunsText(rs + [r]) == RunsText(rs) + r.text
  {
    assert (rs + [r])[..|rs|] == rs;
  }

  /** The paragraph of an inline-bold line reads as the line with every `**` removed. */
  lemma InlineBoldText(line: string)
    requires KindOf(line) == OtherLine && Contains(line, "**")
    requires !(StartsWith(line, "*") && EndsWith(line, "*"))
    ensures |ClassifyLine(line)| == 1 && Text(ClassifyLine(line)[0]) == ReplaceEach(line, "**", "")
  {
    var parts := SplitOn(line, "**");
    assert ClassifyLine(line) == [Paragraph(Normal, InlineRuns(parts))];
    InlineRunsText(parts);
    JoinSplitReplace(line, "**", "");
  }
}
