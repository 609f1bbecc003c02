/**
  A Word document as python-docx builds it: a sequence of paragraphs, each with a
  style and a list of runs that carry bold and italic flags.
 */
module Docx {
  import opened Strings

  /** A run of text.  python-docx leaves `bold`/`italic` as `None` unless set; `None` renders as `false`. */
  datatype Run = Run(text: string, bold: bool := false, italic: bool := false)

  /** Paragraph styles; `Heading(0)` is python-docx's "Title" style. */
  datatype Style = Heading(level: nat) | ListBullet | Normal

  datatype Paragraph = Paragraph(style: Style, runs: seq<Run>)

  /** The style name python-docx gives each style (`add_heading` uses "Title" for level 0). */
  function StyleName(s: Style): (r: string)
    ensures s.Heading? && s.level > 0 ==> StartsWith(r, "Heading ")
  {
    match s
    case Heading(level) => if level == 0 then "Title" else "Heading " + NatToString(level)
    case ListBullet => "List Bullet"
    case Normal => "Normal"
  }

  /** `paragraph.text`: the concatenated text of its runs. */
  function RunsText(runs: seq<Run>): string {
    if runs == [] then "" else RunsText(runs[..|runs| - 1]) + runs[|runs| - 1].text
  }

  function Text(p: Paragraph): string {
    RunsText(p.runs)
  }

  /** `add_paragraph(text, style)` adds a run only when `text` is non-empty. */
  function TextRuns(text: string): (r: seq<Run>)
    ensures RunsText(r) == text
  {
    if text == "" then [] else [Run(text)]
  }

  /** The texts of the paragraphs with the given style, in document order. */
  function TextsWithStyle(doc: seq<Paragraph>, style: Style): seq<string> {
    if doc == [] then []
    else
      var last := doc[|doc| - 1];
      TextsWithStyle(doc[..|doc| - 1], style) + (if last.style == style then [Text(last)] else [])
  }

  lemma {:induction false} TextsWithStyleAppend(a: seq<Paragraph>, b: seq<Paragraph>, style: Style)
    ensures TextsWithStyle(a + b, style) == TextsWithStyle(a, style) + TextsWithStyle(b, style)
    decreases |b|
  {
    if b == [] {
      assert a + b == a;
    } else {
      assert (a + b)[..|a + b| - 1] == a + b[..|b| - 1];
      TextsWithStyleAppend(a, b[..|b| - 1], style);
    }
  }
}
