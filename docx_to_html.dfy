/**
  `DocxToHtmlConverter.convert_docx_to_html`: the paragraphs of a Word document become a
  list of HTML elements, chosen by the lower-cased style name, joined by line breaks.
  A paragraph is given as its text, its style name (absent when it has no style) and its runs.
 */
module DocxToHtml {
  import opened Wrappers
  import opened Strings

  /** A run; python-docx's `None` for `bold`/`italic` is falsy and is `false` here. */
  datatype DocRun = DocRun(text: string, bold: bool, italic: bool)

  datatype DocParagraph = DocParagraph(text: string, style: Option<string>, runs: seq<DocRun>)

  /** The elements the converter emits. */
  datatype Element =
    | NameHeading(text: string)       // <h1 class="profile-name">
    | HeadlineHeading(text: string)   // <h2 class="profile-headline">
    | SectionHeading(text: string)    // <h3>
    | ListOpen                        // <ul class="skills-list">
    | ListItem(text: string)          // <li class="skill-tag">
    | ListClose                       // </ul>
    | AboutParagraph(text: string)    // <p class="profile-about">

  function ElementText(e: Element): string {
    match e
    case NameHeading(t) => "<h1 class=\"profile-name\">" + t + "</h1>"
    case HeadlineHeading(t) => "<h2 class=\"profile-headline\">" + t + "</h2>"
    case SectionHeading(t) => "<h3>" + t + "</h3>"
    case ListOpen => "<ul class=\"skills-list\">"
    case ListItem(t) => "<li class=\"skill-tag\">" + t + "</li>"
    case ListClose => "</ul>"
    case AboutParagraph(t) => "<p class=\"profile-about\">" + t + "</p>"
  }

  function ElementTexts(es: seq<Element>): (r: seq<string>)
    ensures |r| == |es|
  {
    if es == [] then [] else ElementTexts(es[..|es| - 1]) + [ElementText(es[|es| - 1])]
  }

  lemma {:induction false} ElementTextsAppend(a: seq<Element>, b: seq<Element>)
    ensures ElementTexts(a + b) == ElementTexts(a) + ElementTexts(b)
    decreases |b|
  {
    if b == [] {
      assert a + b == a;
    } else {
      var init := b[..|b| - 1];
      assert (a + b)[..|a + b| - 1] == a + init;
      assert (a + b)[|a + b| - 1] == b[|b| - 1];
      ElementTextsAppend(a, init);
    }
  }

  // ---------------------------------------------------------------------------------------
  // One paragraph
  // ---------------------------------------------------------------------------------------

  /** `para.style.name.lower() if para.style else ''`. */
  function StyleName(pp: DocParagraph): string {
    if pp.style.Some? then Lower(pp.style.value) else ""
  }

  /** What the `if`/`elif` chain makes of a paragraph, tested in this order. */
  datatype ParagraphKind = Skipped | Heading1 | Heading2 | Heading3 | ListEntry | Body

  function KindOfParagraph(pp: DocParagraph): ParagraphKind {
    var s := StyleName(pp);
    if Blank(pp.text) then Skipped
    else if Contains(s, "heading 1") then Heading1
    else if Contains(s, "heading 2") then Heading2
    else if Contains(s, "heading 3") then Heading3
    else if Contains(s, "list") then ListEntry
    else Body
  }

  /** `text.replace(run.text, ...)` for a bold run, then for an italic one. */
  function FormatRun(text: string, run: DocRun): string {
    var t := if run.bold then Replace(text, run.text, "<strong>" + run.text + "</strong>") else text;
    if run.italic then Replace(t, run.text, "<em>" + run.text + "</em>") else t
  }

  /** The paragraph text after the loop over its runs. */
  function FormatRuns(text: string, runs: seq<DocRun>): string {
    if runs == [] then text else FormatRun(FormatRuns(text, runs[..|runs| - 1]), runs[|runs| - 1])
  }

  /** A list entry closes the list when it is the last paragraph or the next one's style has no `list`. */
  predicate ClosesList(paras: seq<DocParagraph>, i: nat)
    requires i < |paras|
  {
    i + 1 == |paras| || !Contains(StyleName(paras[i + 1]), "list")
  }

  /** The elements paragraph `i` adds, once it passes the checks that can raise. */
  function ElementsOf(paras: seq<DocParagraph>, i: nat): seq<Element>
    requires i < |paras|
  {
    var pp := paras[i];
    match KindOfParagraph(pp)
    case Skipped => []
    case Heading1 => [NameHeading(pp.text)]
    case Heading2 => [HeadlineHeading(pp.text)]
    case Heading3 => [SectionHeading(pp.text)]
    case ListEntry => [ListOpen, ListItem(pp.text)] + (if ClosesList(paras, i) then [ListClose] else [])
    case Body => [AboutParagraph(FormatRuns(pp.text, pp.runs))]
  }

  /** The elements of the first `n` paragraphs. */
  function Emitted(paras: seq<DocParagraph>, n: nat): seq<Element>
    requires n <= |paras|
  {
    if n == 0 then [] else Emitted(paras, n - 1) + ElementsOf(paras, n - 1)
  }

  /**
    Paragraph `i` raises: a list entry when nothing has been emitted yet (`html[-1]` of an
    empty list), or when the next paragraph has no style (`None.name`).
   */
  predicate FailsAt(paras: seq<DocParagraph>, i: nat)
    requires i < |paras|
  {
    KindOfParagraph(paras[i]) == ListEntry
    && (Emitted(paras, i) == [] || (i + 1 < |paras| && paras[i + 1].style.None?))
  }

  /** None of the first `n` paragraphs raises. */
  predicate NoneFailsBefore(paras: seq<DocParagraph>, n: nat)
    requires n <= |paras|
  {
    n == 0 || (NoneFailsBefore(paras, n - 1) && !FailsAt(paras, n - 1))
  }

  /** The loop has passed the first `n` paragraphs without an exception and `html` holds what they emitted. */
  predicate Progress(paras: seq<DocParagraph>, n: nat, html: seq<string>)
    requires n <= |paras|
  {
    NoneFailsBefore(paras, n) && html == ElementTexts(Emitted(paras, n))
  }

  /** The converter's result: `None` when some paragraph raises, otherwise the elements joined by `"\n"`. */
  function ConvertedHtml(paras: seq<DocParagraph>): Option<string> {
    if !NoneFailsBefore(paras, |paras|) then None
    else Some(Join(ElementTexts(Emitted(paras, |paras|)), "\n"))
  }

  // ---------------------------------------------------------------------------------------
  // The converter
  // ---------------------------------------------------------------------------------------

  method ConvertDocxToHtml(paras: seq<DocParagraph>) returns (r: Option<string>)
    ensures r == ConvertedHtml(paras)
  {
    var html: seq<string> := [];
    var i := 0;
    while i < |paras|
      invariant 0 <= i <= |paras|
      invariant Progress(paras, i, html)
    {
      var raised;
      ghost var html0 := html;
      html, raised := AddParagraph(paras, i, html);
      if raised {
        RaisedResult(paras, i);
        return None;
      }
      NextProgress(paras, i, html0, html);
      i := i + 1;
    }
    FinishedResult(paras, html);
    r := Some(Join(html, "\n"));
  }

  lemma {:induction false} FailureStops(paras: seq<DocParagraph>, m: nat, n: nat)
    requires m <= n <= |paras| && !NoneFailsBefore(paras, m)
    ensures !NoneFailsBefore(paras, n)
  {
    if m < n {
      FailureStops(paras, m, n - 1);
      NoneFailsBeforeShorter(paras, n);
    }
  }

  lemma NoneFailsBeforeShorter(paras: seq<DocParagraph>, n: nat)
    requires 0 < n <= |paras|
    ensures NoneFailsBefore(paras, n) ==> NoneFailsBefore(paras, n - 1)
  {
  }

  lemma NextProgress(paras: seq<DocParagraph>, i: nat, html0: seq<string>, html: seq<string>)
    requires i < |paras| && Progress(paras, i, html0) && !FailsAt(paras, i)
    requires html == html0 + ElementTexts(ElementsOf(paras, i))
    ensures Progress(paras, i + 1, html)
  {
    ElementTextsAppend(Emitted(paras, i), ElementsOf(paras, i));
  }

  lemma RaisedResult(paras: seq<DocParagraph>, i: nat)
    requires i < |paras| && FailsAt(paras, i)
    ensures ConvertedHtml(paras) == None
  {
    FailureStops(paras, i + 1, |paras|);
  }

  lemma FinishedResult(paras: seq<DocParagraph>, html: seq<string>)
    requires Progress(paras, |paras|, html)
    ensures ConvertedHtml(paras) == Some(Join(html, "\n"))
  {
  }

  /** One pass of the loop; `raised` says that the paragraph raised an exception. */
  method AddParagraph(paras: seq<DocParagraph>, i: nat, html0: seq<string>) returns (html: seq<string>, raised: bool)
    requires i < |paras| && html0 == ElementTexts(Emitted(paras, i))
    ensures raised == FailsAt(paras, i)
    ensures !raised ==> html == html0 + ElementTexts(ElementsOf(paras, i))
  {
    var para := paras[i];
    html, raised := html0, false;
    var blank := IsBlank(para.text);
    if !blank {
      var styleName := if para.style.Some? then Lower(para.style.value) else "";
      if Contains(styleName, "heading 1") {
        html := html + [ElementText(NameHeading(para.text))];
        OneElementTexts(paras, i, NameHeading(para.text));
      } else if Contains(styleName, "heading 2") {
        html := html + [ElementText(HeadlineHeading(para.text))];
        OneElementTexts(paras, i, HeadlineHeading(para.text));
      } else if Contains(styleName, "heading 3") {
        html := html + [ElementText(SectionHeading(para.text))];
        OneElementTexts(paras, i, SectionHeading(para.text));
      } else if Contains(styleName, "list") {
        html, raised := AddListEntry(paras, i, html0);
      } else {
        var text := ApplyRuns(para.text, para.runs);
        html := html + [ElementText(AboutParagraph(text))];
        OneElementTexts(paras, i, AboutParagraph(text));
      }
    } else {
      assert html == html0 + [];
    }
  }

  /** A paragraph that emits one element adds that element's text. */
  lemma OneElementTexts(paras: seq<DocParagraph>, i: nat, e: Element)
    requires i < |paras| && ElementsOf(paras, i) == [e]
    ensures ElementTexts(ElementsOf(paras, i)) == [ElementText(e)]
  {
    assert [e][..0] == [];
  }

  /** The `list` branch: open a list, add the item, and close the list unless the next paragraph continues it. */
  method AddListEntry(paras: seq<DocParagraph>, i: nat, html0: seq<string>) returns (html: seq<string>, raised: bool)
    requires i < |paras| && KindOfParagraph(paras[i]) == ListEntry
    requires html0 == ElementTexts(Emitted(paras, i))
    ensures raised == FailsAt(paras, i)
    ensures !raised ==> html == html0 + ElementTexts(ElementsOf(paras, i))
  {
    html := html0;
    if html == [] {
      // `html[-1]` raises IndexError
      return html, true;
    }
    LastNeverStartsWithUl(Emitted(paras, i));
    if !StartsWith(html[|html| - 1], "<ul>") {
      html := html + [ElementText(ListOpen)];
    }
    html := html + [ElementText(ListItem(paras[i].text))];
    ghost var withItem := html;
    assert withItem == html0 + [ElementText(ListOpen), ElementText(ListItem(paras[i].text))];
    if i + 1 == |paras| {
      html := html + [ElementText(ListClose)];
    } else if paras[i + 1].style.None? {
      // `None.name` raises AttributeError
      return html, true;
    } else if !Contains(Lower(paras[i + 1].style.value), "list") {
      html := html + [ElementText(ListClose)];
    }
    assert html == withItem + (if ClosesList(paras, i) then [ElementText(ListClose)] else []);
    ListEntryTexts(paras, i);
    raised := false;
  }

  /** The last element text never starts with `<ul>`. */
  lemma LastNeverStartsWithUl(es: seq<Element>)
    requires es != []
    ensures !StartsWith(ElementTexts(es)[|es| - 1], "<ul>")
  {
    ElementNeverStartsWithUl(es[|es| - 1]);
  }

  /** The texts a list paragraph adds. */
  lemma ListEntryTexts(paras: seq<DocParagraph>, i: nat)
    requires i < |paras| && KindOfParagraph(paras[i]) == ListEntry
    ensures ElementTexts(ElementsOf(paras, i))
         == [ElementText(ListOpen), ElementText(ListItem(paras[i].text))]
            + (if ClosesList(paras, i) then [ElementText(ListClose)] else [])
  {
    var two := [ListOpen, ListItem(paras[i].text)];
    assert ElementTexts(two) == [ElementText(ListOpen), ElementText(ListItem(paras[i].text))] by {
      assert two[..1] == [ListOpen];
      assert [ListOpen][..0] == [];
    }
    if ClosesList(paras, i) {
      assert (two + [ListClose])[..2] == two;
    }
  }

  /** `for run in para.runs:` with its two `replace` calls. */
  method ApplyRuns(text0: string, runs: seq<DocRun>) returns (text: string)
    ensures text == FormatRuns(text0, runs)
  {
    text := text0;
    for j := 0 to |runs|
      invariant text == FormatRuns(text0, runs[..j])
    {
      assert runs[..j + 1][..j] == runs[..j];
      var run := runs[j];
      if run.bold {
        text := Replace(text, run.text, "<strong>" + run.text + "</strong>");
      }
      if run.italic {
        text := Replace(text, run.text, "<em>" + run.text + "</em>");
      }
    }
    assert runs[..|runs|] == runs;
  }

  // ---------------------------------------------------------------------------------------
  // What the converter promises
  // ---------------------------------------------------------------------------------------

  /** The `startswith('<ul>')` test never holds: every element's text differs from `<ul>` by its fourth character or earlier. */
  lemma ElementNeverStartsWithUl(e: Element)
    ensures !StartsWith(ElementText(e), "<ul>")
  {
    var t := ElementText(e);
    match e
    case ListOpen => NotStartsWithAt(t, "<ul>", 3);
    case _ => NotStartsWithAt(t, "<ul>", 1);
  }

  /** No paragraph before `n` raises. */
  predicate NoFailureBelow(paras: seq<DocParagraph>, n: nat)
    requires n <= |paras|
  {
    forall j | 0 <= j < n :: !FailsAt(paras, j)
  }

  /** `NoneFailsBefore` is the recursive form of "no paragraph before `n` raises". */
  lemma NoneFailsBeforeIff(paras: seq<DocParagraph>, n: nat)
    requires n <= |paras|
    ensures NoneFailsBefore(paras, n) <==> NoFailureBelow(paras, n)
  {
    if NoneFailsBefore(paras, n) {
      forall j | 0 <= j < n
        ensures !FailsAt(paras, j)
      {
        NoneFailsBeforeAt(paras, n, j);
      }
    }
    if NoFailureBelow(paras, n) {
      NoFailureBelowNoneFails(paras, n);
    }
  }

  lemma {:induction false} NoneFailsBeforeAt(paras: seq<DocParagraph>, n: nat, j: nat)
    requires j < n <= |paras| && NoneFailsBefore(paras, n)
    ensures !FailsAt(paras, j)
  {
    if j < n - 1 {
      NoneFailsBeforeAt(paras, n - 1, j);
    }
  }

  lemma {:induction false} NoFailureBelowNoneFails(paras: seq<DocParagraph>, n: nat)
    requires n <= |paras| && NoFailureBelow(paras, n)
    ensures NoneFailsBefore(paras, n)
  {
    if n > 0 {
      assert !FailsAt(paras, n - 1);
      assert NoFailureBelow(paras, n - 1);
      NoFailureBelowNoneFails(paras, n - 1);
    }
  }

  /** The converter returns `None` exactly when some paragraph raises. */
  lemma ConvertedNoneIff(paras: seq<DocParagraph>)
    ensures ConvertedHtml(paras).None? <==> exists i | 0 <= i < |paras| :: FailsAt(paras, i)
  {
    NoneFailsBeforeIff(paras, |paras|);
  }

  /** Whitespace-only paragraphs emit nothing. */
  lemma BlankParagraphEmitsNothing(paras: seq<DocParagraph>, i: nat)
    requires i < |paras| && Strip(paras[i].text) == ""
    ensures ElementsOf(paras, i) == [] && !FailsAt(paras, i)
  {
    StripEmptyIffBlank(paras[i].text);
  }

  /** Every paragraph before `n` is blank, checked from the last one down. */
  predicate BlankBelow(paras: seq<DocParagraph>, n: nat)
    requires n <= |paras|
  {
    n == 0 || (BlankBelow(paras, n - 1) && Blank(paras[n - 1].text))
  }

  lemma {:induction false} BlankBelowAll(paras: seq<DocParagraph>, n: nat)
    requires n <= |paras|
    ensures BlankBelow(paras, n) <==> forall j | 0 <= j < n :: Blank(paras[j].text)
  {
    if n > 0 {
      BlankBelowAll(paras, n - 1);
    }
  }

  /** Nothing has been emitted before paragraph `n` exactly when all earlier paragraphs are blank. */
  lemma {:induction false} EmittedEmptyIffBlank(paras: seq<DocParagraph>, n: nat)
    requires n <= |paras|
    ensures |Emitted(paras, n)| == 0 <==> BlankBelow(paras, n)
  {
    if n > 0 {
      EmittedEmptyIffBlank(paras, n - 1);
      EmittedEmptyStep(paras, n);
      SameStep(|Emitted(paras, n)| == 0, BlankBelow(paras, n),
               |Emitted(paras, n - 1)| == 0, BlankBelow(paras, n - 1), Blank(paras[n - 1].text));
    }
  }

  /** Two conditions that agreed before and take the same step still agree. */
  lemma SameStep(a: bool, b: bool, a0: bool, b0: bool, c: bool)
    requires a0 <==> b0
    requires a <==> a0 && c
    requires b <==> b0 && c
    ensures a <==> b
  {
  }

  lemma EmittedEmptyStep(paras: seq<DocParagraph>, n: nat)
    requires 0 < n <= |paras|
    ensures |Emitted(paras, n)| == 0 <==> |Emitted(paras, n - 1)| == 0 && Blank(paras[n - 1].text)
  {
    ElementsEmptyIffBlank(paras, n - 1);
    AppendLength(Emitted(paras, n), Emitted(paras, n - 1), ElementsOf(paras, n - 1));
  }

  lemma AppendLength<T>(whole: seq<T>, a: seq<T>, b: seq<T>)
    requires whole == a + b
    ensures |whole| == |a| + |b|
  {
  }

  /** A paragraph emits nothing exactly when it is blank. */
  lemma ElementsEmptyIffBlank(paras: seq<DocParagraph>, i: nat)
    requires i < |paras|
    ensures |ElementsOf(paras, i)| == 0 <==> Blank(paras[i].text)
  {
  }

  /** A list paragraph with only blank paragraphs before it makes `html[-1]` fail: the result is `None`. */
  lemma LeadingListEntryFails(paras: seq<DocParagraph>, i: nat)
    requires i < |paras| && KindOfParagraph(paras[i]) == ListEntry
    requires forall j | 0 <= j < i :: Blank(paras[j].text)
    ensures ConvertedHtml(paras) == None
  {
    BlankBelowAll(paras, i);
    EmittedEmptyIffBlank(paras, i);
    RaisedResult(paras, i);
  }

  /** A list paragraph followed by a paragraph without a style makes `style.name` fail: the result is `None`. */
  lemma ListEntryBeforeUnstyledFails(paras: seq<DocParagraph>, i: nat)
    requires i + 1 < |paras| && KindOfParagraph(paras[i]) == ListEntry && paras[i + 1].style.None?
    ensures ConvertedHtml(paras) == None
  {
    RaisedResult(paras, i);
  }

  /** Every list item in `es` comes right after a `ListOpen`. */
  predicate ItemsOpened(es: seq<Element>) {
    forall k | 0 <= k < |es| && es[k].ListItem? :: k > 0 && es[k - 1] == ListOpen
  }

  /** Appending keeps the property: an item in the second part has its `ListOpen` in that part. */
  lemma AppendOpened(whole: seq<Element>, a: seq<Element>, b: seq<Element>)
    requires whole == a + b && ItemsOpened(a) && ItemsOpened(b)
    ensures ItemsOpened(whole)
  {
    forall k | 0 <= k < |whole| && whole[k].ListItem?
      ensures k > 0 && whole[k - 1] == ListOpen
    {
      if k >= |a| {
        assert whole[k] == b[k - |a|];
        if k - |a| > 0 {
          assert whole[k - 1] == b[k - 1 - |a|];
        }
      } else {
        assert whole[k] == a[k];
        assert whole[k - 1] == a[k - 1];
      }
    }
  }

  /** Within one paragraph's elements, the only list item is the second element, after `ListOpen`. */
  lemma ElementsOpened(paras: seq<DocParagraph>, i: nat)
    requires i < |paras|
    ensures ItemsOpened(ElementsOf(paras, i))
    ensures forall k | 0 <= k < |ElementsOf(paras, i)| && ElementsOf(paras, i)[k].ListItem? :: k == 1
  {
  }

  /**
    Every list item in the output comes right after a `<ul class="skills-list">`: the `<ul>`
    test never holds, so each list paragraph opens a list of its own.
   */
  lemma {:induction false} EmittedItemsOpened(paras: seq<DocParagraph>, n: nat)
    requires n <= |paras|
    ensures ItemsOpened(Emitted(paras, n))
  {
    if n > 0 {
      EmittedItemsOpened(paras, n - 1);
      ElementsOpened(paras, n - 1);
      AppendOpened(Emitted(paras, n), Emitted(paras, n - 1), ElementsOf(paras, n - 1));
    }
  }

  /** The same, for one position of the output. */
  lemma ListItemAfterOpen(paras: seq<DocParagraph>, n: nat, k: nat)
    requires n <= |paras| && k < |Emitted(paras, n)| && Emitted(paras, n)[k].ListItem?
    ensures k > 0 && Emitted(paras, n)[k - 1] == ListOpen
  {
    EmittedItemsOpened(paras, n);
  }

  /** A list paragraph is closed by `</ul>` exactly when it is the last paragraph or the next style has no `list`. */
  lemma ListEntryElements(paras: seq<DocParagraph>, i: nat)
    requires i < |paras| && KindOfParagraph(paras[i]) == ListEntry
    ensures ElementsOf(paras, i)[..2] == [ListOpen, ListItem(paras[i].text)]
    ensures ListClose in ElementsOf(paras, i)
        <==> i + 1 == |paras| || !Contains(StyleName(paras[i + 1]), "list")
  {
  }

  /** Headings keep the paragraph text as it is; only default paragraphs get run formatting. */
  lemma HeadingElements(paras: seq<DocParagraph>, i: nat)
    requires i < |paras|
    ensures KindOfParagraph(paras[i]) == Heading1 ==> ElementsOf(paras, i) == [NameHeading(paras[i].text)]
    ensures KindOfParagraph(paras[i]) == Heading2 ==> ElementsOf(paras, i) == [HeadlineHeading(paras[i].text)]
    ensures KindOfParagraph(paras[i]) == Heading3 ==> ElementsOf(paras, i) == [SectionHeading(paras[i].text)]
  {
  }

  /** A paragraph whose runs are neither bold nor italic keeps its text. */
  lemma {:induction false} UnformattedRunsKeepText(text: string, runs: seq<DocRun>)
    requires forall j | 0 <= j < |runs| :: !runs[j].bold && !runs[j].italic
    ensures FormatRuns(text, runs) == text
  {
    if runs != [] {
      UnformattedRunsKeepText(text, runs[..|runs| - 1]);
    }
  }

  /** A single bold, non-italic run covering the whole (non-empty) text wraps it in `<strong>`. */
  lemma WholeBoldRun(text: string)
    requires text != []
    ensures FormatRuns(text, [DocRun(text, true, false)]) == "<strong>" + text + "</strong>"
  {
    ReplaceWhole(text, "<strong>" + text + "</strong>");
    assert [DocRun(text, true, false)][..0] == [];
  }

  lemma ReplaceWhole(s: string, rep: string)
    requires s != []
    ensures Replace(s, s, rep) == rep
  {
    assert StartsWith(s, s);
    assert s[|s|..] == [];
    assert !StartsWith([], s);
    assert ReplaceEach(s, s, rep) == rep + ReplaceEach([], s, rep);
  }

  // ---------------------------------------------------------------------------------------
  // The lookup of the next paragraph, as written
  // ---------------------------------------------------------------------------------------

  /**
    The converter as written: `doc.paragraphs` builds new paragraph objects at each access,
    and they compare by identity, so `doc.paragraphs.index(para)` raises `ValueError` for
    every list paragraph that gets past `html[-1]`.  Any list paragraph then makes the result
    `None`; the rest of the model reads the lookup as the position of `para`.
   */
  function ConvertedHtmlAsWritten(paras: seq<DocParagraph>): Option<string> {
    if exists i | 0 <= i < |paras| :: KindOfParagraph(paras[i]) == ListEntry then None
    else Some(Join(ElementTexts(Emitted(paras, |paras|)), "\n"))
  }

  /** Without list paragraphs the two readings agree; with one, the code as written always fails. */
  lemma AsWrittenAgreesWithoutLists(paras: seq<DocParagraph>)
    ensures ConvertedHtmlAsWritten(paras).None? <==> exists i | 0 <= i < |paras| :: KindOfParagraph(paras[i]) == ListEntry
    ensures (forall i | 0 <= i < |paras| :: KindOfParagraph(paras[i]) != ListEntry)
            ==> ConvertedHtmlAsWritten(paras) == ConvertedHtml(paras)
  {
    ConvertedNoneIff(paras);
  }

  /**
    A paragraph followed by a list paragraph: read by position, a one-item list closed by
    `</ul>`; as written, `None`.
   */
  lemma ListLookupFails()
    ensures var paras := [DocParagraph("About", Some("Normal"), []), DocParagraph("Python", Some("List Bullet"), [])];
            ConvertedHtmlAsWritten(paras) == None
            && ConvertedHtml(paras)
               == Some(Join(ElementTexts([AboutParagraph("About"), ListOpen, ListItem("Python"), ListClose]), "\n"))
  {
    var paras := [DocParagraph("About", Some("Normal"), []), DocParagraph("Python", Some("List Bullet"), [])];
    SampleKinds(paras[0], paras[1]);
    SampleEmitted(paras, [AboutParagraph("About"), ListOpen, ListItem("Python"), ListClose]);
    assert !FailsAt(paras, 0) && !FailsAt(paras, 1);
    ConvertedNoneIff(paras);
  }

  lemma SampleKinds(about: DocParagraph, item: DocParagraph)
    requires about == DocParagraph("About", Some("Normal"), []) && item == DocParagraph("Python", Some("List Bullet"), [])
    ensures KindOfParagraph(about) == Body && KindOfParagraph(item) == ListEntry
  {
    assert !Blank(about.text) by { assert !IsSpace(about.text[0]); }
    assert !Blank(item.text) by { assert !IsSpace(item.text[0]); }
    var normal := StyleName(about);
    assert normal == "normal";
    LacksFirstChar(normal, "heading 1");
    LacksFirstChar(normal, "heading 2");
    LacksFirstChar(normal, "heading 3");
    LacksFirstChar(normal, "list");
    var style := StyleName(item);
    assert style == "list bullet";
    LacksFirstChar(style, "heading 1");
    LacksFirstChar(style, "heading 2");
    LacksFirstChar(style, "heading 3");
    assert OccursAt(style, "list", 0);
  }

  /** `p` does not occur in `s` when no position where it would fit holds its first character. */
  lemma LacksFirstChar(s: string, p: string)
    requires p != [] && forall k | 0 <= k && k + |p| <= |s| :: s[k] != p[0]
    ensures !Contains(s, p)
  {
    forall i: nat | i <= |s|
      ensures !OccursAt(s, p, i)
    {
      if i + |p| <= |s| {
        assert s[i..i + |p|][0] != p[0];
      }
    }
  }

  lemma SampleEmitted(paras: seq<DocParagraph>, es: seq<Element>)
    requires paras == [DocParagraph("About", Some("Normal"), []), DocParagraph("Python", Some("List Bullet"), [])]
    requires es == [AboutParagraph("About"), ListOpen, ListItem("Python"), ListClose]
    ensures Emitted(paras, 2) == es
  {
    SampleKinds(paras[0], paras[1]);
    var first := ElementsOf(paras, 0);
    var second := ElementsOf(paras, 1);
    assert FormatRuns("About", []) == "About";
    assert first == [AboutParagraph("About")];
    assert ClosesList(paras, 1);
    assert second == [ListOpen, ListItem("Python")] + [ListClose];
    assert Emitted(paras, 1) == [] + first;
    assert Emitted(paras, 2) == first + second;
  }
}
