/**
  `html_to_md.py`: the table of contents that `generate_table_of_contents` puts in front of
  a converted page, and the choice of output names in `handle_file_write`.  Headings are
  read line by line: a line that starts with one or more `#`, then white space, then text.
 */
module HtmlToMarkdown {
  import opened Wrappers
  import opened Strings
  import opened Paths

  // ---------------------------------------------------------------------------------------
  // Headings
  // ---------------------------------------------------------------------------------------

  /** A match of `^(#+)\s+(.*)`: the number of `#` and the stripped text after the white space. */
  datatype Heading = Heading(level: Level, title: string)

  /** A heading level: the number of `#`, at least one. */
  type Level = n: nat | n >= 1 witness 1

  /** The number of `#` the line starts with (what the greedy `#+` takes). */
  function LeadingHashes(s: string): (n: nat)
    ensures n <= |s| && forall k :: 0 <= k < n ==> s[k] == '#'
    ensures n < |s| ==> s[n] != '#'
  {
    if s != [] && s[0] == '#' then 1 + LeadingHashes(s[1..]) else 0
  }

  /**
    The heading on a line, if any: `(#+)` must be followed by at least one white-space
    character; `\s+` then takes all of it, and `heading[1].strip()` removes the rest.
   */
  function ParseHeading(line: string): Option<Heading> {
    var n := LeadingHashes(line);
    if n >= 1 && n < |line| && IsSpace(line[n]) then Some(Heading(n, Strip(line[n..]))) else None
  }

  /** The headings of the lines, in document order (`re.findall` with `re.MULTILINE`). */
  function HeadingsOf(lines: seq<string>): (hs: seq<Heading>)
    ensures |hs| <= |lines|
  {
    if lines == [] then []
    else
      var last := match ParseHeading(lines[|lines| - 1]) case Some(h) => [h] case None => [];
      HeadingsOf(lines[..|lines| - 1]) + last
  }

  function Headings(text: string): seq<Heading> {
    HeadingsOf(SplitOn(text, "\n"))
  }

  /** `n` `#` characters. */
  function Hashes(n: nat): (r: string)
    ensures |r| == n && forall k :: 0 <= k < n ==> r[k] == '#'
  {
    if n == 0 then "" else Hashes(n - 1) + "#"
  }

  /** A heading written as `#`s, a space and a title without outer white space is read back as that heading. */
  lemma ParseWrittenHeading(level: nat, title: string)
    requires level >= 1
    requires title == [] || (!IsSpace(title[0]) && !IsSpace(title[|title| - 1]))
    ensures ParseHeading(Hashes(level) + " " + title) == Some(Heading(level, title))
  {
    var line := Hashes(level) + (" " + title);
    assert line[..level] == Hashes(level);
    assert line[level] == ' ';
    HashesPrefix(line, level);
    assert line[level..] == " " + title;
    StripOneSpace(title);
    assert line == Hashes(level) + " " + title;
  }

  lemma HashesPrefix(line: string, n: nat)
    requires n < |line| && line[..n] == Hashes(n) && line[n] != '#'
    ensures LeadingHashes(line) == n
    decreases n
  {
    if n > 0 {
      assert line[1..][..n - 1] == Hashes(n - 1) by {
        forall k | 0 <= k < n - 1 ensures line[1..][k] == '#' {
          assert line[k + 1] == line[..n][k + 1];
        }
      }
      assert line[0] == line[..n][0];
      HashesPrefix(line[1..], n - 1);
    }
  }

  lemma StripOneSpace(t: string)
    requires t == [] || (!IsSpace(t[0]) && !IsSpace(t[|t| - 1]))
    ensures Strip(" " + t) == t
  {
    var s := " " + t;
    assert TrimLeft(s) == TrimLeft(s[1..]);
    assert s[1..] == t;
    assert TrimLeft(t) == t;
    assert TrimRight(t) == t;
  }

  // ---------------------------------------------------------------------------------------
  // Anchors and entries
  // ---------------------------------------------------------------------------------------

  /** `\w` on ASCII text: a letter, a digit or `_`. */
  predicate WordChar(c: char) {
    'a' <= c <= 'z' || 'A' <= c <= 'Z' || '0' <= c <= '9' || c == '_'
  }

  /** What `re.sub(r'[^\w\s-]', '', s)` keeps. */
  predicate SlugChar(c: char) {
    WordChar(c) || IsSpace(c) || c == '-'
  }

  function KeepSlugChars(s: string): (r: string)
    ensures |r| <= |s| && forall k :: 0 <= k < |r| ==> SlugChar(r[k])
  {
    if s == [] then []
    else KeepSlugChars(s[..|s| - 1]) + (if SlugChar(s[|s| - 1]) then [s[|s| - 1]] else [])
  }

  /** `re.sub(r'[^\w\s-]', '', title.lower()).replace(' ', '-')`. */
  function Anchor(title: string): string {
    Replace(KeepSlugChars(Lower(title)), " ", "-")
  }

  /** An anchor has no space and no punctuation other than `-`; other white space (a tab, say) survives. */
  lemma AnchorChars(title: string)
    ensures AnchorText(Anchor(title))
  {
    DashForSpace(KeepSlugChars(Lower(title)));
  }

  /** Slug characters only, and no space. */
  predicate AnchorText(r: string) {
    forall k :: 0 <= k < |r| ==> SlugChar(r[k]) && r[k] != ' '
  }

  /** Replacing each space by `-` leaves slug characters that are not spaces. */
  lemma {:induction false} DashForSpace(s: string)
    requires forall k :: 0 <= k < |s| ==> SlugChar(s[k])
    ensures AnchorText(ReplaceEach(s, " ", "-"))
    decreases |s|
  {
    if s != [] {
      DashForSpace(s[1..]);
      var r := ReplaceEach(s[1..], " ", "-");
      var c := if StartsWith(s, " ") then '-' else s[0];
      if StartsWith(s, " ") {
        assert ReplaceEach(s, " ", "-") == [c] + r;
      } else {
        assert ReplaceEach(s, " ", "-") == [c] + r;
        assert s[0] != ' ' by { assert s[..1] != " "; }
      }
      assert SlugChar(c) && c != ' ';
      assert forall k :: 0 <= k < |r| ==> ([c] + r)[k + 1] == r[k];
    }
  }

  /** `f"{indent}- [{title}](#{anchor})"` with two spaces of indentation per level below the first. */
  function TocEntry(h: Heading): string {
    Indent(2 * (h.level - 1)) + "- [" + h.title + "](#" + Anchor(h.title) + ")"
  }

  function TocEntries(hs: seq<Heading>): (r: seq<string>)
    ensures |r| == |hs| && forall k :: 0 <= k < |hs| ==> r[k] == TocEntry(hs[k])
  {
    if hs == [] then [] else TocEntries(hs[..|hs| - 1]) + [TocEntry(hs[|hs| - 1])]
  }

  const TocHeader := "## Table of Contents\n"

  /**
    `generate_table_of_contents(text)`: the text unchanged when it has no heading, otherwise
    the header and one entry per heading joined by line breaks, a blank line, and the text.
   */
  function TableOfContents(text: string): string {
    var hs := Headings(text);
    if hs == [] then text else Join([TocHeader] + TocEntries(hs), "\n") + "\n\n" + text
  }

  /** The original text is always an unchanged suffix of the result, and the result grows exactly when there is a heading. */
  lemma TocKeepsText(text: string)
    ensures EndsWith(TableOfContents(text), text)
    ensures TableOfContents(text) == text <==> Headings(text) == []
  {
    var r := TableOfContents(text);
    if Headings(text) != [] {
      var front := Join([TocHeader] + TocEntries(Headings(text)), "\n") + "\n\n";
      assert r == front + text;
      assert r[|r| - |text|..] == text;
    }
  }

  /** With a heading, the result opens with the header line, then a blank line, then the first entry. */
  lemma TocStart(text: string)
    requires Headings(text) != []
    ensures StartsWith(TableOfContents(text), TocHeader + "\n" + TocEntry(Headings(text)[0]))
  {
    TocFrontStart(Headings(text), text);
  }

  /** The same for any non-empty list of headings, whatever they were read from. */
  lemma TocFrontStart(hs: seq<Heading>, text: string)
    requires hs != []
    ensures StartsWith(Join([TocHeader] + TocEntries(hs), "\n") + "\n\n" + text, TocHeader + "\n" + TocEntry(hs[0]))
  {
    var ls := [TocHeader] + TocEntries(hs);
    JoinStart(ls, "\n");
    var j := Join(ls, "\n");
    var p := TocHeader + "\n" + TocEntry(hs[0]);
    assert ls[1] == TocEntry(hs[0]);
    assert (j + "\n\n" + text)[..|p|] == j[..|p|];
  }

  lemma TocEntriesStep(hs: seq<Heading>, i: nat)
    requires i < |hs|
    ensures TocEntries(hs[..i + 1]) == TocEntries(hs[..i]) + [TocEntry(hs[i])]
  {
    assert hs[..i + 1][..i] == hs[..i];
  }

  /** `generate_table_of_contents(text)`: the header and entry lines are collected in a loop. */
  method GenerateTableOfContents(text: string) returns (r: string)
    ensures r == TableOfContents(text)
  {
    var headings := Headings(text);
    if headings == [] {
      return text;
    }
    var tocLines := CollectTocLines(headings);
    r := Join(tocLines, "\n") + "\n\n" + text;
  }

  /** The loop over the headings `re.findall` returns: the header line, then one entry per heading. */
  method CollectTocLines(headings: seq<Heading>) returns (tocLines: seq<string>)
    ensures tocLines == [TocHeader] + TocEntries(headings)
  {
    tocLines := [TocHeader];
    for i := 0 to |headings|
      invariant tocLines == [TocHeader] + TocEntries(headings[..i])
    {
      var h := headings[i];
      TocEntriesStep(headings, i);
      var anchor := Anchor(h.title);
      var indent := Indent(2 * (h.level - 1));
      tocLines := tocLines + [indent + "- [" + h.title + "](#" + anchor + ")"];
    }
    assert headings[..|headings|] == headings;
  }

  // ---------------------------------------------------------------------------------------
  // `handle_file_write`
  // ---------------------------------------------------------------------------------------

  /** The settings `handle_file_write` reads. */
  datatype Settings = Settings(
    customFilename: bool,
    outputFilename: string,
    appendSuffix: bool,       // `overwrite_existing == "Append a unique suffix"`
    saveRawHtml: bool)

  /** The custom name when it is asked for and non-empty, otherwise the name generated from the URL. */
  function BaseFilename(settings: Settings, generated: string): (r: string)
    ensures r == settings.outputFilename || r == generated
    ensures r == settings.outputFilename <== settings.customFilename && settings.outputFilename != ""
    ensures r == generated <== !(settings.customFilename && settings.outputFilename != "")
  {
    if settings.customFilename && settings.outputFilename != "" then settings.outputFilename else generated
  }

  /** `f"{file_root}_{counter}{file_ext}"`. */
  function Candidate(root: string, ext: string, k: nat): string {
    root + "_" + NatToString(k) + ext
  }

  /** Different counters give different candidate paths. */
  lemma CandidateInjective(root: string, ext: string, j: nat, k: nat)
    requires Candidate(root, ext, j) == Candidate(root, ext, k)
    ensures j == k
  {
    var a := NatToString(j);
    var b := NatToString(k);
    var p := Candidate(root, ext, j);
    assert |a| == |b|;
    var m := |root| + 1;
    assert p[m..m + |a|] == a;
    assert Candidate(root, ext, k)[m..m + |b|] == b;
    NatToStringInjective(j, k);
  }

  function Candidates(root: string, ext: string, n: nat): set<string> {
    set k | 1 <= k <= n :: Candidate(root, ext, k)
  }

  lemma {:induction false} CandidatesCount(root: string, ext: string, n: nat)
    ensures |Candidates(root, ext, n)| == n
  {
    if n > 0 {
      CandidatesCount(root, ext, n - 1);
      CandidatesStep(root, ext, n);
      CandidateIsNew(root, ext, n);
    }
  }

  lemma CandidatesStep(root: string, ext: string, n: nat)
    requires n > 0
    ensures Candidates(root, ext, n) == Candidates(root, ext, n - 1) + {Candidate(root, ext, n)}
  {
  }

  /** The `n`-th candidate is none of the earlier ones. */
  lemma CandidateIsNew(root: string, ext: string, n: nat)
    requires n > 0
    ensures Candidate(root, ext, n) !in Candidates(root, ext, n - 1)
  {
    if Candidate(root, ext, n) in Candidates(root, ext, n - 1) {
      var k :| 1 <= k <= n - 1 && Candidate(root, ext, k) == Candidate(root, ext, n);
      CandidateInjective(root, ext, k, n);
    }
  }

  /**
    The path the Markdown may go to: the base path in overwrite mode; in suffix mode the base
    path if no file is there, else `root_k + ext` for the smallest `k >= 1` that is free
    (`existing` stands for the files `os.path.exists` finds).
   */
  ghost predicate ChosenPath(outputDir: string, base: string, appendSuffix: bool, existing: set<string>, path: string) {
    var basePath := PathJoin(outputDir, base);
    if !appendSuffix || basePath !in existing then path == basePath
    else
      var (root, ext) := SplitExt(basePath);
      path !in existing
      && exists k: nat | k >= 1 :: path == Candidate(root, ext, k)
           && forall j: nat | 1 <= j < k :: Candidate(root, ext, j) in existing
  }

  method OutputPath(outputDir: string, base: string, appendSuffix: bool, existing: set<string>)
    returns (path: string)
    ensures ChosenPath(outputDir, base, appendSuffix, existing, path)
  {
    path := PathJoin(outputDir, base);
    if !appendSuffix {
      return;
    }
    var basePath := path;
    var (root, ext) := SplitExt(path);
    var counter: nat := 1;
    while path in existing
      invariant counter >= 1
      invariant path == if counter == 1 then basePath else Candidate(root, ext, counter - 1)
      invariant forall j: nat | 1 <= j < counter - 1 :: Candidate(root, ext, j) in existing
      invariant counter > 1 ==> basePath in existing
      decreases |existing| + 1 - counter
    {
      if counter > 1 {
        CandidatesBound(root, ext, counter - 1, existing);
      }
      path := Candidate(root, ext, counter);
      counter := counter + 1;
    }
    if counter > 1 {
      assert path == Candidate(root, ext, counter - 1);
    }
  }

  /** Only as many candidates as there are existing files can all be taken. */
  lemma CandidatesBound(root: string, ext: string, n: nat, existing: set<string>)
    requires forall j: nat | 1 <= j <= n :: Candidate(root, ext, j) in existing
    ensures n <= |existing|
  {
    var cs := Candidates(root, ext, n);
    assert cs <= existing;
    CandidatesCount(root, ext, n);
    assert existing == cs + (existing - cs);
  }

  /** `os.path.splitext(output_path)[0] + ".html"` when raw HTML is to be saved, otherwise `None`. */
  function HtmlFilename(settings: Settings, path: string): (r: Option<string>)
    ensures r.Some? <==> settings.saveRawHtml
    ensures r.Some? ==> EndsWith(r.value, ".html")
  {
    if settings.saveRawHtml then Some(SplitExt(path).0 + ".html") else None
  }

  /**
    `handle_file_write(markdown_text, output_dir, settings, url)`: the HTML file name (or
    `None`) and the Markdown path; `generated` is `generate_filename_from_url(url)`.
   */
  method HandleFileWrite(outputDir: string, settings: Settings, generated: string, existing: set<string>)
    returns (htmlFilename: Option<string>, outputPath: string)
    ensures ChosenPath(outputDir, BaseFilename(settings, generated), settings.appendSuffix, existing, outputPath)
    ensures htmlFilename == HtmlFilename(settings, outputPath)
  {
    var base := BaseFilename(settings, generated);
    outputPath := OutputPath(outputDir, base, settings.appendSuffix, existing);
    htmlFilename := HtmlFilename(settings, outputPath);
  }
}
