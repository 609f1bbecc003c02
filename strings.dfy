/**
  Python `str` operations the program relies on, over `string` (a sequence of characters):
  `startswith`, `endswith`, `in`, `split(sep)`, `sep.join`, `strip()`, `strip(chars)`,
  `replace`, `lower()` and `str(n)` for a natural number.
 */
module Strings {

  predicate StartsWith(s: string, p: string) {
    |p| <= |s| && s[..|p|] == p
  }

  predicate EndsWith(s: string, p: string) {
    |p| <= |s| && s[|s| - |p|..] == p
  }

  /** `p` occurs in `s` starting at index `i`. */
  predicate OccursAt(s: string, p: string, i: nat) {
    i + |p| <= |s| && s[i..i + |p|] == p
  }

  /** `p in s`. */
  predicate Contains(s: string, p: string) {
    exists i: nat | i <= |s| :: OccursAt(s, p, i)
  }

  /** A prefix test fails as soon as one character differs. */
  lemma NotStartsWithAt(s: string, p: string, i: nat)
    requires i < |p| && (i >= |s| || s[i] != p[i])
    ensures !StartsWith(s, p)
  {
  }

  lemma StartsWithConcat(a: string, b: string)
    ensures StartsWith(a + b, a)
  {
    assert (a + b)[..|a|] == a;
  }

  /**
    Python's `str.isspace` on one character: the characters also matched by `\s` in a `str`
    regular expression and removed by `strip()`.
   */
  predicate IsSpace(c: char) {
    c == ' ' || ('\t' <= c <= '\r') || ('\U{1C}' <= c <= '\U{1F}') || c == '\U{85}' || c == '\U{A0}'
    || c == '\U{1680}' || ('\U{2000}' <= c <= '\U{200A}') || c == '\U{2028}' || c == '\U{2029}'
    || c == '\U{202F}' || c == '\U{205F}' || c == '\U{3000}'
  }

  function TrimLeft(s: string): (r: string)
    ensures |r| <= |s| && r == s[|s| - |r|..]
    ensures r == [] || !IsSpace(r[0])
    ensures forall i :: 0 <= i < |s| - |r| ==> IsSpace(s[i])
  {
    if s != [] && IsSpace(s[0]) then TrimLeft(s[1..]) else s
  }

  function TrimRight(s: string): (r: string)
    ensures |r| <= |s| && r == s[..|r|]
    ensures r == [] || !IsSpace(r[|r| - 1])
    ensures forall i :: |r| <= i < |s| ==> IsSpace(s[i])
  {
    if s != [] && IsSpace(s[|s| - 1]) then TrimRight(s[..|s| - 1]) else s
  }

  /** `s.strip()`. */
  function Strip(s: string): (r: string)
    ensures r == [] || (!IsSpace(r[0]) && !IsSpace(r[|r| - 1]))
  {
    TrimRight(TrimLeft(s))
  }

  /** Only white space: what `not s.strip()` tests. */
  predicate Blank(s: string) {
    forall i :: 0 <= i < |s| ==> IsSpace(s[i])
  }

  /** `s.strip()` is empty exactly when every character of `s` is whitespace. */
  lemma StripEmptyIffBlank(s: string)
    ensures Strip(s) == [] <==> Blank(s)
  {
    if Blank(s) {
      BlankTrimLeft(s);
    }
    if Strip(s) == [] {
      StripEmptyBlank(s);
    }
  }

  /** `not s.strip()`. */
  method IsBlank(s: string) returns (blank: bool)
    ensures blank == Blank(s)
  {
    blank := Strip(s) == "";
    StripEmptyIffBlank(s);
  }

  lemma BlankTrimLeft(s: string)
    requires Blank(s)
    ensures TrimLeft(s) == []
  {
  }

  lemma StripEmptyBlank(s: string)
    requires Strip(s) == []
    ensures Blank(s)
  {
    assert TrimLeft(s) == [];
  }

  /** `s.strip(chars)` for a single character (`strip('*')` and `strip('**')` are the same call). */
  function StripChar(s: string, c: char): (r: string)
    ensures r == [] || (r[0] != c && r[|r| - 1] != c)
    decreases |s|
  {
    if s != [] && s[0] == c then StripChar(s[1..], c)
    else if s != [] && s[|s| - 1] == c then StripChar(s[..|s| - 1], c)
    else s
  }

  /** `s.lower()` for ASCII letters; every other character is left as it is. */
  function LowerChar(c: char): char {
    if 'A' <= c <= 'Z' then (c as int + 32) as char else c
  }

  /** `s.lower()`: each character lowered on its own. */
  function Lower(s: string): string {
    seq(|s|, i requires 0 <= i < |s| => LowerChar(s[i]))
  }

  /** `s.split(sep)` for a non-empty separator: cut at each occurrence, scanning left to right. */
  function SplitOn(s: string, sep: string): (r: seq<string>)
    requires |sep| > 0
    ensures |r| >= 1
    decreases |s|
  {
    if StartsWith(s, sep) then [""] + SplitOn(s[|sep|..], sep)
    else if s == [] then [""]
    else
      var t := SplitOn(s[1..], sep);
      [[s[0]] + t[0]] + t[1..]
  }

  /** `sep.join(ls)`. */
  function Join(ls: seq<string>, sep: string): string {
    if |ls| == 0 then ""
    else if |ls| == 1 then ls[0]
    else ls[0] + sep + Join(ls[1..], sep)
  }

  /** Text made of lines each followed by a line break: `"".join(l + "\n" for l in ls)`. */
  function Unlines(ls: seq<string>): string {
    if ls == [] then "" else ls[0] + "\n" + Unlines(ls[1..])
  }

  /** `str(n)` for a natural number. */
  function NatToString(n: nat): (r: string)
    ensures |r| >= 1
    ensures forall i :: 0 <= i < |r| ==> '0' <= r[i] <= '9'
    ensures n >= 10 ==> |r| >= 2
  {
    if n < 10 then [('0' as int + n) as char]
    else NatToString(n / 10) + [('0' as int + n % 10) as char]
  }

  /** `s.replace(old, new)`, including Python's rule for an empty `old`. */
  function Replace(s: string, pat: string, rep: string): string {
    if pat == [] then ReplaceEmpty(s, rep) else ReplaceEach(s, pat, rep)
  }

  /** Non-overlapping left-to-right replacement of a non-empty pattern. */
  function ReplaceEach(s: string, pat: string, rep: string): string
    requires pat != []
    decreases |s|
  {
    if StartsWith(s, pat) then rep + ReplaceEach(s[|pat|..], pat, rep)
    else if s == [] then []
    else [s[0]] + ReplaceEach(s[1..], pat, rep)
  }

  /** `s.replace("", new)` puts `new` before every character and at the end. */
  function ReplaceEmpty(s: string, rep: string): string {
    if s == [] then rep else rep + [s[0]] + ReplaceEmpty(s[1..], rep)
  }

  /** `n` spaces. */
  function Indent(n: nat): (r: string)
    ensures |r| == n && forall i :: 0 <= i < n ==> r[i] == ' '
  {
    if n == 0 then "" else Indent(n - 1) + " "
  }

  /** An index below `|a|` into `a + b` reads `a`. */
  lemma PrefixAt<T>(whole: seq<T>, a: seq<T>, b: seq<T>, i: nat)
    requires whole == a + b && i < |a|
    ensures i < |whole| && whole[i] == a[i]
  {
  }

  /** An index `|a| + j` into `a + b` reads `b`. */
  lemma SuffixAt<T>(whole: seq<T>, a: seq<T>, b: seq<T>, j: nat)
    requires whole == a + b && j < |b|
    ensures |a| + j < |whole| && whole[|a| + j] == b[j]
  {
  }

  /** The items produced for each element, in order (a flattened list comprehension). */
  function FlatMap<T, U>(xs: seq<T>, f: T -> seq<U>): seq<U> {
    if xs == [] then [] else FlatMap(xs[..|xs| - 1], f) + f(xs[|xs| - 1])
  }

  lemma FlatMapSnoc<T, U>(xs: seq<T>, i: nat, f: T -> seq<U>)
    requires i < |xs|
    ensures FlatMap(xs[..i + 1], f) == FlatMap(xs[..i], f) + f(xs[i])
  {
    assert xs[..i + 1][..i] == xs[..i];
  }

  lemma {:induction false} FlatMapCons<T, U>(x: T, xs: seq<T>, f: T -> seq<U>)
    ensures FlatMap([x] + xs, f) == f(x) + FlatMap(xs, f)
    decreases |xs|
  {
    if xs != [] {
      var ys := [x] + xs;
      assert ys[..|ys| - 1] == [x] + xs[..|xs| - 1];
      FlatMapCons(x, xs[..|xs| - 1], f);
    }
  }

  lemma {:induction false} FlatMapAppend<T, U>(xs: seq<T>, ys: seq<T>, f: T -> seq<U>)
    ensures FlatMap(xs + ys, f) == FlatMap(xs, f) + FlatMap(ys, f)
    decreases |ys|
  {
    if ys == [] {
      assert xs + ys == xs;
    } else {
      assert (xs + ys)[..|xs + ys| - 1] == xs + ys[..|ys| - 1];
      FlatMapAppend(xs, ys[..|ys| - 1], f);
    }
  }

  /** Blocks of one fixed size `n` flatten to `n` items per element. */
  lemma {:induction false} FlatMapLength<T, U>(xs: seq<T>, f: T -> seq<U>, n: nat)
    requires forall x | x in xs :: |f(x)| == n
    ensures |FlatMap(xs, f)| == n * |xs|
    decreases |xs|
  {
    if xs != [] {
      var init := xs[..|xs| - 1];
      assert forall x | x in init :: |f(x)| == n by {
        assert forall x | x in init :: x in xs;
      }
      FlatMapLength(init, f, n);
      assert |f(xs[|xs| - 1])| == n by {
        assert xs[|xs| - 1] in xs;
      }
      MulSucc(n, |init|);
    }
  }

  lemma MulSucc(n: nat, k: nat)
    ensures n * (k + 1) == n * k + n
  {
  }

  /** With blocks of a fixed size `n`, the block of element `i` starts at item `n * i`. */
  lemma {:induction false} FlatMapBlock<T, U>(xs: seq<T>, f: T -> seq<U>, n: nat, i: nat)
    requires i < |xs| && forall x | x in xs :: |f(x)| == n
    ensures n * i + n <= |FlatMap(xs, f)| && FlatMap(xs, f)[n * i..n * i + n] == f(xs[i])
    decreases |xs|
  {
    var m := |xs| - 1;
    var front := FlatMap(xs[..m], f);
    FlatMapLength(xs[..m], f, n);
    if i < m {
      FlatMapBlock(xs[..m], f, n, i);
      assert n * i + n <= n * m by {
        assert n * (m - i - 1) >= 0;
      }
      assert (front + f(xs[m]))[n * i..n * i + n] == front[n * i..n * i + n];
    } else {
      assert (front + f(xs[m]))[n * m..] == f(xs[m]);
    }
  }

  /** Every produced item comes from some element. */
  lemma {:induction false} FlatMapMember<T, U>(xs: seq<T>, f: T -> seq<U>, y: U)
    requires y in FlatMap(xs, f)
    ensures exists x :: x in xs && y in f(x)
    decreases |xs|
  {
    var n := |xs| - 1;
    if y !in f(xs[n]) {
      FlatMapMember(xs[..n], f, y);
      var x :| x in xs[..n] && y in f(x);
      assert x in xs;
    }
  }

  // ---------------------------------------------------------------------------------------
  // Lemmas
  // ---------------------------------------------------------------------------------------

  lemma JoinCons(a: string, rest: seq<string>, sep: string)
    ensures Join([a] + rest, sep) == if rest == [] then a else a + sep + Join(rest, sep)
  {
    assert ([a] + rest)[1..] == rest;
  }

  lemma EndsWithSuffix(s: string, a: string, b: string)
    requires EndsWith(s, a + b)
    ensures EndsWith(s, b)
  {
    assert s[|s| - |b|..] == s[|s| - |a + b|..][|a|..];
  }

  /** A joined list starts with its first two items and the separator between them. */
  lemma JoinStart(ls: seq<string>, sep: string)
    requires |ls| >= 2
    ensures StartsWith(Join(ls, sep), ls[0] + sep + ls[1])
  {
    var rest := Join(ls[1..], sep);
    assert ls[1..][0] == ls[1];
    assert StartsWith(rest, ls[1]) by {
      if |ls| > 2 {
        assert rest == ls[1] + sep + Join(ls[2..], sep) by {
          assert ls[1..][1..] == ls[2..];
        }
      }
    }
    assert Join(ls, sep) == ls[0] + sep + rest;
    assert (ls[0] + sep + rest)[..|ls[0] + sep + ls[1]|] == ls[0] + sep + rest[..|ls[1]|];
  }

  /** A joined list ends with its last item. */
  lemma {:induction false} JoinEnd(ls: seq<string>, sep: string)
    requires |ls| >= 1
    ensures EndsWith(Join(ls, sep), ls[|ls| - 1])
    decreases |ls|
  {
    if |ls| > 1 {
      JoinEnd(ls[1..], sep);
      var j := Join(ls[1..], sep);
      var x := ls[|ls| - 1];
      assert ls[1..][|ls[1..]| - 1] == x;
      assert (ls[0] + sep + j)[|ls[0] + sep + j| - |x|..] == j[|j| - |x|..];
    }
  }

  lemma JoinAppend(ls: seq<string>, x: string, sep: string)
    ensures Join(ls + [x], sep) == if ls == [] then x else Join(ls, sep) + sep + x
    decreases |ls|
  {
    if |ls| == 1 {
      assert ls + [x] == [ls[0]] + [x];
      JoinCons(ls[0], [x], sep);
    } else if |ls| > 1 {
      assert ls + [x] == [ls[0]] + (ls[1..] + [x]);
      JoinCons(ls[0], ls[1..] + [x], sep);
      JoinAppend(ls[1..], x, sep);
    }
  }

  /** Joining the pieces of a split gives the original text back. */
  /** A character put in front of the first item comes out in front of the joined text. */
  lemma JoinFirstChar(c: char, t: seq<string>, sep: string)
    requires |t| >= 1
    ensures Join([[c] + t[0]] + t[1..], sep) == [c] + Join(t, sep)
  {
    JoinCons([c] + t[0], t[1..], sep);
    JoinCons(t[0], t[1..], sep);
    assert [t[0]] + t[1..] == t;
  }

  lemma {:induction false} JoinSplit(s: string, sep: string)
    requires |sep| > 0
    ensures Join(SplitOn(s, sep), sep) == s
    decreases |s|
  {
    if StartsWith(s, sep) {
      JoinSplit(s[|sep|..], sep);
      JoinSplitAtSep(s, sep);
    } else if s != [] {
      JoinSplit(s[1..], sep);
      JoinSplitAtChar(s, sep);
    }
  }

  lemma JoinSplitAtSep(s: string, sep: string)
    requires |sep| > 0 && StartsWith(s, sep)
    requires Join(SplitOn(s[|sep|..], sep), sep) == s[|sep|..]
    ensures Join(SplitOn(s, sep), sep) == s
  {
    var t := SplitOn(s[|sep|..], sep);
    assert SplitOn(s, sep) == [""] + t;
    JoinCons("", t, sep);
    assert s == sep + s[|sep|..] by { assert s[..|sep|] == sep; }
  }

  lemma JoinSplitAtChar(s: string, sep: string)
    requires |sep| > 0 && !StartsWith(s, sep) && s != []
    requires Join(SplitOn(s[1..], sep), sep) == s[1..]
    ensures Join(SplitOn(s, sep), sep) == s
  {
    var t := SplitOn(s[1..], sep);
    assert SplitOn(s, sep) == [[s[0]] + t[0]] + t[1..];
    JoinFirstChar(s[0], t, sep);
    assert s == [s[0]] + s[1..];
  }

  lemma {:induction false} JoinSplitReplace(s: string, sep: string, rep: string)
    requires |sep| > 0
    ensures Join(SplitOn(s, sep), rep) == ReplaceEach(s, sep, rep)
    decreases |s|
  {
    if StartsWith(s, sep) {
      JoinSplitReplace(s[|sep|..], sep, rep);
      var t := SplitOn(s[|sep|..], sep);
      assert SplitOn(s, sep) == [""] + t;
      JoinCons("", t, rep);
    } else if s != [] {
      JoinSplitReplace(s[1..], sep, rep);
      ReplaceAtChar(s, sep, rep);
    }
  }

  lemma ReplaceAtChar(s: string, sep: string, rep: string)
    requires |sep| > 0 && !StartsWith(s, sep) && s != []
    requires Join(SplitOn(s[1..], sep), rep) == ReplaceEach(s[1..], sep, rep)
    ensures Join(SplitOn(s, sep), rep) == ReplaceEach(s, sep, rep)
  {
    var t := SplitOn(s[1..], sep);
    assert SplitOn(s, sep) == [[s[0]] + t[0]] + t[1..];
    JoinFirstChar(s[0], t, rep);
  }

  /** Text without the separator character is a single piece. */
  lemma {:induction false} SplitNoSep(a: string, c: char)
    requires c !in a
    ensures SplitOn(a, [c]) == [a]
    decreases |a|
  {
    if a != [] {
      assert !StartsWith(a, [c]) by { assert a[..1][0] == a[0]; }
      SplitNoSep(a[1..], c);
      assert [a[0]] + a[1..] == a;
    } else {
      assert !StartsWith(a, [c]);
    }
  }

  /** Splitting on one character distributes over an occurrence of it. */
  lemma {:induction false} SplitConcat(a: string, c: char, b: string)
    ensures SplitOn(a + [c] + b, [c]) == SplitOn(a, [c]) + SplitOn(b, [c])
    decreases |a|
  {
    var s := a + [c] + b;
    if a == [] {
      assert s == [c] + b;
      assert StartsWith(s, [c]);
      assert s[1..] == b;
    } else {
      assert s[1..] == a[1..] + [c] + b;
      SplitConcat(a[1..], c, b);
      SplitConcatStep(a, c, b);
    }
  }

  lemma SplitConcatStep(a: string, c: char, b: string)
    requires a != []
    requires SplitOn(a[1..] + [c] + b, [c]) == SplitOn(a[1..], [c]) + SplitOn(b, [c])
    ensures SplitOn(a + [c] + b, [c]) == SplitOn(a, [c]) + SplitOn(b, [c])
  {
    var s := a + [c] + b;
    ConcatParts(a, c, b);
    StartsWithChar(s, c);
    StartsWithChar(a, c);
    if a[0] == c {
      SplitOnSepCase(s, a, [c], SplitOn(b, [c]));
    } else {
      SplitOnCharCase(s, a, [c], SplitOn(b, [c]));
    }
  }

  lemma ConcatParts(a: string, c: char, b: string)
    requires a != []
    ensures (a + [c] + b)[0] == a[0] && (a + [c] + b)[1..] == a[1..] + [c] + b
  {
  }

  lemma StartsWithChar(s: string, c: char)
    ensures StartsWith(s, [c]) <==> s != [] && s[0] == c
  {
    if s != [] {
      assert s[..1] == [s[0]];
    }
  }

  /** Two texts that both open with the separator and continue with pieces `u + v` and `u`. */
  lemma SplitOnSepCase(s: string, a: string, sep: string, v: seq<string>)
    requires |sep| > 0 && StartsWith(s, sep) && StartsWith(a, sep)
    requires SplitOn(s[|sep|..], sep) == SplitOn(a[|sep|..], sep) + v
    ensures SplitOn(s, sep) == SplitOn(a, sep) + v
  {
    SplitAtSep(s, sep);
    SplitAtSep(a, sep);
  }

  /** Two texts that open with the same non-separator character and continue with pieces `u + v` and `u`. */
  lemma SplitOnCharCase(s: string, a: string, sep: string, v: seq<string>)
    requires |sep| > 0 && !StartsWith(s, sep) && !StartsWith(a, sep) && s != [] && a != [] && s[0] == a[0]
    requires SplitOn(s[1..], sep) == SplitOn(a[1..], sep) + v
    ensures SplitOn(s, sep) == SplitOn(a, sep) + v
  {
    SplitAtChar(s, sep);
    SplitAtChar(a, sep);
    ConsHeadAppend([s[0]], SplitOn(a[1..], sep), v);
  }

  lemma SplitAtSep(s: string, sep: string)
    requires |sep| > 0 && StartsWith(s, sep)
    ensures SplitOn(s, sep) == [""] + SplitOn(s[|sep|..], sep)
  {
  }

  lemma SplitAtChar(s: string, sep: string)
    requires |sep| > 0 && !StartsWith(s, sep) && s != []
    ensures SplitOn(s, sep) == [[s[0]] + SplitOn(s[1..], sep)[0]] + SplitOn(s[1..], sep)[1..]
  {
  }

  lemma ConsHeadAppend(p: string, u: seq<string>, v: seq<string>)
    requires |u| >= 1
    ensures [p + (u + v)[0]] + (u + v)[1..] == ([p + u[0]] + u[1..]) + v
  {
    assert (u + v)[0] == u[0];
    assert (u + v)[1..] == u[1..] + v;
  }

  /** A text made of terminated lines, none holding a line break, splits back into those lines. */
  lemma {:induction false} SplitUnlines(ls: seq<string>)
    requires forall i :: 0 <= i < |ls| ==> '\n' !in ls[i]
    ensures SplitOn(Unlines(ls), "\n") == ls + [""]
    decreases |ls|
  {
    if ls == [] {
      assert !StartsWith("", "\n");
    } else {
      SplitUnlines(ls[1..]);
      SplitConcat(ls[0], '\n', Unlines(ls[1..]));
      SplitNoSep(ls[0], '\n');
      assert ls == [ls[0]] + ls[1..];
    }
  }

  /** Lines joined by a line break split back into those lines. */
  lemma {:induction false} SplitJoinLines(ls: seq<string>)
    requires |ls| >= 1
    requires forall i :: 0 <= i < |ls| ==> '\n' !in ls[i]
    ensures SplitOn(Join(ls, "\n"), "\n") == ls
    decreases |ls|
  {
    if |ls| == 1 {
      SplitNoSep(ls[0], '\n');
    } else {
      SplitJoinLines(ls[1..]);
      assert Join(ls, "\n") == ls[0] + ['\n'] + Join(ls[1..], "\n");
      SplitConcat(ls[0], '\n', Join(ls[1..], "\n"));
      SplitNoSep(ls[0], '\n');
      assert ls == [ls[0]] + ls[1..];
    }
  }

  lemma {:induction false} UnlinesAppend(a: seq<string>, b: seq<string>)
    ensures Unlines(a + b) == Unlines(a) + Unlines(b)
    decreases |a|
  {
    if a != [] {
      assert (a + b)[1..] == a[1..] + b;
      UnlinesAppend(a[1..], b);
    } else {
      assert a + b == b;
    }
  }

  lemma UnlinesOne(a: string)
    ensures Unlines([a]) == a + "\n"
  {
    assert [a][1..] == [];
  }

  /** Decimal notation names a single number. */
  lemma {:induction false} NatToStringInjective(m: nat, n: nat)
    requires NatToString(m) == NatToString(n)
    ensures m == n
    decreases m
  {
    var r := NatToString(m);
    if m < 10 && n < 10 {
      assert r[0] == ('0' as int + m) as char;
    } else if m >= 10 && n >= 10 {
      var k := |r| - 1;
      assert NatToString(m / 10) == r[..k] == NatToString(n / 10);
      NatToStringInjective(m / 10, n / 10);
      assert r[k] == ('0' as int + m % 10) as char == ('0' as int + n % 10) as char;
    }
  }

  /** A pattern that does not occur is not replaced. */
  lemma {:induction false} ReplaceAbsent(s: string, pat: string, rep: string)
    requires pat != [] && !Contains(s, pat)
    ensures Replace(s, pat, rep) == s
    decreases |s|
  {
    if s != [] {
      if |pat| <= |s| {
        assert !OccursAt(s, pat, 0);
      }
      assert !StartsWith(s, pat);
      assert !Contains(s[1..], pat) by {
        forall i: nat | i <= |s[1..]| ensures !OccursAt(s[1..], pat, i) {
          assert !OccursAt(s, pat, i + 1);
          if i + |pat| <= |s[1..]| {
            assert s[1..][i..i + |pat|] == s[i + 1..i + 1 + |pat|];
          }
        }
      }
      ReplaceAbsent(s[1..], pat, rep);
      assert s == [s[0]] + s[1..];
    }
  }
}
