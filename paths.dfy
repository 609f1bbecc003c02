/**
  The two POSIX `os.path` helpers the output code relies on: `join` of two parts and
  `splitext`.  Paths are plain strings; nothing here touches a file system.
 */
module Paths {
  import opened Strings

  /** `os.path.join(a, b)`: an absolute `b` replaces `a`; otherwise one `/` separates them. */
  function PathJoin(a: string, b: string): (r: string)
    ensures EndsWith(r, b)
  {
    if StartsWith(b, "/") then b
    else if a == "" || EndsWith(a, "/") then a + b
    else a + "/" + b
  }

  /** A relative name is appended to the directory, with a `/` between them unless one is already there. */
  lemma PathJoinRelative(a: string, b: string)
    requires !StartsWith(b, "/")
    ensures PathJoin(a, b) == (if a == "" || EndsWith(a, "/") then a + b else a + "/" + b)
    ensures StartsWith(PathJoin(a, b), a)
  {
    StartsWithConcat(a, b);
    StartsWithConcat(a, "/" + b);
    assert a + "/" + b == a + ("/" + b);
  }

  /** The index of the last `c` in `s`, or -1. */
  function LastIndexOf(s: string, c: char): (r: int)
    ensures -1 <= r < |s|
    ensures r >= 0 ==> s[r] == c
    ensures forall k :: r < k < |s| ==> s[k] != c
  {
    if s == [] then -1
    else if s[|s| - 1] == c then |s| - 1
    else LastIndexOf(s[..|s| - 1], c)
  }

  /**
    Whether some character of `s[from..to]` is not a dot; `splitext` only splits at a dot
    that follows a non-dot character of the last component, so `.bashrc` has no extension.
   */
  predicate HasNonDot(s: string, from: nat, to: nat)
    requires from <= to <= |s|
  {
    exists k | from <= k < to :: s[k] != '.'
  }

  /** `os.path.splitext(p)` (POSIX `genericpath._splitext` with `/` as separator and `.` as extension mark). */
  function SplitExt(p: string): (r: (string, string))
    ensures r.0 + r.1 == p
  {
    var sep := LastIndexOf(p, '/');
    var dot := LastIndexOf(p, '.');
    if dot > sep && HasNonDot(p, sep + 1, dot) then (p[..dot], p[dot..]) else (p, "")
  }

  /** The extension is empty or a dot followed by no dot and no `/`. */
  lemma SplitExtShape(p: string)
    ensures var (root, ext) := SplitExt(p);
      ext == "" || (ext[0] == '.' && forall k :: 0 < k < |ext| ==> ext[k] != '.' && ext[k] != '/')
  {
    var sep := LastIndexOf(p, '/');
    var dot := LastIndexOf(p, '.');
    if dot > sep && HasNonDot(p, sep + 1, dot) {
      var ext := p[dot..];
      forall k | 0 < k < |ext| ensures ext[k] != '.' && ext[k] != '/' {
        assert ext[k] == p[dot + k];
      }
    }
  }

  /** Splitting `root + ext` again gives the same root and extension back, when the root has a name part. */
  lemma SplitExtOfName(name: string, ext: string)
    requires name != [] && name[0] != '.' && forall k :: 0 <= k < |name| ==> name[k] != '/'
    requires |ext| >= 1 && ext[0] == '.' && forall k :: 0 < k < |ext| ==> ext[k] != '.' && ext[k] != '/'
    ensures SplitExt(name + ext) == (name, ext)
  {
    var p := name + ext;
    var dot := LastIndexOf(p, '.');
    var sep := LastIndexOf(p, '/');
    assert p[|name|] == '.';
    assert dot == |name|;
    assert sep == -1;
    assert p[0] == name[0];
    assert HasNonDot(p, 0, dot);
    assert p[..dot] == name;
    assert p[dot..] == ext;
  }
}
