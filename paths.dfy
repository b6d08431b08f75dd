/** The parts of Go's `path/filepath` that dmake relies on, for '/'-separated
    paths. `Clean` is not modelled beyond what `Dir` and `Base` do to trailing
    separators: paths are taken to be free of "." and ".." elements. */
module Paths {
  import opened Text

  /** Index of the last '/' in `s`, or -1. */
  function LastSlash(s: string): (i: int)
    ensures -1 <= i < |s|
    ensures 0 <= i ==> s[i] == '/' && '/' !in s[i + 1..]
    ensures i == -1 ==> '/' !in s
  {
    if s == [] then -1
    else if s[|s| - 1] == '/' then |s| - 1
    else
      var i := LastSlash(s[..|s| - 1]);
      assert s[i + 1..] == s[..|s| - 1][i + 1..] + [s[|s| - 1]];
      i
  }

  /** `s` without its trailing run of '/'. */
  function TrimSlashes(s: string): (r: string)
    ensures |r| <= |s| && r == s[..|r|]
    ensures r == [] || r[|r| - 1] != '/'
    ensures forall k :: |r| <= k < |s| ==> s[k] == '/'
  {
    if s != [] && s[|s| - 1] == '/' then TrimSlashes(s[..|s| - 1]) else s
  }

  /** filepath.Base: the last element, trailing separators removed. */
  function Base(p: string): (b: string)
    ensures b != []
    ensures b == "/" || '/' !in b
  {
    if p == [] then "."
    else
      var q := TrimSlashes(p);
      if q == [] then "/" else q[LastSlash(q) + 1..]
  }

  /** filepath.Dir: everything before the last element. */
  function Dir(p: string): (d: string)
    ensures IsDirForm(d)
  {
    var i := LastSlash(p);
    if i < 0 then "."
    else
      var q := TrimSlashes(p[..i]);
      if q == [] then "/" else q
  }

  /** The shapes `Dir` returns: ".", "/", or a path without a trailing '/'. */
  predicate IsDirForm(d: string) {
    d == "." || d == "/" || (d != [] && d[|d| - 1] != '/')
  }

  /** filepath.Join of two elements. */
  function Join(d: string, b: string): string {
    if b == [] then d
    else if d == [] || d == "." then b
    else if d[|d| - 1] == '/' then d + b
    else d + "/" + b
  }

  /** filepath.Ext: the suffix of the last element that starts at its last '.'. */
  function Ext(p: string): (e: string)
    ensures HasSuffix(p, e)
    ensures e == [] || e[0] == '.'
  {
    if p == [] || p[|p| - 1] == '/' then []
    else if p[|p| - 1] == '.' then "."
    else
      var e := Ext(p[..|p| - 1]);
      if e == [] then [] else e + [p[|p| - 1]]
  }

  /** A single path element: non-empty and without a separator. */
  predicate IsElement(b: string) {
    b != [] && '/' !in b
  }

  /** The last separator of `a + b` is the one that ends `a` when `b` has none. */
  lemma {:induction false} LastSlashBefore(a: string, b: string)
    requires a != [] && a[|a| - 1] == '/' && '/' !in b
    ensures LastSlash(a + b) == |a| - 1
    decreases |b|
  {
    if b == [] {
      assert a + b == a;
    } else {
      var p := a + b;
      assert p[..|p| - 1] == a + b[..|b| - 1];
      LastSlashBefore(a, b[..|b| - 1]);
    }
  }

  /** A single element is its own base, in the current directory. */
  lemma ElementParts(b: string)
    requires IsElement(b)
    ensures Dir(b) == "." && Base(b) == b
  {
    assert LastSlash(b) == -1;
    assert TrimSlashes(b) == b;
  }

  lemma BaseOfJoin(d: string, b: string)
    requires IsElement(b)
    ensures Base(Join(d, b)) == b
  {
    var p := Join(d, b);
    assert TrimSlashes(p) == p;
    if d == [] || d == "." {
      assert LastSlash(p) == -1;
    } else {
      var a := if d[|d| - 1] == '/' then d else d + "/";
      assert p == a + b;
      LastSlashBefore(a, b);
      assert p[|a|..] == b;
    }
  }

  /** Joining an element onto a directory and taking the directory gives it back. */
  lemma DirOfJoin(d: string, b: string)
    requires IsElement(b) && IsDirForm(d)
    ensures Dir(Join(d, b)) == d
  {
    var p := Join(d, b);
    if d == "." {
      assert p == b;
      assert LastSlash(p) == -1;
    } else if d == "/" {
      assert p == d + b;
      LastSlashBefore(d, b);
      assert TrimSlashes(p[..0]) == [];
    } else {
      var a := d + "/";
      assert p == a + b;
      assert p[..|d|] == d;
      LastSlashBefore(a, b);
      assert d[|d| - 1] != '/';
      assert TrimSlashes(d) == d;
    }
  }

  /** Text appended to a joined element extends the element. */
  lemma JoinAppend(d: string, b: string, x: string)
    requires b != []
    ensures Join(d, b) + x == Join(d, b + x)
  {
  }
}
