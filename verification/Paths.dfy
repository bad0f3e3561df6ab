/** Relative, slash-separated paths: the keys of the three Folder Pair maps. */
module Paths {

  type Path = string

  /** `rel_path.count("/")`. */
  function Slashes(s: string): nat {
    if s == "" then 0 else (if s[0] == '/' then 1 else 0) + Slashes(s[1..])
  }

  lemma {:induction false} SlashesConcat(a: string, b: string)
    ensures Slashes(a + b) == Slashes(a) + Slashes(b)
  {
    if a == "" {
      assert a + b == b;
    } else {
      assert (a + b)[1..] == a[1..] + b;
      SlashesConcat(a[1..], b);
    }
  }

  /** Index of the last slash, or -1. */
  function LastSlash(s: string): (i: int)
    ensures -1 <= i < |s|
    ensures i >= 0 ==> s[i] == '/'
    ensures forall k :: i < k < |s| ==> s[k] != '/'
  {
    if s == "" then -1
    else if s[|s| - 1] == '/' then |s| - 1
    else LastSlash(s[..|s| - 1])
  }

  /** `os.path.dirname` of a relative path. */
  function Dirname(p: Path): Path {
    var i := LastSlash(p);
    if i < 0 then "" else p[..i]
  }

  /** `os.path.basename`. */
  function Basename(p: Path): string {
    p[LastSlash(p) + 1..]
  }

  /** `p` lies strictly below the folder `d`. */
  predicate Below(p: Path, d: Path) {
    |d| < |p| && p[..|d|] == d && p[|d|] == '/'
  }

  lemma NoSlashes(s: string)
    requires '/' !in s
    ensures Slashes(s) == 0
  {
    if s != "" {
      NoSlashes(s[1..]);
    }
  }

  /** A path is exactly one level below its own directory. */
  lemma DirnameIsOneUp(p: Path)
    requires Dirname(p) != ""
    ensures Below(p, Dirname(p))
    ensures Slashes(p) == Slashes(Dirname(p)) + 1
  {
    var i := LastSlash(p);
    assert p == p[..i] + (['/'] + p[i + 1..]);
    SlashesConcat(p[..i], ['/'] + p[i + 1..]);
    assert (['/'] + p[i + 1..])[1..] == p[i + 1..];
    NoSlashes(p[i + 1..]);
  }

  lemma BelowIsDeeper(p: Path, d: Path)
    requires Below(p, d)
    ensures Slashes(p) > Slashes(d)
  {
    assert p == p[..|d|] + p[|d|..];
    SlashesConcat(p[..|d|], p[|d|..]);
  }

  /** Whatever lies above a path lies above it through the path's directory. */
  lemma BelowThroughDirname(p: Path, d: Path)
    requires Below(p, d) && d != ""
    ensures Dirname(p) != ""
    ensures Dirname(p) == d || Below(Dirname(p), d)
  {
    var i := LastSlash(p);
    assert i >= |d|;
    assert p[..i][..|d|] == p[..|d|];
  }

  lemma BelowTransitive(p: Path, q: Path, d: Path)
    requires Below(p, q) && Below(q, d)
    ensures Below(p, d)
  {
    assert p[..|q|][..|d|] == p[..|d|];
    assert p[..|q|][|d|] == p[|d|];
  }

  /** Siblings lie below the same folders. */
  lemma SiblingsShareAncestors(p: Path, q: Path, d: Path)
    requires Below(p, d) && d != "" && Dirname(p) == Dirname(q)
    ensures Below(q, d)
  {
    BelowThroughDirname(p, d);
    DirnameIsOneUp(q);
    if Dirname(p) != d {
      BelowTransitive(q, Dirname(q), d);
    }
  }
}
