/** The names of conflict copies: the loop that finds a free one always ends. */
module ConflictNames {
  import opened Paths

  /** `str(n)`. */
  function Decimal(n: nat): (s: string)
    ensures s != "" && '/' !in s
  {
    if n < 10 then [Digit(n)] else Decimal(n / 10) + [Digit(n % 10)]
  }

  function Digit(d: nat): (c: char)
    requires d < 10
    ensures '0' <= c <= '9'
  {
    '0' + d as char
  }

  lemma {:induction false} DecimalIsInjective(m: nat, n: nat)
    requires Decimal(m) == Decimal(n)
    ensures m == n
  {
    var s := Decimal(m);
    assert s[|s| - 1] == Digit(m % 10) && s[|s| - 1] == Digit(n % 10);
    if m >= 10 && n >= 10 {
      assert s[..|s| - 1] == Decimal(m / 10) && s[..|s| - 1] == Decimal(n / 10);
      DecimalIsInjective(m / 10, n / 10);
    }
  }

  /** `{stem} (conflicted copy {ts}){suffix}`, then `... ({n}){suffix}` from 1 on. */
  function Candidate(stem: string, ts: string, suffix: string, n: nat): string {
    stem + " (conflicted copy " + ts + ")" + (if n == 0 then "" else " (" + Decimal(n) + ")") + suffix
  }

  /** Every candidate starts with the original's stem, keeps its suffix, and names the time
      in between. */
  lemma CandidateReads(stem: string, ts: string, suffix: string, n: nat)
    ensures var c := Candidate(stem, ts, suffix, n); var k := |stem| + |" (conflicted copy "|;
      && |stem| + |suffix| < |c| && c[..|stem|] == stem && c[|c| - |suffix|..] == suffix
      && k + |ts| <= |c| - |suffix| && c[k..k + |ts|] == ts
  {
    var front := stem + " (conflicted copy " + ts + ")";
    var c := Candidate(stem, ts, suffix, n);
    assert c[..|front|] == front;
    assert c[..|stem|] == front[..|stem|] == stem;
  }

  lemma CandidatesDiffer(stem: string, ts: string, suffix: string, m: nat, n: nat)
    requires Candidate(stem, ts, suffix, m) == Candidate(stem, ts, suffix, n)
    ensures m == n
  {
    var front := stem + " (conflicted copy " + ts + ")";
    var a := if m == 0 then "" else " (" + Decimal(m) + ")";
    var b := if n == 0 then "" else " (" + Decimal(n) + ")";
    var s := Candidate(stem, ts, suffix, m);
    assert s == front + a + suffix && s == front + b + suffix;
    assert |a| == |b|;
    assert a == s[|front|..|front| + |a|] == b;
    if m > 0 && n > 0 {
      assert Decimal(m) == a[2..|a| - 1] && Decimal(n) == b[2..|b| - 1];
      DecimalIsInjective(m, n);
    }
  }

  /** The naming loop: the first numbered candidate not already taken. Numbers give
      different names, so at most `|taken|` rounds fail. */
  method FirstFree(taken: set<string>, name: nat -> string) returns (free: string, n: nat)
    requires forall i: nat, j: nat :: name(i) == name(j) ==> i == j
    ensures free == name(n) && free !in taken
    ensures forall k :: 0 <= k < n ==> name(k) in taken
    ensures n <= |taken|
  {
    free, n := name(0), 0;
    ghost var tried: set<string> := {};
    while free in taken
      invariant free == name(n)
      invariant forall k :: 0 <= k < n ==> name(k) in tried
      invariant forall s :: s in tried ==> exists k: nat :: k < n && name(k) == s
      invariant tried <= taken && |tried| == n
      decreases |taken - tried|
    {
      assert free !in tried;
      assert taken - (tried + {free}) == (taken - tried) - {free};
      tried := tried + {free};
      n := n + 1;
      free := name(n);
    }
    SubsetSize(tried, taken);
  }

  lemma SubsetSize(a: set<string>, b: set<string>)
    requires a <= b
    ensures |a| <= |b|
  {
    assert b == a + (b - a);
  }

  /** The copy's path: the candidate beside the original. */
  function Beside(p: Path, name: string): Path {
    if Dirname(p) == "" then name else Dirname(p) + "/" + name
  }

  lemma BesideIsSibling(p: Path, name: string)
    requires name != "" && '/' !in name
    ensures Dirname(Beside(p, name)) == Dirname(p) && Basename(Beside(p, name)) == name
  {
    var d, q := Dirname(p), Beside(p, name);
    if d == "" {
      assert LastSlash(q) == -1;
    } else {
      assert q[|d|] == '/' && q[..|d|] == d && q[|d| + 1..] == name;
      assert LastSlash(q) == |d|;
    }
  }

  function CopyCandidate(p: Path, stem: string, ts: string, suffix: string, n: nat): Path {
    Beside(p, Candidate(stem, ts, suffix, n))
  }

  lemma CopyCandidateIsSibling(p: Path, stem: string, ts: string, suffix: string, n: nat)
    requires '/' !in stem && '/' !in ts && '/' !in suffix
    ensures Dirname(CopyCandidate(p, stem, ts, suffix, n)) == Dirname(p)
    ensures Basename(CopyCandidate(p, stem, ts, suffix, n)) == Candidate(stem, ts, suffix, n)
  {
    BesideIsSibling(p, Candidate(stem, ts, suffix, n));
  }

  /** `_unique_conflict_path`: beside the original, and free in the local tree. */
  method UniqueConflictPath(local: set<Path>, p: Path, stem: string, ts: string, suffix: string) returns (copy: Path)
    requires '/' !in stem && '/' !in ts && '/' !in suffix
    ensures copy !in local && Dirname(copy) == Dirname(p)
    ensures exists n: nat :: n <= |local| && copy == CopyCandidate(p, stem, ts, suffix, n)
  {
    forall i: nat, j: nat | CopyCandidate(p, stem, ts, suffix, i) == CopyCandidate(p, stem, ts, suffix, j) ensures i == j {
      CopyCandidateIsSibling(p, stem, ts, suffix, i);
      CopyCandidateIsSibling(p, stem, ts, suffix, j);
      CandidatesDiffer(stem, ts, suffix, i, j);
    }
    var n;
    copy, n := FirstFree(local, (k: nat) => CopyCandidate(p, stem, ts, suffix, k));
    CopyCandidateIsSibling(p, stem, ts, suffix, n);
  }
}
