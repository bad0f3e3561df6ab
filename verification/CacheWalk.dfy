/** The breadth-first walk of the cache and the path-prefix query it replaces. */
module CacheWalk {
  import opened Basics
  import opened Paths
  import opened CacheModel
  import opened CacheTree

  /** How many live links below the live subtree's root `y` hangs, if it does. */
  ghost function Level(rows: Rows, rank: Id -> nat, root: Id, y: Id): Option<nat>
    requires Acyclic(rows, rank)
    decreases rank(y)
  {
    if y == root then Some(0)
    else if !Live(rows, y) || rows[y].parent.None? then None
    else
      match Level(rows, rank, root, rows[y].parent.value)
      case None => None
      case Some(n) => Some(n + 1)
  }

  /** The table answers by path what it answers by links. */
  ghost predicate Indexed(rows: Rows) {
    Sound(rows) && UniquePaths(rows) && ParentsLive(rows) && PlainNames(rows)
    && (forall x :: Live(rows, x) ==> rows[x].path.Some?)
  }

  /** The prefix query's answer. */
  predicate Matches(rows: Rows, root: Path, y: Id) {
    Live(rows, y) && rows[y].path.Some? && Below(rows[y].path.value, root)
  }

  ghost predicate Reached(rows: Rows, rank: Id -> nat, root: Id, y: Id)
    requires Acyclic(rows, rank)
  {
    y != root && Level(rows, rank, root, y).Some?
  }

  lemma {:induction false} ReachedMatches(rows: Rows, rank: Id -> nat, root: Id, y: Id)
    requires Acyclic(rows, rank) && Indexed(rows) && Live(rows, root)
    requires Reached(rows, rank, root, y)
    ensures Matches(rows, rows[root].path.value, y)
    decreases rank(y)
  {
    var p := rows[y].parent.value;
    assert SoundAt(rows, y) && ParentLive(rows, y);
    if p != root {
      ReachedMatches(rows, rank, root, p);
      var r := rows[root].path.value;
      assert rows[y].path.value[..|r|] == rows[p].path.value[..|r|];
    }
  }

  lemma {:induction false} MatchesIsReached(rows: Rows, rank: Id -> nat, root: Id, y: Id)
    requires Acyclic(rows, rank) && Indexed(rows) && Live(rows, root)
    requires Matches(rows, rows[root].path.value, y)
    ensures Reached(rows, rank, root, y)
    decreases rank(y)
  {
    assert SoundAt(rows, y) && ParentLive(rows, y);
    var p := rows[y].parent.value;
    BelowThroughParent(rows[p].path.value, rows[y].name, rows[root].path.value);
    if p != root {
      MatchesIsReached(rows, rank, root, p);
    }
  }

  /** The walk finds exactly what the prefix query would. */
  lemma WalkIsPrefixQuery(rows: Rows, rank: Id -> nat, root: Id, y: Id)
    requires Acyclic(rows, rank) && Indexed(rows) && Live(rows, root)
    ensures Reached(rows, rank, root, y) <==> Matches(rows, rows[root].path.value, y)
  {
    if Reached(rows, rank, root, y) {
      ReachedMatches(rows, rank, root, y);
    }
    if Matches(rows, rows[root].path.value, y) {
      MatchesIsReached(rows, rank, root, y);
    }
  }

  predicate Distinct<T(==)>(s: seq<T>) { forall i, j :: 0 <= i < j < |s| ==> s[i] != s[j] }

  /** `SELECT ... WHERE parent_id IN (...) AND deleted=0`, in any order. */
  method LiveChildren(rows: Rows, frontier: seq<Id>) returns (found: seq<Id>)
    ensures Distinct(found)
    ensures forall y :: y in found <==> Live(rows, y) && rows[y].parent.Some? && rows[y].parent.value in frontier
  {
    found := [];
    var todo := rows.Keys;
    while todo != {}
      invariant todo <= rows.Keys && Distinct(found)
      invariant forall y :: y in found <==>
        y in rows && y !in todo && !rows[y].deleted && rows[y].parent.Some? && rows[y].parent.value in frontier
      decreases todo
    {
      var y :| y in todo;
      todo := todo - {y};
      if !rows[y].deleted && rows[y].parent.Some? && rows[y].parent.value in frontier {
        found := found + [y];
      }
    }
  }

  /** The `n`-th frontier. */
  ghost predicate FrontierAt(rows: Rows, rank: Id -> nat, root: Id, frontier: seq<Id>, n: nat)
    requires Acyclic(rows, rank)
  {
    forall y :: y in frontier <==> Level(rows, rank, root, y) == Some(n)
  }

  ghost predicate FoundUpTo(rows: Rows, rank: Id -> nat, root: Id, result: seq<Id>, n: nat)
    requires Acyclic(rows, rank)
  {
    forall y :: y in result <==> LevelUpTo(rows, rank, root, y, n)
  }

  ghost predicate LevelUpTo(rows: Rows, rank: Id -> nat, root: Id, y: Id, n: nat)
    requires Acyclic(rows, rank)
  {
    var l := Level(rows, rank, root, y);
    l.Some? && 1 <= l.value <= n
  }

  lemma {:induction false} RootIsNotBelowItself(rows: Rows, rank: Id -> nat, root: Id, y: Id)
    requires Acyclic(rows, rank) && Level(rows, rank, root, y).Some?
    ensures Level(rows, rank, root, y) == Some(0) <==> y == root
    ensures y != root ==> rank(root) < rank(y)
    decreases rank(y)
  {
    if y != root {
      RootIsNotBelowItself(rows, rank, root, rows[y].parent.value);
    }
  }

  lemma NextFrontier(rows: Rows, rank: Id -> nat, root: Id, frontier: seq<Id>, next: seq<Id>, n: nat)
    requires Acyclic(rows, rank) && FrontierAt(rows, rank, root, frontier, n)
    requires forall y :: y in next <==> Live(rows, y) && rows[y].parent.Some? && rows[y].parent.value in frontier
    ensures FrontierAt(rows, rank, root, next, n + 1)
  {
    forall y ensures y in next <==> Level(rows, rank, root, y) == Some(n + 1) {
      if y == root && y in next {
        RootIsNotBelowItself(rows, rank, root, rows[y].parent.value);
      }
    }
  }

  /** No rows on one level, none on any deeper one. */
  lemma {:induction false} NothingDeeper(rows: Rows, rank: Id -> nat, root: Id, n: nat, y: Id)
    requires Acyclic(rows, rank) && (forall z :: Level(rows, rank, root, z) != Some(n))
    requires Level(rows, rank, root, y).Some?
    ensures Level(rows, rank, root, y).value < n
    decreases rank(y)
  {
    if y != root {
      NothingDeeper(rows, rank, root, n, rows[y].parent.value);
    } else {
      assert Level(rows, rank, root, y) != Some(n);
    }
  }

  /** `list_descendants`: each row of the live subtree once, and no other. Every round
      but the last finds new rows, so it ends. */
  method ListDescendants(rows: Rows, ghost rank: Id -> nat, root: Id) returns (result: seq<Id>)
    requires Acyclic(rows, rank)
    ensures Distinct(result)
    ensures forall y :: y in result <==> Reached(rows, rank, root, y)
  {
    result := [];
    var frontier := [root];
    ghost var n := 0;
    RootAlone(rows, rank, root);
    while frontier != []
      invariant FrontierAt(rows, rank, root, frontier, n)
      invariant FoundUpTo(rows, rank, root, result, n)
      invariant Distinct(result)
      decreases rows.Keys - (set y | y in result), |frontier|
    {
      var next := LiveChildren(rows, frontier);
      NextFrontier(rows, rank, root, frontier, next, n);
      ghost var before := set y | y in result;
      forall y | y in next ensures y in rows && y !in result {
        assert Level(rows, rank, root, y) == Some(n + 1);
        assert !LevelUpTo(rows, rank, root, y, n);
      }
      OneMoreLevel(rows, rank, root, result, next, n);
      DistinctTogether(result, next);
      if next != [] {
        assert next[0] in next;
        assert next[0] in rows.Keys - before;
      } else {
        assert result + next == result;
      }
      result := result + next;
      frontier := next;
      n := n + 1;
    }
    forall y ensures y in result <==> Reached(rows, rank, root, y) {
      AllFound(rows, rank, root, result, n, y);
    }
  }

  lemma RootAlone(rows: Rows, rank: Id -> nat, root: Id)
    requires Acyclic(rows, rank)
    ensures FrontierAt(rows, rank, root, [root], 0) && FoundUpTo(rows, rank, root, [], 0)
  {
  }

  lemma OneMoreLevel(rows: Rows, rank: Id -> nat, root: Id, result: seq<Id>, next: seq<Id>, n: nat)
    requires Acyclic(rows, rank) && FoundUpTo(rows, rank, root, result, n) && FrontierAt(rows, rank, root, next, n + 1)
    ensures FoundUpTo(rows, rank, root, result + next, n + 1)
  {
  }

  lemma DistinctTogether<T>(a: seq<T>, b: seq<T>)
    requires Distinct(a) && Distinct(b) && forall y :: y in b ==> y !in a
    ensures Distinct(a + b)
  {
    assert forall i :: 0 <= i < |a| ==> a[i] in a;
    assert forall i :: 0 <= i < |b| ==> b[i] in b;
  }

  lemma AllFound(rows: Rows, rank: Id -> nat, root: Id, result: seq<Id>, n: nat, y: Id)
    requires Acyclic(rows, rank) && FrontierAt(rows, rank, root, [], n) && FoundUpTo(rows, rank, root, result, n)
    ensures y in result <==> Reached(rows, rank, root, y)
  {
    if Level(rows, rank, root, y).Some? {
      forall z ensures Level(rows, rank, root, z) != Some(n) {
        assert z !in [];
      }
      NothingDeeper(rows, rank, root, n, y);
      RootIsNotBelowItself(rows, rank, root, y);
    }
  }

  predicate IsPrefix(a: string, b: string) { |a| <= |b| && a == b[..|a|] }

  lemma BelowHasPrefix(p: Path, root: Path)
    requires Below(p, root)
    ensures IsPrefix(root + "/", p) && p != root
  {
    assert p[..|root| + 1] == p[..|root|] + [p[|root|]];
  }

  lemma SameRestSamePath(a: Path, b: Path, prefix: string)
    requires IsPrefix(prefix, a) && IsPrefix(prefix, b) && a[|prefix|..] == b[|prefix|..]
    ensures a == b
  {
    assert a == prefix + a[|prefix|..] && b == prefix + b[|prefix|..];
  }

  /** What `_build_remote_map` relies on: every row has a path below the root's, so
      none is skipped for it, and no two rows get the same relative path. */
  lemma RelativePathsAreKeys(rows: Rows, rank: Id -> nat, root: Id, y: Id, z: Id)
    requires Acyclic(rows, rank) && Indexed(rows) && Live(rows, root)
    requires Reached(rows, rank, root, y) && Reached(rows, rank, root, z)
    ensures PathOf(rows, y).Some? && PathOf(rows, z).Some?
    ensures var prefix := rows[root].path.value + "/";
      var a, b := PathOf(rows, y).value, PathOf(rows, z).value;
      && a != rows[root].path.value && IsPrefix(prefix, a) && IsPrefix(prefix, b)
      && (a[|prefix|..] == b[|prefix|..] ==> y == z)
  {
    ReachedMatches(rows, rank, root, y);
    ReachedMatches(rows, rank, root, z);
    var a, b := rows[y].path.value, rows[z].path.value;
    BelowHasPrefix(a, rows[root].path.value);
    BelowHasPrefix(b, rows[root].path.value);
    var prefix := rows[root].path.value + "/";
    if a[|prefix|..] == b[|prefix|..] {
      SameRestSamePath(a, b, prefix);
    }
  }
}
