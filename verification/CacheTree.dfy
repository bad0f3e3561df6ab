/** Incremental paths are recomputed paths: a move keeps every cached path right and
    touches nothing outside the moved subtree. */
module CacheTree {
  import opened Basics
  import opened Paths
  import opened CacheModel

  /** The path by walking the parent links, as if there were no cached one. */
  ghost function Recomputed(rows: Rows, rank: Id -> nat, x: Id): Path
    requires Acyclic(rows, rank)
    decreases rank(x)
  {
    if x !in rows || rows[x].parent.None? then "" else Join(Recomputed(rows, rank, rows[x].parent.value), rows[x].name)
  }

  lemma {:induction false} SoundIsRecomputed(rows: Rows, rank: Id -> nat, x: Id)
    requires Sound(rows) && Acyclic(rows, rank) && PathOf(rows, x).Some?
    ensures rows[x].path.value == Recomputed(rows, rank, x)
    decreases rank(x)
  {
    assert SoundAt(rows, x);
    if rows[x].parent.Some? {
      SoundIsRecomputed(rows, rank, rows[x].parent.value);
    }
  }

  /** What lies below `x` has a higher rank, and a path below the path of `x`. */
  lemma {:induction false} UnderIsBelow(rows: Rows, rank: Id -> nat, y: Id, x: Id)
    requires Acyclic(rows, rank) && Under(rows, rank, y, x)
    ensures rank(x) < rank(y)
    decreases rank(y)
  {
    if rows[y].parent.value != x {
      UnderIsBelow(rows, rank, rows[y].parent.value, x);
    }
  }

  /** Below `x` the rows were sound when `x` still had the path `from`. */
  ghost predicate SoundBut(rows: Rows, rank: Id -> nat, x: Id, from: Path)
    requires Acyclic(rows, rank)
  {
    forall y :: Under(rows, rank, y, x) && rows[y].path.Some? ==> FollowsParent(rows, y, x, from)
  }

  predicate FollowsParent(rows: Rows, y: Id, x: Id, from: Path)
    requires y in rows && rows[y].path.Some? && rows[y].parent.Some?
  {
    var p := rows[y].parent.value;
    var above := if p == x then Some(from) else PathOf(rows, p);
    above.Some? && rows[y].path.value == Join(above.value, rows[y].name)
  }

  lemma {:induction false} PathIsBelow(rows: Rows, rank: Id -> nat, y: Id, x: Id, from: Path)
    requires Acyclic(rows, rank) && Under(rows, rank, y, x) && SoundBut(rows, rank, x, from) && rows[y].path.Some?
    ensures Below(rows[y].path.value, from)
    decreases rank(y)
  {
    UnderIsBelow(rows, rank, y, x);
    assert FollowsParent(rows, y, x, from);
    var p := rows[y].parent.value;
    if p != x {
      PathIsBelow(rows, rank, p, x, from);
      assert rows[y].path.value[..|from|] == rows[p].path.value[..|from|];
    }
  }

  /** The new row fits its parent, as far as it has a path. */
  predicate FitsParent(rows: Rows, x: Id, row: Row) {
    row.path.Some? ==>
      match row.parent
      case None => row.path.value == ""
      case Some(p) => p != x && PathOf(rows, p).Some? && row.path.value == Join(PathOf(rows, p).value, row.name)
  }

  lemma BeforeTheCascade(rows: Rows, rank: Id -> nat, x: Id, row: Row)
    requires Sound(rows) && PathOf(rows, x).Some? && Acyclic(rows[x := row], rank)
    ensures SoundBut(rows[x := row], rank, x, PathOf(rows, x).value)
  {
    var s := rows[x := row];
    forall z | Under(s, rank, z, x) && s[z].path.Some?
      ensures FollowsParent(s, z, x, PathOf(rows, x).value)
    {
      UnderIsBelow(s, rank, z, x);
      assert SoundAt(rows, z);
    }
  }

  /** The row itself, and a row outside its subtree. */
  lemma StillSoundOutside(rows: Rows, rank: Id -> nat, x: Id, row: Row, y: Id)
    requires Sound(rows) && Acyclic(rows[x := row], rank) && FitsParent(rows, x, row)
    requires PathOf(rows, x).Some? ==> row.path.Some?
    requires y in rows[x := row] && !Under(rows[x := row], rank, y, x)
    ensures SoundAt(Written(rows, rank, x, row), y)
  {
    var s, t := rows[x := row], Written(rows, rank, x, row);
    if y != x {
      assert SoundAt(rows, y);
    }
    assert t[y] == s[y];
    if s[y].parent.Some? {
      var p := s[y].parent.value;
      assert p != x;
      if Under(s, rank, p, x) {
        UnderIsBelow(s, rank, p, x);
      }
    }
  }

  lemma StillSoundInside(rows: Rows, rank: Id -> nat, x: Id, row: Row, y: Id)
    requires Sound(rows) && Acyclic(rows[x := row], rank)
    requires PathOf(rows, x).Some? ==> row.path.Some?
    requires Under(rows[x := row], rank, y, x)
    ensures SoundAt(Written(rows, rank, x, row), y)
  {
    var s, t := rows[x := row], Written(rows, rank, x, row);
    UnderIsBelow(s, rank, y, x);
    assert SoundAt(rows, y);
    if PathOf(rows, x).Some? && PathOf(rows, x) != row.path && s[y].path.Some? {
      BeforeTheCascade(rows, rank, x, row);
      MovedWithParent(s, rank, y, x, PathOf(rows, x).value, row.path.value);
      var p := s[y].parent.value;
      if p == x {
        assert !Under(s, rank, x, x) by {
          if Under(s, rank, x, x) { UnderIsBelow(s, rank, x, x); }
        }
        assert t[x] == row;
      } else {
        assert Under(s, rank, p, x);
      }
    }
  }

  /** A moved row follows its moved parent. */
  lemma MovedWithParent(s: Rows, rank: Id -> nat, y: Id, x: Id, from: Path, to: Path)
    requires Acyclic(s, rank) && Under(s, rank, y, x) && SoundBut(s, rank, x, from)
    requires y != x && s[y].path.Some?
    ensures var p := s[y].parent.value;
      p == x || (PathOf(s, p).Some?
        && Rebased(s[y], from, to).path.value == Join(Rebased(s[p], from, to).path.value, s[y].name))
    ensures s[y].parent.value == x ==> Rebased(s[y], from, to).path.value == Join(to, s[y].name)
  {
    assert FollowsParent(s, y, x, from);
    var p := s[y].parent.value;
    if p != x {
      PathIsBelow(s, rank, p, x, from);
      TailOfJoin(s[p].path.value, s[y].name, from, to);
    } else {
      TailOfJoin(from, s[y].name, from, to);
    }
  }

  lemma TailOfJoin(above: Path, name: string, from: Path, to: Path)
    requires |from| <= |above|
    ensures to + Tail(Join(above, name), |from|) == Join(to + Tail(above, |from|), name)
    ensures above == from ==> to + Tail(above, |from|) == to
  {
    assert Join(above, name)[|from|..] == above[|from|..] + "/" + name;
  }

  lemma WriteKeepsSound(rows: Rows, rank: Id -> nat, x: Id, row: Row)
    requires Sound(rows) && Acyclic(rows[x := row], rank) && FitsParent(rows, x, row)
    requires PathOf(rows, x).Some? ==> row.path.Some?
    ensures Sound(Written(rows, rank, x, row))
  {
    forall y | y in Written(rows, rank, x, row) ensures SoundAt(Written(rows, rank, x, row), y) {
      if Under(rows[x := row], rank, y, x) {
        StillSoundInside(rows, rank, x, row, y);
      } else {
        StillSoundOutside(rows, rank, x, row, y);
      }
    }
  }

  /** Moving keeps every cached path right if and only if the row had no path yet or
      the destination has one. */
  lemma RenameKeepsPathsIff(rows: Rows, rank: Id -> nat, x: Id, parent: Id, name: string)
    requires Sound(rows) && x in rows && Acyclic(rows[x := RenamedRow(rows, x, parent, name)], rank)
    ensures Sound(Written(rows, rank, x, RenamedRow(rows, x, parent, name)))
       <==> rows[x].path.None? || PathOf(rows, parent).Some?
  {
    var row := RenamedRow(rows, x, parent, name);
    var s := rows[x := row];
    assert s[x] == row && rank(row.parent.value) < rank(x);
    if rows[x].path.None? || PathOf(rows, parent).Some? {
      WriteKeepsSound(rows, rank, x, row);
    } else {
      assert !SoundAt(s, x);
    }
  }

  /** The same for an upsert that is not skipped: a row that has a path keeps it when its
      new parent is not known, and then it is wrong. */
  lemma UpsertKeepsPathsIff(rows: Rows, rank: Id -> nat, g: GraphItem)
    requires Sound(rows) && g.Item? && Fits(rows, rank, g)
    requires !Taken(rows, RowFor(rows, g.id), UpsertedRow(rows, g).path)
    ensures Sound(Upserted(rows, rank, g)) <==>
      || g.isRoot
      || PathOf(rows, RowFor(rows, g.id)).None?
      || (g.parent.Some? && PathOf(rows, LocalParent(rows, g.parent.value)).Some?)
      || (g.parent.None? && PathOf(rows, RowFor(rows, g.id)) == Some(""))
  {
    var x, row := RowFor(rows, g.id), UpsertedRow(rows, g);
    var s := rows[x := row];
    assert row.parent.Some? ==> s[x].parent.Some? && rank(row.parent.value) < rank(x);
    if FitsParent(rows, x, row) {
      WriteKeepsSound(rows, rank, x, row);
    } else {
      assert !SoundAt(s, x);
    }
  }

  lemma WrittenIsAcyclic(rows: Rows, rank: Id -> nat, x: Id, row: Row)
    requires Acyclic(rows[x := row], rank)
    ensures Acyclic(Written(rows, rank, x, row), rank)
  {
    var s, t := rows[x := row], Written(rows, rank, x, row);
    forall y | y in t && t[y].parent.Some? ensures rank(t[y].parent.value) < rank(y) {
      assert t[y].parent == s[y].parent;
    }
  }

  /** A move to a folder with a known path: every cached path, of the row, its subtree
      and everything else, is the one recomputed over the new links. */
  lemma RenamedPathsAreRecomputed(rows: Rows, rank: Id -> nat, x: Id, parent: Id, name: string, y: Id)
    requires Sound(rows) && x in rows && PathOf(rows, parent).Some?
    requires Acyclic(rows[x := RenamedRow(rows, x, parent, name)], rank)
    ensures var t := Written(rows, rank, x, RenamedRow(rows, x, parent, name));
      && Acyclic(t, rank)
      && (PathOf(t, y).Some? ==> t[y].path.value == Recomputed(t, rank, y))
      && (PathOf(t, y).Some? <==> PathOf(rows, y).Some? || y == x)
  {
    var row := RenamedRow(rows, x, parent, name);
    RenameKeepsPathsIff(rows, rank, x, parent, name);
    WrittenIsAcyclic(rows, rank, x, row);
    var t := Written(rows, rank, x, row);
    if PathOf(t, y).Some? {
      SoundIsRecomputed(t, rank, y);
    }
    if Under(rows[x := row], rank, x, x) {
      UnderIsBelow(rows[x := row], rank, x, x);
    }
  }

  /** Outside the moved subtree nothing changes; inside, only paths. */
  lemma WriteTouchesOnlySubtree(rows: Rows, rank: Id -> nat, x: Id, row: Row, y: Id)
    requires Acyclic(rows[x := row], rank) && y in rows && y != x
    ensures var t := Written(rows, rank, x, row);
      && y in t
      && (!Under(rows[x := row], rank, y, x) ==> t[y] == rows[y])
      && t[y].(path := None) == rows[y].(path := None)
  {
  }

  // ---- no two live rows come to share a path ----

  /** With no slash in the name, what lies above a path lies above its parent's path. */
  lemma BelowThroughParent(above: Path, name: string, to: Path)
    requires '/' !in name && Below(Join(above, name), to)
    ensures above == to || Below(above, to)
  {
    var path := Join(above, name);
    assert forall k :: |above| < k < |path| ==> path[k] == name[k - |above| - 1];
    assert path[..|to|] == above[..|to|];
  }

  /** If no live row outside has the new path, none has one below it. */
  lemma {:induction false} FreeAllTheWayDown(s: Rows, rank: Id -> nat, x: Id, to: Path, y: Id)
    requires Acyclic(s, rank) && PlainNames(s) && ParentsLive(s)
    requires forall z :: z in s && z != x && s[z].path.Some? && !Under(s, rank, z, x) ==> SoundAt(s, z)
    requires forall z :: Live(s, z) && z != x && !Under(s, rank, z, x) ==> s[z].path != Some(to)
    requires Live(s, y) && y != x && !Under(s, rank, y, x) && s[y].path.Some?
    ensures !Below(s[y].path.value, to)
    decreases rank(y)
  {
    var path := s[y].path.value;
    if Below(path, to) {
      assert SoundAt(s, y);
      var p := s[y].parent.value;
      assert ParentLive(s, y);
      var above := s[p].path.value;
      assert path == above + "/" + s[y].name;
      BelowThroughParent(above, s[y].name, to);
      if above != to {
        FreeAllTheWayDown(s, rank, x, to, p);
      }
    }
  }

  lemma RebasedTail(row: Row, from: Path, to: Path)
    requires row.path.Some? && Below(row.path.value, from)
    ensures Rebased(row, from, to).path.Some?
    ensures Below(Rebased(row, from, to).path.value, to)
    ensures row.path.value == from + Rebased(row, from, to).path.value[|to|..]
  {
    var p := row.path.value;
    var q := to + p[|from|..];
    assert q[..|to|] == to;
    assert q[|to|..] == p[|from|..];
  }

  /** What a row of the moved subtree looks like: `x` itself, or a path below it. */
  lemma InsideIsBelow(rows: Rows, rank: Id -> nat, x: Id, row: Row, y: Id)
    requires Sound(rows) && x in rows && rows[x].path.Some? && row.path.Some? && rows[x].path != row.path
    requires Acyclic(rows[x := row], rank) && y in rows && rows[y].path.Some?
    requires Under(rows[x := row], rank, y, x)
    ensures var t := Written(rows, rank, x, row);
      && y != x && t[y].path.Some? && Below(t[y].path.value, row.path.value)
      && rows[y].path.value == rows[x].path.value + t[y].path.value[|row.path.value|..]
  {
    var s := rows[x := row];
    UnderIsBelow(s, rank, y, x);
    BeforeTheCascade(rows, rank, x, row);
    PathIsBelow(s, rank, y, x, rows[x].path.value);
    RebasedTail(rows[y], rows[x].path.value, row.path.value);
  }

  /** A move onto a free path leaves all live paths different, however large the
      subtree: only the path of the moved row itself needs checking. */
  lemma MoveKeepsPathsUnique(rows: Rows, rank: Id -> nat, x: Id, row: Row)
    requires Sound(rows) && UniquePaths(rows) && ParentsLive(rows[x := row]) && PlainNames(rows[x := row])
    requires x in rows && rows[x].path.Some? && row.path.Some?
    requires Acyclic(rows[x := row], rank)
    requires !Taken(rows, x, row.path)
    ensures UniquePaths(Written(rows, rank, x, row))
  {
    var t := Written(rows, rank, x, row);
    forall y, z | Live(t, y) && Live(t, z) && t[y].path.Some? && t[y].path == t[z].path ensures y == z {
      if y != z {
        if rows[x].path != row.path {
          MovedPairDiffers(rows, rank, x, row, y, z);
        } else {
          StayingPairDiffers(rows, x, row, y, z);
        }
      }
    }
  }

  lemma StayingPairDiffers(rows: Rows, x: Id, row: Row, y: Id, z: Id)
    requires UniquePaths(rows) && x in rows && row.path.Some? && rows[x].path == row.path
    requires !Taken(rows, x, row.path)
    requires y != z && Live(rows[x := row], y) && Live(rows[x := row], z) && rows[x := row][y].path.Some?
    ensures rows[x := row][y].path != rows[x := row][z].path
  {
  }

  lemma MovedPairDiffers(rows: Rows, rank: Id -> nat, x: Id, row: Row, y: Id, z: Id)
    requires Sound(rows) && UniquePaths(rows) && ParentsLive(rows[x := row]) && PlainNames(rows[x := row])
    requires x in rows && rows[x].path.Some? && row.path.Some? && rows[x].path != row.path
    requires Acyclic(rows[x := row], rank)
    requires !Taken(rows, x, row.path)
    requires y in rows && z in rows && y != z
    requires var t := Written(rows, rank, x, row); Live(t, y) && Live(t, z) && t[y].path.Some?
    ensures var t := Written(rows, rank, x, row); t[y].path != t[z].path
  {
    var s, t := rows[x := row], Written(rows, rank, x, row);
    var yIn, zIn := y == x || Under(s, rank, y, x), z == x || Under(s, rank, z, x);
    if Under(s, rank, x, x) { UnderIsBelow(s, rank, x, x); }
    if t[y].path == t[z].path {
      if Under(s, rank, y, x) { InsideIsBelow(rows, rank, x, row, y); }
      if Under(s, rank, z, x) { InsideIsBelow(rows, rank, x, row, z); }
      if yIn && !zIn { OutsideIsFree(rows, rank, x, row, z); }
      if zIn && !yIn { OutsideIsFree(rows, rank, x, row, y); }
    }
  }

  lemma OutsideIsFree(rows: Rows, rank: Id -> nat, x: Id, row: Row, y: Id)
    requires Sound(rows) && ParentsLive(rows[x := row]) && PlainNames(rows[x := row])
    requires x in rows && row.path.Some? && Acyclic(rows[x := row], rank)
    requires !Taken(rows, x, row.path)
    requires Live(rows, y) && y != x && !Under(rows[x := row], rank, y, x) && rows[y].path.Some?
    ensures rows[y].path != row.path && !Below(rows[y].path.value, row.path.value)
  {
    var s := rows[x := row];
    forall z | z in s && z != x && s[z].path.Some? && !Under(s, rank, z, x) ensures SoundAt(s, z) {
      assert SoundAt(rows, z);
    }
    FreeAllTheWayDown(s, rank, x, row.path.value, y);
  }
}
