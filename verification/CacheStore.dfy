/** The cache's own methods, updating the table in place. */
module CacheStore {
  import opened Basics
  import opened Paths
  import opened CacheModel
  import opened CacheTree
  import opened CacheIdentity
  import CacheCrawl
  import CacheWalk

  // ---- the cascade, child by child ----

  ghost function Children(rows: Rows, x: Id): set<Id> { set y | y in rows && rows[y].parent == Some(x) }

  /** `y` is one of `done` or lies below one of them. */
  ghost predicate InSubtrees(rows: Rows, rank: Id -> nat, done: set<Id>, y: Id)
    requires Acyclic(rows, rank)
  {
    exists c :: c in done && (y == c || Under(rows, rank, y, c))
  }

  /** The cascade after the subtrees of `done`. */
  ghost function Partly(rows: Rows, rank: Id -> nat, done: set<Id>, from: Path, to: Path): Rows
    requires Acyclic(rows, rank)
  {
    map y | y in rows :: if InSubtrees(rows, rank, done, y) then Rebased(rows[y], from, to) else rows[y]
  }

  predicate SameLinks(a: Rows, b: Rows) {
    a.Keys == b.Keys && forall y :: y in a ==> a[y].parent == b[y].parent
  }

  lemma {:induction false} UnderSameLinks(a: Rows, b: Rows, rank: Id -> nat, y: Id, x: Id)
    requires SameLinks(a, b) && Acyclic(a, rank) && Acyclic(b, rank)
    ensures Under(a, rank, y, x) <==> Under(b, rank, y, x)
    decreases rank(y)
  {
    if y in a && a[y].parent.Some? {
      UnderSameLinks(a, b, rank, a[y].parent.value, x);
    }
  }

  lemma {:induction false} UnderTransitive(rows: Rows, rank: Id -> nat, y: Id, c: Id, x: Id)
    requires Acyclic(rows, rank) && Under(rows, rank, y, c) && Under(rows, rank, c, x)
    ensures Under(rows, rank, y, x)
    decreases rank(y)
  {
    if rows[y].parent.value != c {
      UnderTransitive(rows, rank, rows[y].parent.value, c, x);
    }
  }

  /** Below `x` means: a child of `x`, or below one. */
  lemma {:induction false} UnderThroughChild(rows: Rows, rank: Id -> nat, y: Id, x: Id)
    requires Acyclic(rows, rank)
    ensures Under(rows, rank, y, x) <==> InSubtrees(rows, rank, Children(rows, x), y)
    decreases rank(y)
  {
    if Under(rows, rank, y, x) {
      if rows[y].parent.value == x {
        assert y in Children(rows, x);
      } else {
        UnderThroughChild(rows, rank, rows[y].parent.value, x);
      }
    }
    forall c | c in Children(rows, x) && Under(rows, rank, y, c) ensures Under(rows, rank, y, x) {
      assert Under(rows, rank, c, x);
      UnderTransitive(rows, rank, y, c, x);
    }
  }

  /** Two children's subtrees share nothing. */
  lemma {:induction false} SiblingsApart(rows: Rows, rank: Id -> nat, x: Id, c: Id, d: Id, y: Id)
    requires Acyclic(rows, rank) && c in Children(rows, x) && d in Children(rows, x) && c != d
    requires y == c || Under(rows, rank, y, c)
    ensures y != d && !Under(rows, rank, y, d)
    decreases rank(y)
  {
    if y == d || Under(rows, rank, y, d) {
      if y == c || y == d {
        if Under(rows, rank, x, c) { UnderIsBelow(rows, rank, x, c); }
        if Under(rows, rank, x, d) { UnderIsBelow(rows, rank, x, d); }
      } else {
        var p := rows[y].parent.value;
        if p == c || Under(rows, rank, p, c) {
          SiblingsApart(rows, rank, x, c, d, p);
        }
      }
    }
  }

  /** Below a row without a path no row has one. */
  lemma {:induction false} NoPathsBelow(rows: Rows, rank: Id -> nat, x: Id, from: Path, c: Id, y: Id)
    requires Acyclic(rows, rank) && SoundBut(rows, rank, x, from) && c in Children(rows, x)
    requires rows[c].path.None? && (y == c || Under(rows, rank, y, c))
    ensures y in rows && rows[y].path.None?
    decreases rank(y)
  {
    if y != c {
      var p := rows[y].parent.value;
      SelfIsNotUnder(rows, rank, x, c);
      UnderTransitive(rows, rank, y, c, x);
      assert rows[y].path.Some? ==> FollowsParent(rows, y, x, from);
      NoPathsBelow(rows, rank, x, from, c, p);
    }
  }

  lemma SelfIsNotUnder(rows: Rows, rank: Id -> nat, x: Id, c: Id)
    requires Acyclic(rows, rank) && c in Children(rows, x)
    ensures x != c && !Under(rows, rank, x, c)
  {
    if Under(rows, rank, x, c) {
      UnderIsBelow(rows, rank, x, c);
    }
  }

  /** The table when the cascade turns to child `c`. */
  ghost function AtChild(start: Rows, rank: Id -> nat, done: set<Id>, c: Id, from: Path, to: Path): Rows
    requires Acyclic(start, rank) && c in start
  {
    Partly(start, rank, done, from, to)[c := Rebased(start[c], from, to)]
  }

  lemma AtChildLinks(start: Rows, rank: Id -> nat, done: set<Id>, c: Id, from: Path, to: Path)
    requires Acyclic(start, rank) && c in start
    ensures SameLinks(start, AtChild(start, rank, done, c, from, to))
    ensures Acyclic(AtChild(start, rank, done, c, from, to), rank)
  {
    var now := AtChild(start, rank, done, c, from, to);
    assert forall y :: y in now ==> now[y].parent == start[y].parent;
  }

  /** The rows below `c` are still as they were. */
  lemma UntouchedBelow(start: Rows, rank: Id -> nat, x: Id, done: set<Id>, c: Id, from: Path, to: Path, y: Id)
    requires Acyclic(start, rank) && done <= Children(start, x) && c in Children(start, x) && c !in done
    requires y == c || Under(start, rank, y, c)
    ensures y in start && !InSubtrees(start, rank, done, y)
  {
    forall d | d in done ensures y != d && !Under(start, rank, y, d) {
      SiblingsApart(start, rank, x, c, d, y);
    }
  }

  lemma ChildIsSoundBut(start: Rows, rank: Id -> nat, x: Id, done: set<Id>, c: Id, from: Path, to: Path)
    requires Acyclic(start, rank) && SoundBut(start, rank, x, from)
    requires done <= Children(start, x) && c in Children(start, x) && c !in done && start[c].path.Some?
    ensures var now := AtChild(start, rank, done, c, from, to);
      Acyclic(now, rank) && SoundBut(now, rank, c, start[c].path.value)
  {
    AtChildLinks(start, rank, done, c, from, to);
    var now := AtChild(start, rank, done, c, from, to);
    forall y | Under(now, rank, y, c) && now[y].path.Some? ensures FollowsParent(now, y, c, start[c].path.value) {
      UnderSameLinks(start, now, rank, y, c);
      UnderIsBelow(start, rank, y, c);
      UntouchedBelow(start, rank, x, done, c, from, to, y);
      UnderTransitive(start, rank, y, c, x);
      assert FollowsParent(start, y, x, from);
      var p := start[y].parent.value;
      SelfIsNotUnder(start, rank, x, c);
      if p != c {
        UntouchedBelow(start, rank, x, done, c, from, to, p);
      }
    }
  }

  lemma RebasedTwice(row: Row, from: Path, to: Path, mid: Path)
    requires |from| <= |mid| && (row.path.Some? ==> Below(row.path.value, mid))
    ensures Rebased(row, mid, to + mid[|from|..]) == Rebased(row, from, to)
  {
    if row.path.Some? {
      var p := row.path.value;
      assert p == mid + p[|mid|..];
      assert p[|from|..] == mid[|from|..] + p[|mid|..];
      assert to + mid[|from|..] + p[|mid|..] == to + (mid[|from|..] + p[|mid|..]);
    }
  }

  lemma OneChildAt(start: Rows, rank: Id -> nat, x: Id, done: set<Id>, c: Id, from: Path, to: Path, y: Id)
    requires Acyclic(start, rank) && SoundBut(start, rank, x, from)
    requires done <= Children(start, x) && c in Children(start, x) && c !in done && start[c].path.Some?
    requires y in start && |from| <= |start[c].path.value|
    requires Acyclic(AtChild(start, rank, done, c, from, to), rank)
    ensures var now := AtChild(start, rank, done, c, from, to);
      var mid := start[c].path.value;
      Cascaded(now, rank, c, mid, to + mid[|from|..])[y] == Partly(start, rank, done + {c}, from, to)[y]
  {
    var now := AtChild(start, rank, done, c, from, to);
    var mid := start[c].path.value;
    AtChildLinks(start, rank, done, c, from, to);
    UnderSameLinks(start, now, rank, y, c);
    if Under(start, rank, y, c) {
      UntouchedBelow(start, rank, x, done, c, from, to, y);
      UnderIsBelow(start, rank, y, c);
      ChildIsSoundBut(start, rank, x, done, c, from, to);
      assert now[y] == start[y];
      if now[y].path.Some? { PathIsBelow(now, rank, y, c, mid); }
      RebasedTwice(start[y], from, to, mid);
      assert c in done + {c};
      assert InSubtrees(start, rank, done + {c}, y);
    } else if y == c {
      assert c in done + {c};
      assert InSubtrees(start, rank, done + {c}, c);
    } else {
      assert InSubtrees(start, rank, done + {c}, y) <==> InSubtrees(start, rank, done, y);
    }
  }

  lemma OneChild(start: Rows, rank: Id -> nat, x: Id, done: set<Id>, c: Id, from: Path, to: Path)
    requires Acyclic(start, rank) && SoundBut(start, rank, x, from)
    requires done <= Children(start, x) && c in Children(start, x) && c !in done && start[c].path.Some?
    ensures |from| <= |start[c].path.value|
    ensures var now := AtChild(start, rank, done, c, from, to);
      var mid := start[c].path.value;
      Acyclic(now, rank) && SoundBut(now, rank, c, mid)
      && Cascaded(now, rank, c, mid, to + mid[|from|..]) == Partly(start, rank, done + {c}, from, to)
  {
    PathIsBelow(start, rank, c, x, from);
    ChildIsSoundBut(start, rank, x, done, c, from, to);
    forall y | y in start
      ensures Cascaded(AtChild(start, rank, done, c, from, to), rank, c, start[c].path.value, to + start[c].path.value[|from|..])[y]
           == Partly(start, rank, done + {c}, from, to)[y]
    {
      OneChildAt(start, rank, x, done, c, from, to, y);
    }
  }

  /** A child without a path is passed over, with everything below it. */
  lemma SkippedChild(start: Rows, rank: Id -> nat, x: Id, done: set<Id>, c: Id, from: Path, to: Path)
    requires Acyclic(start, rank) && SoundBut(start, rank, x, from)
    requires done <= Children(start, x) && c in Children(start, x) && start[c].path.None?
    ensures Partly(start, rank, done + {c}, from, to) == Partly(start, rank, done, from, to)
  {
    forall y | y in start
      ensures Partly(start, rank, done + {c}, from, to)[y] == Partly(start, rank, done, from, to)[y]
    {
      if y == c || Under(start, rank, y, c) {
        NoPathsBelow(start, rank, x, from, c, y);
      } else {
        assert InSubtrees(start, rank, done + {c}, y) <==> InSubtrees(start, rank, done, y);
      }
    }
  }

  lemma AllChildren(start: Rows, rank: Id -> nat, x: Id, from: Path, to: Path)
    requires Acyclic(start, rank)
    ensures Partly(start, rank, Children(start, x), from, to) == Cascaded(start, rank, x, from, to)
    ensures Partly(start, rank, {}, from, to) == start
  {
    forall y | y in start ensures InSubtrees(start, rank, Children(start, x), y) <==> Under(start, rank, y, x) {
      UnderThroughChild(start, rank, y, x);
    }
  }

  /** A bound on the ranks in use. */
  lemma {:induction false} Ceiling(keys: set<Id>, rank: Id -> nat) returns (top: nat)
    ensures forall y :: y in keys ==> rank(y) <= top
  {
    if keys == {} {
      top := 0;
    } else {
      var y :| y in keys;
      var rest := Ceiling(keys - {y}, rank);
      top := if rank(y) > rest then rank(y) else rest;
    }
  }

  class ItemCache {
    var rows: Rows

    constructor ()
      ensures rows == map[]
    {
      rows := map[];
    }

    /** `_cascade_path_update`: recursion over the children, each row written once. It
        ends because ranks rise along parent links. */
    method CascadePathUpdate(x: Id, from: Path, to: Path, ghost rank: Id -> nat, ghost top: nat)
      requires Acyclic(rows, rank) && SoundBut(rows, rank, x, from)
      requires rank(x) <= top && forall y :: y in rows ==> rank(y) <= top
      modifies this
      ensures rows == Cascaded(old(rows), rank, x, from, to)
      decreases top - rank(x)
    {
      var start := rows;
      var todo := set y | y in start && start[y].parent == Some(x);
      ghost var done: set<Id> := {};
      AllChildren(start, rank, x, from, to);
      while todo != {}
        invariant done + todo == Children(start, x) && done !! todo
        invariant rows == Partly(start, rank, done, from, to)
        decreases todo
      {
        var c :| c in todo;
        todo := todo - {c};
        var childFrom := start[c].path;
        if childFrom.Some? {
          OneChild(start, rank, x, done, c, from, to);
          UntouchedBelow(start, rank, x, done, c, from, to, c);
          var childTo := to + childFrom.value[|from|..];
          rows := rows[c := rows[c].(path := Some(childTo))];
          assert rows == AtChild(start, rank, done, c, from, to);
          CascadePathUpdate(c, childFrom.value, childTo, rank, top);
        } else {
          SkippedChild(start, rank, x, done, c, from, to);
        }
        done := done + {c};
      }
    }

    /** Writes row `x` and cascades if its path has changed. */
    method WriteRow(x: Id, row: Row, ghost rank: Id -> nat)
      requires Sound(rows) && Acyclic(rows[x := row], rank)
      modifies this
      ensures rows == Written(old(rows), rank, x, row)
    {
      var from := if x in rows then rows[x].path else None;
      if from.Some? { BeforeTheCascade(rows, rank, x, row); }
      rows := rows[x := row];
      if from.Some? && row.path.Some? && from != row.path {
        ghost var top := Ceiling(rows.Keys, rank);
        CascadePathUpdate(x, from.value, row.path.value, rank, top);
      }
    }

    /** `rename_item_local`; an unknown row is left alone. */
    method RenameItemLocal(x: Id, parent: Id, name: string, ghost rank: Id -> nat)
      requires Sound(rows)
      requires x in rows ==> Acyclic(rows[x := RenamedRow(rows, x, parent, name)], rank)
      modifies this
      ensures x !in old(rows) ==> rows == old(rows)
      ensures x in old(rows) ==> rows == Written(old(rows), rank, x, RenamedRow(old(rows), x, parent, name))
    {
      if x !in rows {
        return;
      }
      var parentPath := if parent in rows then rows[parent].path else None;
      var path := if parentPath.Some? then Some(parentPath.value + "/" + name) else rows[x].path;
      WriteRow(x, rows[x].(parent := Some(parent), name := name, path := path), rank);
    }

    /** `SELECT id FROM items WHERE remote_id=?`. */
    method FindByRemoteId(r: RemoteId) returns (found: Option<Id>)
      requires Identity(rows)
      ensures found == Holder(rows, r)
    {
      found := None;
      var todo := rows.Keys;
      while todo != {}
        invariant todo <= rows.Keys
        invariant forall x :: x in rows && x !in todo ==> rows[x].remoteId != Some(r)
        decreases todo
      {
        var x :| x in todo;
        todo := todo - {x};
        if rows[x].remoteId == Some(r) {
          HolderIs(rows, x, r);
          return Some(x);
        }
      }
    }

    /** `upsert_item`: two-level lookup, parent translation, path, collision skip, cascade. */
    method UpsertItem(g: GraphItem, ghost rank: Id -> nat)
      requires Sound(rows) && Identity(rows) && Fits(rows, rank, g)
      modifies this
      ensures rows == Upserted(old(rows), rank, g)
    {
      if g.Gone? {
        rows := Buried(rows, g.id);
        return;
      }
      var parent := None;
      if !g.isRoot && g.parent.Some? {
        var holder := FindByRemoteId(g.parent.value);
        parent := Some(if holder.Some? then holder.value else Graph(g.parent.value));
      }
      var existing := if Graph(g.id) in rows then Some(Graph(g.id)) else None;
      if existing.None? {
        existing := FindByRemoteId(g.id);
      }
      var x := if existing.Some? then existing.value else Graph(g.id);
      var was := if existing.Some? && x in rows then rows[x].path else None;
      var path := was;
      if g.isRoot {
        path := Some("");
      } else if parent.Some? && parent.value in rows && rows[parent.value].path.Some? {
        path := Some(rows[parent.value].path.value + "/" + g.name);
      }
      var row := Row(Some(g.id), parent, g.name, path, g.isFolder, g.meta, false);
      assert x == RowFor(rows, g.id) && row == UpsertedRow(rows, g);
      var collides := path.Some? && exists y :: y in rows && y != x && !rows[y].deleted && rows[y].path == path;
      if !collides {
        WriteRow(x, row, rank);
      }
    }

    /** `insert_pending_item`. */
    method InsertPendingItem(n: nat, parent: Id, name: string, isFolder: bool)
      requires Pending(n) !in rows
      modifies this
      ensures rows == old(rows)[Pending(n) := PendingRow(old(rows), parent, name, isFolder)]
    {
      var parentPath := if parent in rows then rows[parent].path else None;
      var path := if parentPath.Some? then Some(parentPath.value + "/" + name) else None;
      rows := rows[Pending(n) := Row(None, Some(parent), name, path, isFolder, NO_META, false)];
    }

    /** `confirm_synced_item`: an `UPDATE`, so a missing row is left missing. */
    method ConfirmSyncedItem(x: Id, r: RemoteId, meta: Meta)
      modifies this
      ensures rows == if x in old(rows) then old(rows)[x := ConfirmedRow(old(rows)[x], r, meta)] else old(rows)
    {
      if x in rows {
        rows := rows[x := rows[x].(remoteId := Some(r), meta := meta)];
      }
    }

    /** One `UPDATE` of `resolve_pending_paths`, and its row count. */
    method ResolveOnce() returns (changed: nat)
      modifies this
      ensures rows == Round(old(rows))
      ensures changed == 0 <==> rows == old(rows)
    {
      RoundIsIdleIff(rows);
      var resolvable := set x | x in rows && Resolvable(rows, x);
      changed := |resolvable|;
      assert changed == 0 ==> forall x :: x in rows && Resolvable(rows, x) ==> x in resolvable;
      assert changed > 0 ==> exists x :: x in resolvable;
      rows := map x | x in rows ::
        if x in resolvable then rows[x].(path := Some(ParentJoin(rows, x))) else rows[x];
    }

    /** `resolve_pending_paths`: rounds until one changes nothing. */
    method ResolvePendingPaths() returns (ghost rounds: nat)
      modifies this
      ensures rows == CacheCrawl.Rounds(old(rows), rounds) && Round(rows) == rows
      ensures rounds <= |CacheCrawl.Unresolved(old(rows))|
    {
      rounds := 0;
      while true
        invariant rows == CacheCrawl.Rounds(old(rows), rounds)
        invariant rounds + |CacheCrawl.Unresolved(rows)| <= |CacheCrawl.Unresolved(old(rows))|
        decreases CacheCrawl.Unresolved(rows)
      {
        ghost var before := rows;
        CacheCrawl.RoundsEnd(before);
        var changed := ResolveOnce();
        if changed == 0 {
          break;
        }
        Smaller(CacheCrawl.Unresolved(rows), CacheCrawl.Unresolved(before));
        rounds := rounds + 1;
      }
    }

    /** `list_descendants`: exactly the rows the prefix query would give, each once. */
    method ListDescendants(root: Id, ghost rank: Id -> nat) returns (result: seq<Id>)
      requires Acyclic(rows, rank) && CacheWalk.Indexed(rows) && Live(rows, root)
      ensures CacheWalk.Distinct(result)
      ensures forall y :: y in result <==> CacheWalk.Matches(rows, rows[root].path.value, y)
    {
      result := CacheWalk.ListDescendants(rows, rank, root);
      forall y ensures y in result <==> CacheWalk.Matches(rows, rows[root].path.value, y) {
        CacheWalk.WalkIsPrefixQuery(rows, rank, root, y);
      }
    }
  }

  lemma Smaller(a: set<Id>, b: set<Id>)
    requires a < b
    ensures |a| < |b|
  {
    assert b == a + (b - a) && b - a != {};
  }

  lemma RoundIsIdleIff(rows: Rows)
    ensures Round(rows) == rows <==> forall x :: x in rows ==> !Resolvable(rows, x)
  {
    if Round(rows) == rows {
      forall x | x in rows ensures !Resolvable(rows, x) {
        assert Round(rows)[x] == rows[x];
      }
    }
  }

  /** A first sync on the real table: whatever the order of the pages, it ends with
      the tree's rows. */
  method FirstCrawl(tree: CacheCrawl.Tree, ghost rank: Id -> nat, order: seq<RemoteId>) returns (cache: ItemCache)
    requires CacheCrawl.Rooted(tree, rank) && CacheCrawl.Order(tree, order) && forall r :: r in tree ==> r in order
    ensures cache.rows == CacheCrawl.Complete(tree, rank)
  {
    cache := new ItemCache();
    for k := 0 to |order|
      invariant fresh(cache)
      invariant cache.rows == CacheCrawl.Crawled(tree, rank, order, k)
    {
      CrawledIsIdentified(tree, rank, order, k);
      cache.UpsertItem(tree[order[k]], rank);
    }
    ghost var n := cache.ResolvePendingPaths();
    CacheCrawl.CrawlOrderIsIrrelevant(tree, rank, order, n);
  }

  lemma CrawledIsIdentified(tree: CacheCrawl.Tree, rank: Id -> nat, order: seq<RemoteId>, k: nat)
    requires CacheCrawl.Rooted(tree, rank) && CacheCrawl.Order(tree, order) && k < |order|
    ensures var rows := CacheCrawl.Crawled(tree, rank, order, k);
      && Sound(rows) && Identity(rows) && Fits(rows, rank, tree[order[k]])
      && CacheCrawl.Crawled(tree, rank, order, k + 1) == Upserted(rows, rank, tree[order[k]])
  {
    var rows := CacheCrawl.Crawled(tree, rank, order, k);
    var seen := CacheCrawl.Elements(order[..k]);
    forall x | x in rows ensures x.Graph? && rows[x].remoteId == Some(x.r) {
      assert CacheCrawl.RowRight(rows, tree, rank, x.r);
    }
    assert order[k] in order && order[k] !in order[..k];
    CacheCrawl.UpsertOne(rows, tree, rank, seen, order[k]);
  }
}
