/** A first crawl: items arrive in any order, children before parents included, and the
    table ends up the same. */
module CacheCrawl {
  import opened Basics
  import opened Paths
  import opened CacheModel
  import opened CacheTree
  import opened CacheWalk

  /** The drive: one root, every parent an item, sibling names different. */
  type Tree = map<RemoteId, GraphItem>

  ghost predicate Rooted(tree: Tree, rank: Id -> nat) {
    && (forall r :: r in tree ==> NodeOk(tree, rank, r))
    && (forall a, b :: a in tree && b in tree && SameSlot(tree[a], tree[b]) ==> a == b)
  }

  predicate NodeOk(tree: Tree, rank: Id -> nat, r: RemoteId)
    requires r in tree
  {
    var g := tree[r];
    g.Item? && g.id == r && '/' !in g.name
    && (!g.isRoot ==> g.parent.Some? && g.parent.value in tree && rank(Graph(g.parent.value)) < rank(Graph(r)))
  }

  /** Both the root, or the same name in the same folder. */
  predicate SameSlot(a: GraphItem, b: GraphItem) {
    a.Item? && b.Item? && a.isRoot == b.isRoot && (!a.isRoot ==> a.parent == b.parent && a.name == b.name)
  }

  ghost function TruePath(tree: Tree, rank: Id -> nat, r: RemoteId): Path
    requires Rooted(tree, rank) && r in tree
    decreases rank(Graph(r))
  {
    assert NodeOk(tree, rank, r);
    if tree[r].isRoot then "" else Join(TruePath(tree, rank, tree[r].parent.value), tree[r].name)
  }

  lemma JoinSplits(a: Path, m: string, b: Path, n: string)
    requires '/' !in m && '/' !in n && Join(a, m) == Join(b, n)
    ensures a == b && m == n
  {
    var p := Join(a, m);
    assert p[|a|] == '/' && p[|b|] == '/';
    assert forall k :: |a| < k < |p| ==> p[k] == m[k - |a| - 1];
    assert forall k :: |b| < k < |p| ==> p[k] == n[k - |b| - 1];
    assert p[..|a|] == a && p[..|b|] == b && p[|a| + 1..] == m && p[|b| + 1..] == n;
  }

  lemma {:induction false} TruePathsDiffer(tree: Tree, rank: Id -> nat, a: RemoteId, b: RemoteId)
    requires Rooted(tree, rank) && a in tree && b in tree
    requires TruePath(tree, rank, a) == TruePath(tree, rank, b)
    ensures a == b
    decreases rank(Graph(a))
  {
    assert NodeOk(tree, rank, a) && NodeOk(tree, rank, b);
    if !tree[a].isRoot && !tree[b].isRoot {
      var p, q := tree[a].parent.value, tree[b].parent.value;
      JoinSplits(TruePath(tree, rank, p), tree[a].name, TruePath(tree, rank, q), tree[b].name);
      TruePathsDiffer(tree, rank, p, q);
    }
    assert SameSlot(tree[a], tree[b]);
  }

  // ---- while the pages come in ----

  /** The row of `r`, its path still open or right. */
  ghost predicate RowRight(rows: Rows, tree: Tree, rank: Id -> nat, r: RemoteId)
    requires Rooted(tree, rank) && r in tree
  {
    Graph(r) in rows &&
    var g, row := tree[r], rows[Graph(r)];
    && g.Item?
    && row == Row(Some(r), if g.isRoot then None else FolderOf(g), g.name, row.path, g.isFolder, g.meta, false)
    && (g.isRoot || row.path.Some? ==> row.path == Some(TruePath(tree, rank, r)))
  }

  function FolderOf(g: GraphItem): Option<Id>
    requires g.Item?
  {
    if g.parent.Some? then Some(Graph(g.parent.value)) else None
  }

  /** The table holds exactly the rows of `seen`, and paths only where the parent has one. */
  ghost predicate Partial(rows: Rows, tree: Tree, rank: Id -> nat, seen: set<RemoteId>)
    requires Rooted(tree, rank)
  {
    && seen <= tree.Keys
    && (forall x :: x in rows ==> x.Graph? && x.r in seen)
    && (forall r :: r in seen ==> RowRight(rows, tree, rank, r))
    && Sound(rows)
  }

  lemma LookupsFindTheRow(rows: Rows, tree: Tree, rank: Id -> nat, seen: set<RemoteId>, r: RemoteId)
    requires Rooted(tree, rank) && Partial(rows, tree, rank, seen)
    ensures RowFor(rows, r) == Graph(r) && LocalParent(rows, r) == Graph(r)
  {
    forall x | x in rows && rows[x].remoteId == Some(r) ensures x == Graph(r) {
      assert RowRight(rows, tree, rank, x.r);
    }
  }

  /** The next item's row. */
  lemma NextRow(rows: Rows, tree: Tree, rank: Id -> nat, seen: set<RemoteId>, r: RemoteId)
    requires Rooted(tree, rank) && Partial(rows, tree, rank, seen) && r in tree && r !in seen
    ensures RowFor(rows, r) == Graph(r) && Graph(r) !in rows
    ensures var row := UpsertedRow(rows, tree[r]);
      && RowRight(rows[Graph(r) := row], tree, rank, r)
      && SoundAt(rows[Graph(r) := row], Graph(r))
  {
    var g := tree[r];
    assert NodeOk(tree, rank, r);
    LookupsFindTheRow(rows, tree, rank, seen, r);
    if !g.isRoot {
      var p := g.parent.value;
      LookupsFindTheRow(rows, tree, rank, seen, p);
      if Graph(p) in rows {
        assert RowRight(rows, tree, rank, p);
      }
    }
  }

  lemma NextPathIsFree(rows: Rows, tree: Tree, rank: Id -> nat, seen: set<RemoteId>, r: RemoteId)
    requires Rooted(tree, rank) && Partial(rows, tree, rank, seen) && r in tree && r !in seen
    ensures !Taken(rows, Graph(r), UpsertedRow(rows, tree[r]).path)
  {
    NextRow(rows, tree, rank, seen, r);
    var row := UpsertedRow(rows, tree[r]);
    assert row == rows[Graph(r) := row][Graph(r)];
    if row.path.Some? {
      forall y | y in rows ensures rows[y].path != row.path {
        assert RowRight(rows, tree, rank, y.r);
        if rows[y].path == row.path {
          TruePathsDiffer(tree, rank, y.r, r);
        }
      }
    }
  }

  /** The next item: no collision, no cascade, one more row. */
  lemma UpsertOne(rows: Rows, tree: Tree, rank: Id -> nat, seen: set<RemoteId>, r: RemoteId)
    requires Rooted(tree, rank) && Partial(rows, tree, rank, seen) && r in tree && r !in seen
    ensures Fits(rows, rank, tree[r])
    ensures Upserted(rows, rank, tree[r]) == rows[Graph(r) := UpsertedRow(rows, tree[r])]
    ensures Partial(Upserted(rows, rank, tree[r]), tree, rank, seen + {r})
  {
    assert NodeOk(tree, rank, r);
    NextRow(rows, tree, rank, seen, r);
    NextPathIsFree(rows, tree, rank, seen, r);
    var s := rows[Graph(r) := UpsertedRow(rows, tree[r])];
    forall q | q in seen + {r} ensures RowRight(s, tree, rank, q) {
      assert q in seen ==> RowRight(rows, tree, rank, q);
    }
    LinksAreAcyclic(s, tree, rank, seen + {r});
    NewRowKeepsSound(rows, Graph(r), UpsertedRow(rows, tree[r]));
  }

  lemma NewRowKeepsSound(rows: Rows, x: Id, row: Row)
    requires Sound(rows) && x !in rows && SoundAt(rows[x := row], x)
    ensures Sound(rows[x := row])
  {
    var t := rows[x := row];
    forall y | y in t ensures SoundAt(t, y) {
      assert y in rows ==> SoundAt(rows, y);
    }
  }

  lemma LinksAreAcyclic(rows: Rows, tree: Tree, rank: Id -> nat, seen: set<RemoteId>)
    requires Rooted(tree, rank) && seen <= tree.Keys
    requires forall x :: x in rows ==> x.Graph? && x.r in seen
    requires forall r :: r in seen ==> RowRight(rows, tree, rank, r)
    ensures Acyclic(rows, rank)
  {
    forall x | x in rows && rows[x].parent.Some? ensures rank(rows[x].parent.value) < rank(x) {
      assert RowRight(rows, tree, rank, x.r) && NodeOk(tree, rank, x.r);
    }
  }

  function Elements<T(==)>(s: seq<T>): set<T> { set x | x in s }

  /** Items of the tree, each at most once. */
  predicate Order(tree: Tree, order: seq<RemoteId>) {
    Distinct(order) && forall r :: r in order ==> r in tree
  }

  /** The table after the first `k` items of a crawl. */
  ghost function Crawled(tree: Tree, rank: Id -> nat, order: seq<RemoteId>, k: nat): (rows: Rows)
    requires Rooted(tree, rank) && Order(tree, order) && k <= |order|
    ensures Partial(rows, tree, rank, Elements(order[..k]))
  {
    if k == 0 then map[]
    else
      var rows := Crawled(tree, rank, order, k - 1);
      var seen := Elements(order[..k - 1]);
      var next := order[k - 1];
      assert order[..k] == order[..k - 1] + [next];
      assert Elements(order[..k]) == seen + {next};
      UpsertOne(rows, tree, rank, seen, next);
      Upserted(rows, rank, tree[next])
  }

  // ---- the rounds after the last page ----

  function Rounds(rows: Rows, n: nat): Rows {
    if n == 0 then rows else Round(Rounds(rows, n - 1))
  }

  lemma RoundKeepsPartial(rows: Rows, tree: Tree, rank: Id -> nat, seen: set<RemoteId>)
    requires Rooted(tree, rank) && Partial(rows, tree, rank, seen)
    ensures Partial(Round(rows), tree, rank, seen)
  {
    var t := Round(rows);
    forall r | r in seen ensures RowRight(t, tree, rank, r) {
      assert RowRight(rows, tree, rank, r) && NodeOk(tree, rank, r);
      if Resolvable(rows, Graph(r)) {
        assert RowRight(rows, tree, rank, tree[r].parent.value);
      }
    }
    forall x | x in t ensures SoundAt(t, x) {
      assert SoundAt(rows, x);
    }
  }

  lemma {:induction false} RoundsKeepPartial(rows: Rows, tree: Tree, rank: Id -> nat, seen: set<RemoteId>, n: nat)
    requires Rooted(tree, rank) && Partial(rows, tree, rank, seen)
    ensures Partial(Rounds(rows, n), tree, rank, seen)
  {
    if n > 0 {
      RoundsKeepPartial(rows, tree, rank, seen, n - 1);
      RoundKeepsPartial(Rounds(rows, n - 1), tree, rank, seen);
    }
  }

  /** No round can violate the unique index. */
  lemma PartialIsUnique(rows: Rows, tree: Tree, rank: Id -> nat, seen: set<RemoteId>)
    requires Rooted(tree, rank) && Partial(rows, tree, rank, seen)
    ensures UniquePaths(rows)
  {
    forall x, y | Live(rows, x) && Live(rows, y) && rows[x].path.Some? && rows[x].path == rows[y].path
      ensures x == y
    {
      assert RowRight(rows, tree, rank, x.r) && RowRight(rows, tree, rank, y.r);
      TruePathsDiffer(tree, rank, x.r, y.r);
    }
  }

  lemma {:induction false} SettledHasPath(rows: Rows, tree: Tree, rank: Id -> nat, r: RemoteId)
    requires Rooted(tree, rank) && Partial(rows, tree, rank, tree.Keys) && Round(rows) == rows && r in tree
    ensures PathOf(rows, Graph(r)) == Some(TruePath(tree, rank, r))
    decreases rank(Graph(r))
  {
    assert RowRight(rows, tree, rank, r) && NodeOk(tree, rank, r);
    if !tree[r].isRoot {
      SettledHasPath(rows, tree, rank, tree[r].parent.value);
      assert Round(rows)[Graph(r)] == rows[Graph(r)];
    }
  }

  /** The table a complete crawl must end with. */
  ghost function Complete(tree: Tree, rank: Id -> nat): Rows
    requires Rooted(tree, rank)
  {
    map x | x in (set r | r in tree :: Graph(r)) :: CompleteRow(tree, rank, x.r)
  }

  ghost function CompleteRow(tree: Tree, rank: Id -> nat, r: RemoteId): Row
    requires Rooted(tree, rank) && r in tree
  {
    var g := tree[r];
    assert NodeOk(tree, rank, r);
    Row(Some(r), if g.isRoot then None else FolderOf(g), g.name, Some(TruePath(tree, rank, r)), g.isFolder, g.meta, false)
  }

  /** Whatever order the crawl delivers the items in: once the rounds change nothing
      any more, the table is the one that belongs to the tree. */
  lemma CrawlOrderIsIrrelevant(tree: Tree, rank: Id -> nat, order: seq<RemoteId>, n: nat)
    requires Rooted(tree, rank) && Order(tree, order) && (forall r :: r in tree ==> r in order)
    requires Round(Rounds(Crawled(tree, rank, order, |order|), n)) == Rounds(Crawled(tree, rank, order, |order|), n)
    ensures Rounds(Crawled(tree, rank, order, |order|), n) == Complete(tree, rank)
    ensures UniquePaths(Complete(tree, rank))
  {
    var start := Crawled(tree, rank, order, |order|);
    assert order[..|order|] == order;
    assert Elements(order) == tree.Keys;
    RoundsKeepPartial(start, tree, rank, tree.Keys, n);
    SettledIsComplete(Rounds(start, n), tree, rank);
  }

  lemma SettledIsComplete(rows: Rows, tree: Tree, rank: Id -> nat)
    requires Rooted(tree, rank) && Partial(rows, tree, rank, tree.Keys) && Round(rows) == rows
    ensures rows == Complete(tree, rank) && UniquePaths(rows)
  {
    forall r | r in tree ensures Graph(r) in rows && rows[Graph(r)] == CompleteRow(tree, rank, r) {
      SettledHasPath(rows, tree, rank, r);
      assert RowRight(rows, tree, rank, r);
    }
    PartialIsUnique(rows, tree, rank, tree.Keys);
  }

  ghost function Unresolved(rows: Rows): set<Id> { set x | x in rows && rows[x].path.None? }

  /** A round that changes anything leaves fewer rows without a path. */
  lemma RoundsEnd(rows: Rows)
    ensures Unresolved(Round(rows)) <= Unresolved(rows)
    ensures Round(rows) != rows ==> Unresolved(Round(rows)) < Unresolved(rows)
  {
    if Round(rows) != rows {
      assert Round(rows).Keys == rows.Keys;
      var x :| x in rows && Round(rows)[x] != rows[x];
      assert x in Unresolved(rows) && x !in Unresolved(Round(rows));
    }
  }

  // ---- a move to a folder the cache has not seen ----

  function Cached(r: RemoteId, parent: Option<Id>, name: string, path: Path, isFolder: bool): Row {
    Row(Some(r), parent, name, Some(path), isFolder, NO_META, false)
  }

  /** Root, folder `a`, file `a/f`. */
  function Before(): Rows {
    map[Graph("root") := Cached("root", None, "", "", true),
        Graph("a") := Cached("a", Some(Graph("root")), "a", "/a", true),
        Graph("f") := Cached("f", Some(Graph("a")), "f", "/a/f", false)]
  }

  const MOVED: GraphItem := Item("f", "f", false, Some("b"), false, NO_META)
  const NEW_FOLDER: GraphItem := Item("b", "b", false, Some("root"), true, NO_META)

  ghost function Height(x: Id): nat {
    if x == Graph("root") then 0 else if x == Graph("f") then 2 else 1
  }

  function Stale(): Rows {
    Before()[Graph("f") := Cached("f", Some(Graph("b")), "f", "/a/f", false)]
            [Graph("b") := Cached("b", Some(Graph("root")), "b", "/b", true)]
  }

  /** `f` moves to a new folder `b`, and the page lists `f` first: its old path is kept,
      and as it is not NULL no round ever corrects it. The walk below `b` then returns
      a row whose path is not below `/b`. */
  lemma MovedBeforeItsFolderStaysStale()
    ensures Sound(Before()) && Fits(Before(), Height, MOVED)
    ensures var s := Upserted(Before(), Height, MOVED);
      Fits(s, Height, NEW_FOLDER) && Upserted(s, Height, NEW_FOLDER) == Stale()
    ensures Round(Stale()) == Stale() && Acyclic(Stale(), Height)
    ensures Reached(Stale(), Height, Graph("b"), Graph("f"))
    ensures Live(Stale(), Graph("b")) && Stale()[Graph("b")].path == Some("/b")
    ensures !Matches(Stale(), "/b", Graph("f"))
  {
    MoveComesFirst();
    FolderComesSecond();
    NoRoundHelps();
    WalkFindsIt();
  }

  lemma NoRoundHelps()
    ensures Round(Stale()) == Stale() && Acyclic(Stale(), Height)
  {
  }

  lemma WalkFindsIt()
    requires Acyclic(Stale(), Height)
    ensures Reached(Stale(), Height, Graph("b"), Graph("f")) && !Matches(Stale(), "/b", Graph("f"))
  {
    var rows := Stale();
    assert Live(rows, Graph("f")) && rows[Graph("f")].parent == Some(Graph("b"));
    assert "/a/f"[..2][1] == 'a';
  }

  function Moved(): Rows {
    Before()[Graph("f") := Cached("f", Some(Graph("b")), "f", "/a/f", false)]
  }

  lemma MoveComesFirst()
    ensures Fits(Before(), Height, MOVED) && Upserted(Before(), Height, MOVED) == Moved()
  {
    var rows := Before();
    assert LocalParent(rows, "b") == Graph("b");
    assert UpsertedRow(rows, MOVED) == Moved()[Graph("f")];
  }

  lemma FolderComesSecond()
    ensures Fits(Moved(), Height, NEW_FOLDER) && Upserted(Moved(), Height, NEW_FOLDER) == Stale()
  {
    var rows := Moved();
    assert rows[Graph("root")].remoteId == Some("root");
    assert RowFor(rows, "b") == Graph("b") && LocalParent(rows, "root") == Graph("root");
    assert Join("", "b") == "/b";
    assert UpsertedRow(rows, NEW_FOLDER) == Stale()[Graph("b")];
  }
}
