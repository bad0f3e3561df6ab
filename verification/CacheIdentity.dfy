/** Two ids for one item: what every run of cache writes keeps about rows, remote ids
    and the folders children are listed under. */
module CacheIdentity {
  import opened Basics
  import opened CacheModel
  import opened CacheTree

  datatype Write =
    | InsertPending(n: nat, parent: Id, name: string, isFolder: bool)
    | Confirm(x: Id, r: RemoteId, meta: Meta)
    | Upsert(g: GraphItem, rank: Id -> nat)
    | MarkDeleted(x: Id)
    | Rename(x: Id, parent: Id, name: string, rank: Id -> nat)

  /** No two rows carry a remote id, and a row under a Graph id carries that one. */
  ghost predicate Identity(rows: Rows) {
    && (forall x, y :: x in rows && y in rows && rows[x].remoteId.Some? && rows[x].remoteId == rows[y].remoteId ==> x == y)
    && (forall x :: x in rows && x.Graph? ==> rows[x].remoteId == Some(x.r))
  }

  /** No row names as its parent the remote id of a folder cached under another id. */
  ghost predicate NoOrphans(rows: Rows) {
    forall y, x :: y in rows && x in rows ==> !Misses(rows[y], x, rows[x])
  }

  predicate Misses(child: Row, x: Id, folder: Row) {
    folder.remoteId.Some? && x != Graph(folder.remoteId.value) && child.parent == Some(Graph(folder.remoteId.value))
  }

  /** What each caller guarantees: new local ids, remote ids of confirmed items not
      held by another row, parents that are rows, links without cycles. */
  ghost predicate Enabled(rows: Rows, w: Write) {
    match w
    case InsertPending(n, parent, _, _) => Pending(n) !in rows && parent in rows
    case Confirm(x, r, _) => x in rows && KeepsRemoteId(rows, x, r) && NotHeld(rows, x, r)
    case Upsert(g, rank) => Fits(rows, rank, g)
    case MarkDeleted(x) => true
    case Rename(x, parent, name, rank) =>
      x in rows && parent in rows && Acyclic(rows[x := RenamedRow(rows, x, parent, name)], rank)
  }

  /** An item already confirmed is confirmed again under the same id. */
  predicate KeepsRemoteId(rows: Rows, x: Id, r: RemoteId)
    requires x in rows
  {
    rows[x].remoteId.Some? ==> rows[x].remoteId == Some(r)
  }

  predicate NotHeld(rows: Rows, x: Id, r: RemoteId) {
    forall y :: y in rows && y != x ==> rows[y].remoteId != Some(r)
  }

  /** No child was reported under `r` before `x` was known to be `r`. */
  predicate NotReferenced(rows: Rows, x: Id, r: RemoteId) {
    forall y :: y in rows && x != Graph(r) ==> rows[y].parent != Some(Graph(r))
  }

  ghost function After(rows: Rows, w: Write): Rows
    requires Enabled(rows, w)
  {
    match w
    case InsertPending(n, parent, name, isFolder) => rows[Pending(n) := PendingRow(rows, parent, name, isFolder)]
    case Confirm(x, r, meta) => rows[x := ConfirmedRow(rows[x], r, meta)]
    case Upsert(g, rank) => Upserted(rows, rank, g)
    case MarkDeleted(x) => if x in rows then rows[x := rows[x].(deleted := true)] else rows
    case Rename(x, parent, name, rank) => Written(rows, rank, x, RenamedRow(rows, x, parent, name))
  }

  ghost predicate Feasible(rows: Rows, writes: seq<Write>)
    decreases |writes|
  {
    writes == [] || (Enabled(rows, writes[0]) && Feasible(After(rows, writes[0]), writes[1..]))
  }

  ghost function Run(rows: Rows, writes: seq<Write>): Rows
    requires Feasible(rows, writes)
    decreases |writes|
  {
    if writes == [] then rows else Run(After(rows, writes[0]), writes[1..])
  }

  // ---- lookups ----

  lemma HolderIs(rows: Rows, x: Id, r: RemoteId)
    requires Identity(rows) && x in rows && rows[x].remoteId == Some(r)
    ensures Holder(rows, r) == Some(x) && RowFor(rows, r) == x && LocalParent(rows, r) == x
  {
    if Graph(r) in rows {
      assert rows[Graph(r)].remoteId == Some(r);
    }
  }

  /** A write changes one row's ids and links; the cascade changes only paths. */
  lemma WrittenIds(rows: Rows, rank: Id -> nat, x: Id, row: Row, y: Id)
    requires Acyclic(rows[x := row], rank)
    ensures var s, t := rows[x := row], Written(rows, rank, x, row);
      && (y in t <==> y in s)
      && (y in t ==> t[y].remoteId == s[y].remoteId && t[y].parent == s[y].parent)
  {
  }

  /** The rows agree in keys, remote ids and parents. */
  predicate SameIds(a: Rows, b: Rows) {
    a.Keys == b.Keys && forall y :: y in a ==> a[y].remoteId == b[y].remoteId && a[y].parent == b[y].parent
  }

  lemma WrittenSameIds(rows: Rows, rank: Id -> nat, x: Id, row: Row)
    requires Acyclic(rows[x := row], rank)
    ensures SameIds(rows[x := row], Written(rows, rank, x, row))
  {
    var s, t := rows[x := row], Written(rows, rank, x, row);
    forall y ensures (y in t <==> y in s) && (y in t ==> t[y].remoteId == s[y].remoteId && t[y].parent == s[y].parent) {
      WrittenIds(rows, rank, x, row, y);
    }
  }

  /** What `w` does to ids and parents, the cascade aside. */
  ghost function Ids(rows: Rows, w: Write): Rows
    requires Enabled(rows, w)
  {
    match w
    case Upsert(g, _) =>
      if g.Gone? || Taken(rows, RowFor(rows, g.id), UpsertedRow(rows, g).path) then rows
      else rows[RowFor(rows, g.id) := UpsertedRow(rows, g)]
    case Rename(x, parent, name, _) => rows[x := RenamedRow(rows, x, parent, name)]
    case MarkDeleted(_) => rows
    case _ => After(rows, w)
  }

  lemma AfterHasIds(rows: Rows, w: Write)
    requires Enabled(rows, w)
    ensures SameIds(Ids(rows, w), After(rows, w))
  {
    match w
    case Upsert(g, rank) =>
      if g.Item? { WrittenSameIds(rows, rank, RowFor(rows, g.id), UpsertedRow(rows, g)); }
    case Rename(x, parent, name, rank) => WrittenSameIds(rows, rank, x, RenamedRow(rows, x, parent, name));
    case _ =>
  }

  lemma SameIdsSameIdentity(a: Rows, b: Rows)
    requires SameIds(a, b) && Identity(a)
    ensures Identity(b)
  {
  }

  lemma SameIdsSameOrphans(a: Rows, b: Rows)
    requires SameIds(a, b) && NoOrphans(a)
    ensures NoOrphans(b)
  {
    forall y, x | y in b && x in b ensures !Misses(b[y], x, b[x]) {
      assert !Misses(a[y], x, a[x]);
    }
  }

  lemma UpsertedIdentity(rows: Rows, g: GraphItem)
    requires Identity(rows) && g.Item?
    ensures Identity(rows[RowFor(rows, g.id) := UpsertedRow(rows, g)])
  {
    var x := RowFor(rows, g.id);
    forall y | y in rows && rows[y].remoteId == Some(g.id) ensures y == x {
      HolderIs(rows, y, g.id);
    }
  }

  lemma WriteKeepsIdentity(rows: Rows, w: Write)
    requires Identity(rows) && Enabled(rows, w)
    ensures Identity(After(rows, w))
  {
    AfterHasIds(rows, w);
    if w.Upsert? && w.g.Item? {
      UpsertedIdentity(rows, w.g);
    }
    SameIdsSameIdentity(Ids(rows, w), After(rows, w));
  }

  lemma WriteKeepsRemoteId(rows: Rows, w: Write, x: Id)
    requires Identity(rows) && Enabled(rows, w) && x in rows && rows[x].remoteId.Some?
    ensures x in After(rows, w) && After(rows, w)[x].remoteId == rows[x].remoteId
  {
    AfterHasIds(rows, w);
    if w.Upsert? && w.g.Item? {
      HolderIs(rows, x, rows[x].remoteId.value);
    }
  }

  /** However a table comes about: remote ids stay unique, Graph-keyed rows carry their
      own, and an item once confirmed is found under the same row by every later
      upsert of its remote id. */
  lemma {:induction false} IdentityHolds(rows: Rows, writes: seq<Write>)
    requires Identity(rows) && Feasible(rows, writes)
    ensures Identity(Run(rows, writes))
    decreases |writes|
  {
    if writes != [] {
      WriteKeepsIdentity(rows, writes[0]);
      IdentityHolds(After(rows, writes[0]), writes[1..]);
    }
  }

  lemma {:induction false} ConfirmedKeepsItsRow(rows: Rows, writes: seq<Write>, x: Id, r: RemoteId)
    requires Identity(rows) && Feasible(rows, writes) && x in rows && rows[x].remoteId == Some(r)
    ensures var end := Run(rows, writes);
      x in end && end[x].remoteId == Some(r) && RowFor(end, r) == x
    decreases |writes|
  {
    if writes == [] {
      HolderIs(rows, x, r);
    } else {
      WriteKeepsIdentity(rows, writes[0]);
      WriteKeepsRemoteId(rows, writes[0], x);
      ConfirmedKeepsItsRow(After(rows, writes[0]), writes[1..], x, r);
    }
  }

  /** Confirming keeps remote ids unique if and only if no other row holds the id
      (and the row is not keyed by a different Graph id). */
  lemma ConfirmKeepsIdentityIff(rows: Rows, x: Id, r: RemoteId, meta: Meta)
    requires Identity(rows) && x in rows
    ensures Identity(rows[x := ConfirmedRow(rows[x], r, meta)])
       <==> NotHeld(rows, x, r) && (x.Graph? ==> x.r == r)
  {
    var t := rows[x := ConfirmedRow(rows[x], r, meta)];
    if Identity(t) {
      forall y | y in rows && y != x ensures rows[y].remoteId != Some(r) {
        assert t[y] == rows[y] && t[x].remoteId == Some(r);
      }
      assert t[x].remoteId == Some(r);
    }
  }

  /** A delta poll that reports an item whose create is not confirmed yet is skipped: the
      path is taken by the item's own pending row. So the confirm finds its id free. */
  lemma SeenBeforeConfirmedIsSkipped(rows: Rows, rank: Id -> nat, x: Id, g: GraphItem)
    requires Sound(rows) && Identity(rows) && Fits(rows, rank, g)
    requires Live(rows, x) && rows[x].remoteId.None? && rows[x].path.Some? && rows[x].parent.Some?
    requires g.Item? && !g.isRoot && g.parent.Some? && g.name == rows[x].name
    requires LocalParent(rows, g.parent.value) == rows[x].parent.value
    ensures Upserted(rows, rank, g) == rows
  {
    assert SoundAt(rows, x);
    var c := RowFor(rows, g.id);
    assert c in rows ==> rows[c].remoteId == Some(g.id);
    assert UpsertedRow(rows, g).path == rows[x].path;
    assert x in rows && x != c && !rows[x].deleted && rows[x].path == UpsertedRow(rows, g).path;
  }

  /** A delete by remote id tombstones the item's row if and only if the row is keyed by
      that id. A row born offline stays listed, while Graph's own report of the delete
      buries it in any case. */
  lemma MarkDeletedBuriesIff(rows: Rows, rank: Id -> nat, x: Id, r: RemoteId)
    requires Identity(rows) && Live(rows, x) && rows[x].remoteId == Some(r)
    ensures !Live(After(rows, MarkDeleted(Graph(r))), x) <==> x == Graph(r)
    ensures !Live(After(rows, Upsert(Gone(r), rank)), x)
  {
    if Graph(r) in rows { HolderIs(rows, Graph(r), r); }
    HolderIs(rows, x, r);
  }

  // ---- children of folders born offline ----

  /** A child reported under a confirmed folder is listed under the folder's own row. */
  lemma ChildListedUnderLocalId(rows: Rows, rank: Id -> nat, folder: Id, g: GraphItem)
    requires Identity(rows) && g.Item? && !g.isRoot && g.parent.Some? && Fits(rows, rank, g)
    requires folder in rows && rows[folder].remoteId == g.parent
    requires !Taken(rows, RowFor(rows, g.id), UpsertedRow(rows, g).path)
    ensures var t := Upserted(rows, rank, g);
      RowFor(rows, g.id) in t && t[RowFor(rows, g.id)].parent == Some(folder)
  {
    HolderIs(rows, folder, g.parent.value);
    WrittenIds(rows, rank, RowFor(rows, g.id), UpsertedRow(rows, g), RowFor(rows, g.id));
  }

  lemma UpsertedNoOrphans(rows: Rows, g: GraphItem)
    requires Identity(rows) && NoOrphans(rows) && g.Item?
    ensures NoOrphans(rows[RowFor(rows, g.id) := UpsertedRow(rows, g)])
  {
    var c, row := RowFor(rows, g.id), UpsertedRow(rows, g);
    var t := rows[c := row];
    forall y, x | y in t && x in t ensures !Misses(t[y], x, t[x]) {
      if x in rows && rows[x].remoteId == t[x].remoteId {
        assert y in rows ==> !Misses(rows[y], x, rows[x]);
        if t[x].remoteId.Some? { HolderIs(rows, x, t[x].remoteId.value); }
      } else {
        assert x == c;
        if Graph(g.id) !in rows && Holder(rows, g.id).Some? {
          HolderIs(rows, c, g.id);
        }
      }
    }
  }

  /** Orphans come from one place only. */
  lemma ConfirmOrphansIff(rows: Rows, x: Id, r: RemoteId, meta: Meta)
    requires Identity(rows) && NoOrphans(rows) && Enabled(rows, Confirm(x, r, meta))
    ensures NoOrphans(After(rows, Confirm(x, r, meta))) <==> NotReferenced(rows, x, r)
  {
    var t := After(rows, Confirm(x, r, meta));
    if NoOrphans(t) && x != Graph(r) {
      forall y | y in rows ensures rows[y].parent != Some(Graph(r)) {
        assert t[y].parent == rows[y].parent && t[x].remoteId == Some(r);
        assert !Misses(t[y], x, t[x]);
      }
    }
    if NotReferenced(rows, x, r) {
      forall y, z | y in t && z in t ensures !Misses(t[y], z, t[z]) {
        assert t[y].parent == rows[y].parent;
        assert z != x ==> !Misses(rows[y], z, rows[z]);
      }
    }
  }

  /** Every step leaves every child findable, confirming a folder whose children were
      already reported under its remote id excepted. */
  lemma WriteKeepsNoOrphans(rows: Rows, w: Write)
    requires Identity(rows) && NoOrphans(rows) && Enabled(rows, w)
    requires w.Confirm? ==> NotReferenced(rows, w.x, w.r)
    ensures NoOrphans(After(rows, w))
  {
    AfterHasIds(rows, w);
    match w {
      case Upsert(g, _) => if g.Item? { UpsertedNoOrphans(rows, g); }
      case Confirm(x, r, meta) => ConfirmOrphansIff(rows, x, r, meta);
      case InsertPending(n, parent, name, isFolder) =>
        LinkKeepsNoOrphans(rows, Pending(n), PendingRow(rows, parent, name, isFolder));
      case Rename(x, parent, name, _) => LinkKeepsNoOrphans(rows, x, RenamedRow(rows, x, parent, name));
      case MarkDeleted(_) =>
    }
    SameIdsSameOrphans(Ids(rows, w), After(rows, w));
  }

  /** A handler names a parent by its row. */
  lemma LinkKeepsNoOrphans(rows: Rows, x: Id, row: Row)
    requires Identity(rows) && NoOrphans(rows) && row.parent.Some? && row.parent.value in rows
    requires row.remoteId == if x in rows then rows[x].remoteId else None
    ensures NoOrphans(rows[x := row])
  {
    var t := rows[x := row];
    forall y, z | y in t && z in t ensures !Misses(t[y], z, t[z]) {
      assert z in rows ==> rows[z].remoteId == t[z].remoteId;
      assert y in rows && z in rows ==> !Misses(rows[y], z, rows[z]);
    }
  }

  ghost predicate NoEarlyChildren(rows: Rows, writes: seq<Write>)
    requires Feasible(rows, writes)
    decreases |writes|
  {
    writes == [] ||
    ((writes[0].Confirm? ==> NotReferenced(rows, writes[0].x, writes[0].r))
     && NoEarlyChildren(After(rows, writes[0]), writes[1..]))
  }

  lemma {:induction false} ChildrenStayListed(rows: Rows, writes: seq<Write>)
    requires Identity(rows) && NoOrphans(rows) && Feasible(rows, writes) && NoEarlyChildren(rows, writes)
    ensures NoOrphans(Run(rows, writes))
    decreases |writes|
  {
    if writes != [] {
      WriteKeepsIdentity(rows, writes[0]);
      WriteKeepsNoOrphans(rows, writes[0]);
      ChildrenStayListed(After(rows, writes[0]), writes[1..]);
    }
  }
}
