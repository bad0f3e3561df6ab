/** A row holds what the last write about its item said, over every run of cache writes. */
module CacheTold {
  import opened Basics
  import opened CacheModel
  import opened CacheTree
  import opened CacheIdentity

  /** The columns of a row that come from outside; its path is derived. */
  datatype Told = Told(parent: Option<Id>, name: string, isFolder: bool, meta: Meta, deleted: bool)

  function Says(row: Row): Told { Told(row.parent, row.name, row.isFolder, row.meta, row.deleted) }

  /** An upsert whose path another live row has is skipped. */
  ghost predicate Skipped(rows: Rows, g: GraphItem)
    requires g.Item?
  {
    Taken(rows, RowFor(rows, g.id), UpsertedRow(rows, g).path)
  }

  /** What a report says of an item, its parent named by that one's row. */
  ghost function Report(rows: Rows, g: GraphItem): Told
    requires g.Item?
  {
    Told(if g.isRoot || g.parent.None? then None else Some(LocalParent(rows, g.parent.value)), g.name, g.isFolder, g.meta, false)
  }

  /** What a write tells about the row `x`: a report all of it, a confirm the content
      columns, a rename the place, a tombstone that it is gone. */
  ghost function Tell(rows: Rows, w: Write, x: Id, told: Told): Told
    requires x in rows
  {
    match w
    case InsertPending(_, _, _, _) => told
    case Confirm(y, _, meta) => if y == x then told.(meta := meta) else told
    case Upsert(g, _) =>
      if rows[x].remoteId != Some(g.id) then told
      else if g.Gone? then told.(deleted := true)
      else if Skipped(rows, g) then told
      else Report(rows, g)
    case MarkDeleted(y) => if y == x then told.(deleted := true) else told
    case Rename(y, parent, name, _) => if y == x then told.(parent := Some(parent), name := name) else told
  }

  ghost function LastTold(rows: Rows, writes: seq<Write>, x: Id, told: Told): Told
    requires Feasible(rows, writes) && x in rows
    decreases |writes|
  {
    if writes == [] then told
    else
      KeepsRow(rows, writes[0], x);
      LastTold(After(rows, writes[0]), writes[1..], x, Tell(rows, writes[0], x, told))
  }

  lemma KeepsRow(rows: Rows, w: Write, x: Id)
    requires Enabled(rows, w) && x in rows
    ensures x in After(rows, w)
  {
  }

  /** The cascade rewrites paths only. */
  lemma WrittenSays(rows: Rows, rank: Id -> nat, y: Id, row: Row, x: Id)
    requires Acyclic(rows[y := row], rank) && x in rows[y := row]
    ensures x in Written(rows, rank, y, row)
    ensures Says(Written(rows, rank, y, row)[x]) == if x == y then Says(row) else Says(rows[x])
  {
  }

  /** An item's report concerns the row that carries its id, and no other. */
  lemma ReportTells(rows: Rows, rank: Id -> nat, g: GraphItem, x: Id)
    requires Identity(rows) && g.Item? && Fits(rows, rank, g) && x in rows
    ensures x in Upserted(rows, rank, g)
    ensures Says(Upserted(rows, rank, g)[x]) == Tell(rows, Upsert(g, rank), x, Says(rows[x]))
  {
    var y, row := RowFor(rows, g.id), UpsertedRow(rows, g);
    if rows[x].remoteId == Some(g.id) { HolderIs(rows, x, g.id); }
    if y in rows && rows[x].remoteId != Some(g.id) { RowForCarries(rows, g.id); }
    if !Skipped(rows, g) { WrittenSays(rows, rank, y, row, x); }
  }

  lemma RowForCarries(rows: Rows, r: RemoteId)
    requires Identity(rows) && RowFor(rows, r) in rows
    ensures rows[RowFor(rows, r)].remoteId == Some(r)
  {
  }

  lemma WriteTells(rows: Rows, w: Write, x: Id)
    requires Identity(rows) && Enabled(rows, w) && x in rows
    ensures x in After(rows, w) && Says(After(rows, w)[x]) == Tell(rows, w, x, Says(rows[x]))
  {
    match w
    case Upsert(g, rank) =>
      if g.Item? {
        ReportTells(rows, rank, g, x);
      } else if Graph(g.id) == x {
        assert rows[x].remoteId == Some(g.id);
      }
    case Rename(y, parent, name, rank) => WrittenSays(rows, rank, y, RenamedRow(rows, y, parent, name), x);
    case _ =>
  }

  /** Over every run: parent, name, kind, content columns and tombstone of a row are those
      of the last write that was about them. */
  lemma {:induction false} RowSaysWhatItWasTold(rows: Rows, writes: seq<Write>, x: Id)
    requires Identity(rows) && Feasible(rows, writes) && x in rows
    ensures x in Run(rows, writes) && Says(Run(rows, writes)[x]) == LastTold(rows, writes, x, Says(rows[x]))
    decreases |writes|
  {
    if writes != [] {
      WriteTells(rows, writes[0], x);
      WriteKeepsIdentity(rows, writes[0]);
      RowSaysWhatItWasTold(After(rows, writes[0]), writes[1..], x);
    }
  }

  /** A report that is not skipped is found again, whole, under the item's id, whether the
      row is new, was there before or was a tombstone. */
  lemma ReportIsStored(rows: Rows, rank: Id -> nat, g: GraphItem)
    requires Identity(rows) && g.Item? && Fits(rows, rank, g) && !Skipped(rows, g)
    ensures var t := Upserted(rows, rank, g); var x := RowFor(t, g.id);
      && x in t && t[x].remoteId == Some(g.id) && !t[x].deleted
      && t[x].name == g.name && t[x].isFolder == g.isFolder && t[x].meta == g.meta
      && (g.isRoot || g.parent.None? ==> t[x].parent.None?)
      && (!g.isRoot && g.parent.Some? ==> t[x].parent == Some(LocalParent(rows, g.parent.value)))
  {
    var t, y, row := Upserted(rows, rank, g), RowFor(rows, g.id), UpsertedRow(rows, g);
    WrittenSays(rows, rank, y, row, y);
    WrittenIds(rows, rank, y, row, y);
    assert Enabled(rows, Upsert(g, rank));
    WriteKeepsIdentity(rows, Upsert(g, rank));
    HolderIs(t, y, g.id);
  }

  /** An item born offline says what the handler was given, and that it is not on the
      drive yet. */
  lemma PendingIsStored(rows: Rows, n: nat, parent: Id, name: string, isFolder: bool)
    requires Enabled(rows, InsertPending(n, parent, name, isFolder))
    ensures var t := After(rows, InsertPending(n, parent, name, isFolder));
      Pending(n) in t && t[Pending(n)].remoteId.None? && Says(t[Pending(n)]) == Told(Some(parent), name, isFolder, NO_META, false)
  {
  }
}
