/** The item cache: one row per drive item, with its parent's id and a copy of its path. */
module CacheModel {
  import opened Basics
  import opened Paths

  type RemoteId = string

  /** A row's key: the id Graph gave the item, or `pending:...` for one born offline. */
  datatype Id = Graph(r: RemoteId) | Pending(n: nat)

  /** What Graph reports of a file's content. */
  datatype Meta = Meta(size: nat, etag: Option<string>, hash: Option<string>)

  const NO_META: Meta := Meta(0, None, None)

  datatype Row = Row(
    remoteId: Option<RemoteId>, parent: Option<Id>, name: string, path: Option<Path>,
    isFolder: bool, meta: Meta, deleted: bool)

  type Rows = map<Id, Row>

  /** One item of a delta page, or of a call's reply. */
  datatype GraphItem =
    | Gone(id: RemoteId)
    | Item(id: RemoteId, name: string, isRoot: bool, parent: Option<RemoteId>, isFolder: bool, meta: Meta)

  function Join(parentPath: Path, name: string): Path { parentPath + "/" + name }

  function PathOf(rows: Rows, x: Id): Option<Path> {
    if x in rows then rows[x].path else None
  }

  // ---- what the cached paths must satisfy ----

  /** A cached path is the parent's path and the name; only the root has no parent. */
  predicate SoundAt(rows: Rows, x: Id)
    requires x in rows
  {
    rows[x].path.Some? ==>
      match rows[x].parent
      case None => rows[x].path.value == ""
      case Some(p) => PathOf(rows, p).Some? && rows[x].path.value == Join(PathOf(rows, p).value, rows[x].name)
  }

  ghost predicate Sound(rows: Rows) { forall x :: x in rows ==> SoundAt(rows, x) }

  predicate Live(rows: Rows, x: Id) { x in rows && !rows[x].deleted }

  /** The unique index on live paths. */
  ghost predicate UniquePaths(rows: Rows) {
    forall x, y :: Live(rows, x) && Live(rows, y) && rows[x].path.Some? && rows[x].path == rows[y].path ==> x == y
  }

  ghost predicate PlainNames(rows: Rows) { forall x :: x in rows ==> '/' !in rows[x].name }

  predicate ParentLive(rows: Rows, x: Id)
    requires x in rows
  {
    rows[x].parent.Some? ==> Live(rows, rows[x].parent.value)
  }

  ghost predicate ParentsLive(rows: Rows) { forall x :: Live(rows, x) ==> ParentLive(rows, x) }

  /** Parent links go down in rank: there is no cycle. */
  ghost predicate Acyclic(rows: Rows, rank: Id -> nat) {
    forall x :: x in rows && rows[x].parent.Some? ==> rank(rows[x].parent.value) < rank(x)
  }

  /** `y` lies strictly below `x` by parent links. */
  ghost predicate Under(rows: Rows, rank: Id -> nat, y: Id, x: Id)
    requires Acyclic(rows, rank)
    decreases rank(y)
  {
    y in rows && rows[y].parent.Some? && (rows[y].parent.value == x || Under(rows, rank, rows[y].parent.value, x))
  }

  // ---- the writes ----

  function Tail(s: string, n: nat): string { if n <= |s| then s[n..] else "" }

  /** `_cascade_path_update`: everything below `x` moves from `from` to `to`. */
  ghost function Cascaded(rows: Rows, rank: Id -> nat, x: Id, from: Path, to: Path): Rows
    requires Acyclic(rows, rank)
  {
    map y | y in rows :: if Under(rows, rank, y, x) then Rebased(rows[y], from, to) else rows[y]
  }

  function Rebased(row: Row, from: Path, to: Path): Row {
    if row.path.Some? then row.(path := Some(to + Tail(row.path.value, |from|))) else row
  }

  /** Row `x` is written as `row`, and the rows below follow if its path has changed. */
  ghost function Written(rows: Rows, rank: Id -> nat, x: Id, row: Row): Rows
    requires Acyclic(rows[x := row], rank)
  {
    var from := PathOf(rows, x);
    if from.Some? && row.path.Some? && from != row.path then
      Cascaded(rows[x := row], rank, x, from.value, row.path.value)
    else rows[x := row]
  }

  /** The path a row gets: below its parent, if that has a path; else what it had. */
  function NewPath(rows: Rows, parent: Id, name: string, was: Option<Path>): Option<Path> {
    if PathOf(rows, parent).Some? then Some(Join(PathOf(rows, parent).value, name)) else was
  }

  /** The row `rename_item_local` writes. */
  function RenamedRow(rows: Rows, x: Id, parent: Id, name: string): Row
    requires x in rows
  {
    rows[x].(parent := Some(parent), name := name, path := NewPath(rows, parent, name, rows[x].path))
  }

  /** The row that carries this remote id. */
  ghost function Holder(rows: Rows, r: RemoteId): Option<Id> {
    if exists x :: x in rows && rows[x].remoteId == Some(r) then
      var x :| x in rows && rows[x].remoteId == Some(r); Some(x)
    else None
  }

  /** Two-level lookup: the row under this id, else the row that carries it. */
  ghost function RowFor(rows: Rows, r: RemoteId): Id {
    if Graph(r) in rows then Graph(r)
    else match Holder(rows, r)
      case Some(x) => x
      case None => Graph(r)
  }

  /** A parent is reported by its remote id and stored under its row's id. */
  ghost function LocalParent(rows: Rows, r: RemoteId): Id {
    match Holder(rows, r)
    case Some(x) => x
    case None => Graph(r)
  }

  ghost function UpsertedRow(rows: Rows, g: GraphItem): Row
    requires g.Item?
  {
    var was := PathOf(rows, RowFor(rows, g.id));
    if g.isRoot then Row(Some(g.id), None, g.name, Some(""), g.isFolder, g.meta, false)
    else if g.parent.None? then Row(Some(g.id), None, g.name, was, g.isFolder, g.meta, false)
    else
      var parent := LocalParent(rows, g.parent.value);
      Row(Some(g.id), Some(parent), g.name, NewPath(rows, parent, g.name, was), g.isFolder, g.meta, false)
  }

  /** Another live row has this path. */
  predicate Taken(rows: Rows, x: Id, path: Option<Path>) {
    path.Some? && exists y :: y in rows && y != x && !rows[y].deleted && rows[y].path == path
  }

  function Buried(rows: Rows, r: RemoteId): Rows {
    map x | x in rows ::
      if x == Graph(r) || rows[x].remoteId == Some(r) then rows[x].(deleted := true) else rows[x]
  }

  /** `rank` fits the links an upsert of `g` leaves behind. */
  ghost predicate Fits(rows: Rows, rank: Id -> nat, g: GraphItem) {
    g.Item? ==> Acyclic(rows[RowFor(rows, g.id) := UpsertedRow(rows, g)], rank)
  }

  /** `upsert_item`: a collision leaves the table as it was. */
  ghost function Upserted(rows: Rows, rank: Id -> nat, g: GraphItem): Rows
    requires Fits(rows, rank, g)
  {
    if g.Gone? then Buried(rows, g.id)
    else
      var x, row := RowFor(rows, g.id), UpsertedRow(rows, g);
      if Taken(rows, x, row.path) then rows else Written(rows, rank, x, row)
  }

  function PendingRow(rows: Rows, parent: Id, name: string, isFolder: bool): Row {
    Row(None, Some(parent), name, NewPath(rows, parent, name, None), isFolder, NO_META, false)
  }

  /** `confirm_synced_item`: name, parent and path stay. */
  function ConfirmedRow(row: Row, r: RemoteId, meta: Meta): Row {
    row.(remoteId := Some(r), meta := meta)
  }

  /** One `UPDATE` of `resolve_pending_paths`. */
  function Round(rows: Rows): Rows {
    map x | x in rows :: if Resolvable(rows, x) then rows[x].(path := Some(ParentJoin(rows, x))) else rows[x]
  }

  predicate Resolvable(rows: Rows, x: Id)
    requires x in rows
  {
    rows[x].path.None? && rows[x].parent.Some? && PathOf(rows, rows[x].parent.value).Some?
  }

  function ParentJoin(rows: Rows, x: Id): Path
    requires x in rows && Resolvable(rows, x)
  {
    Join(PathOf(rows, rows[x].parent.value).value, rows[x].name)
  }
}
