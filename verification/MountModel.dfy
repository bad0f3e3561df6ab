/** The on-demand mount: the local replica, the queue of offline writes, the drive
    they are replayed against, and one step of each side. */
module MountModel {
  import opened Basics

  type Id = nat      // a row of `items`; it never changes
  type RemoteId = nat
  type Etag = nat

  const ROOT: Id := 0
  const ROOT_REMOTE: RemoteId := 0

  /** The columns of `items` that the queue reads or writes. */
  datatype Row = Row(
    remoteId: Option<RemoteId>, parent: Id, name: string, isFolder: bool, etag: Option<Etag>, deleted: bool)

  datatype OpKind = CREATE_FILE | CREATE_DIR | WRITE | RENAME | DELETE

  /** A row of `pending_mount_ops`. Between atomic steps no op is in progress. */
  datatype Op = Op(number: nat, kind: OpKind, item: Id, target: Option<RemoteId>, targetEtag: Option<Etag>)

  /** An open write handle: `dirty`, and the bytes whose hash is `original_hash`. */
  datatype Handle = Handle(dirty: bool, original: Content)

  /** A drive item. `ancestors` runs from the root down to the parent. */
  datatype Node = Node(ancestors: seq<RemoteId>, name: string, isFolder: bool, content: Content, etag: Etag)
  {
    function Parent(): RemoteId
      requires ancestors != []
    {
      ancestors[|ancestors| - 1]
    }
  }

  datatype State = State(
    rows: map<Id, Row>,
    staged: map<Id, Content>,     // what the user reads from the mount
    handles: map<Id, Handle>,     // one write handle per inode
    ops: seq<Op>,                 // ordered by number
    nextId: Id,
    nextNumber: nat,
    nodes: map<RemoteId, Node>,
    clock: nat,                   // the server's next id and next etag
    ended: bool)                  // an uncaught exception has ended the file-system session
  {
    /** The row `get_item_by_id` finds. */
    predicate Live(x: Id) { x in rows && !rows[x].deleted }

    predicate LiveFolder(x: Id) { Live(x) && rows[x].isFolder }

    predicate LiveFile(x: Id) { Live(x) && !rows[x].isFolder }

    predicate Synced(x: Id) { Live(x) && rows[x].remoteId.Some? }

    function Rid(x: Id): RemoteId
      requires Synced(x)
    {
      rows[x].remoteId.value
    }
  }

  // ---- the file-system side ----

  predicate IsUpload(k: OpKind) { k in {CREATE_FILE, CREATE_DIR, WRITE} }

  predicate HasUpload(ops: seq<Op>, x: Id) {
    exists o :: o in ops && o.item == x && IsUpload(o.kind)
  }

  /** The rows of a `DELETE FROM pending_mount_ops WHERE ...` that stay. */
  function Keep(ops: seq<Op>, stays: Op -> bool): (r: seq<Op>)
    ensures forall o :: o in r <==> o in ops && stays(o)
    ensures |r| <= |ops|
  {
    if ops == [] then []
    else (if stays(ops[0]) then [ops[0]] else []) + Keep(ops[1..], stays)
  }

  /** `enqueue_mount_op`: a write is dropped when an upload of the item is queued. */
  function Enqueue(s: State, kind: OpKind, x: Id): State {
    if kind == WRITE && HasUpload(s.ops, x) then s
    else s.(ops := s.ops + [Op(s.nextNumber, kind, x, None, None)], nextNumber := s.nextNumber + 1)
  }

  /** `cancel_pending_op_for_item`. */
  function WithoutItem(ops: seq<Op>, x: Id): seq<Op> { Keep(ops, (o: Op) => o.item != x) }

  function Create(s: State, parent: Id, name: string): State {
    var x := s.nextId;
    var t := s.(
      rows := s.rows[x := Row(None, parent, name, false, None, false)],
      staged := s.staged[x := []],
      handles := s.handles[x := Handle(true, [])],
      nextId := x + 1);
    Enqueue(t, CREATE_FILE, x)
  }

  function Mkdir(s: State, parent: Id, name: string): State {
    var x := s.nextId;
    var t := s.(rows := s.rows[x := Row(None, parent, name, true, None, false)], nextId := x + 1);
    Enqueue(t, CREATE_DIR, x)
  }

  function OpenForWriting(s: State, x: Id, truncate: bool): State
    requires x in s.staged
  {
    s.(handles := s.handles[x := Handle(truncate, s.staged[x])],
       staged := if truncate then s.staged[x := []] else s.staged)
  }

  /** Once the staged file is unlinked, the bytes go where nobody finds them. */
  function Write(s: State, x: Id, bytes: Content): State
    requires x in s.handles
  {
    s.(staged := if x in s.staged then s.staged[x := bytes] else s.staged,
       handles := s.handles[x := s.handles[x].(dirty := true)])
  }

  /** `flush`: nothing for a clean handle, nothing queued for unchanged bytes. Hashing a
      staged file that is gone raises, and nothing catches it. */
  function Flush(s: State, x: Id): State
    requires x in s.handles
  {
    var h := s.handles[x];
    if !h.dirty then s
    else if x !in s.staged then s.(ended := true)
    else if s.staged[x] == h.original then s.(handles := s.handles[x := h.(dirty := false)])
    else Enqueue(s, WRITE, x).(handles := s.handles[x := Handle(false, s.staged[x])])
  }

  /** `release` catches whatever its own last flush raises. */
  function Release(s: State, x: Id): State
    requires x in s.handles
  {
    var t := if x in s.staged then Flush(s, x) else s;
    t.(handles := t.handles - {x})
  }

  function Rename(s: State, x: Id, parent: Id, name: string): State
    requires s.Live(x)
  {
    var t := s.(rows := s.rows[x := s.rows[x].(parent := parent, name := name)]);
    if s.rows[x].remoteId.Some? then Enqueue(t, RENAME, x) else t
  }

  /** `_delete_item_offline_safe`, with no op of the item in progress: an item that
      was never synced vanishes; any other is tombstoned and its delete queued. */
  function DeleteOffline(s: State, x: Id): State
    requires s.Live(x)
  {
    var row := s.rows[x];
    var ops := WithoutItem(s.ops, x);
    if row.remoteId.None? then s.(rows := s.rows - {x}, staged := s.staged - {x}, ops := ops)
    else
      s.(rows := s.rows[x := row.(deleted := true)],
         ops := ops + [Op(s.nextNumber, DELETE, x, row.remoteId, row.etag)],
         nextNumber := s.nextNumber + 1)
  }

  datatype Event =
    | EvCreate(parent: Id, name: string)
    | EvMkdir(parent: Id, name: string)
    | EvOpen(x: Id, truncate: bool)
    | EvWrite(x: Id, bytes: Content)
    | EvFlush(x: Id)
    | EvRelease(x: Id)
    | EvRename(x: Id, parent: Id, name: string)
    | EvUnlink(x: Id)
    | EvRmdir(x: Id)

  /** No live child of the folder has the name; the handlers look this up. */
  ghost predicate FreeLocally(s: State, parent: Id, name: string, except: Option<Id>) {
    forall y :: s.Live(y) && y != ROOT && s.rows[y].parent == parent && Some(y) != except ==> s.rows[y].name != name
  }

  /** Nor does any item of the remote folder, except the row's own and one whose delete
      is queued ahead of the row's create. */
  ghost predicate FreeRemotely(s: State, parent: Id, name: string, x: Id) {
    s.Synced(parent) ==>
      forall r: RemoteId :: ChildNamed(s.nodes, s.Rid(parent), name, r) ==> Holds(s, x, r) || Leaves(s, x, r)
  }

  predicate Holds(s: State, x: Id, r: RemoteId) { x in s.rows && s.rows[x].remoteId == Some(r) }

  ghost predicate Leaves(s: State, x: Id, r: RemoteId) {
    exists o :: o in s.ops && o.kind == DELETE && o.target == Some(r) && Before(s.ops, o, x)
  }

  predicate IsCreate(k: OpKind) { k in {CREATE_FILE, CREATE_DIR} }

  /** The op is queued ahead of the create of `x`, if there is one. */
  predicate Before(ops: seq<Op>, o: Op, x: Id) {
    forall c :: c in ops && c.item == x && IsCreate(c.kind) ==> o.number < c.number
  }

  /** `x` is `d` or lies below it, at most `n` levels. */
  predicate Within(s: State, x: Id, d: Id, n: nat)
    decreases n
  {
    x == d || (n > 0 && x in s.rows && x != ROOT && Within(s, s.rows[x].parent, d, n - 1))
  }

  ghost predicate Allowed(s: State, e: Event) {
    !s.ended &&
    match e
    case EvCreate(parent, name) => s.LiveFolder(parent) && FreeLocally(s, parent, name, None) && FreeRemotely(s, parent, name, s.nextId)
    case EvMkdir(parent, name) => s.LiveFolder(parent) && FreeLocally(s, parent, name, None) && FreeRemotely(s, parent, name, s.nextId)
    case EvOpen(x, truncate) => s.LiveFile(x) && x !in s.handles
    case EvWrite(x, bytes) => x in s.handles
    case EvFlush(x) => x in s.handles
    case EvRelease(x) => x in s.handles
    case EvRename(x, parent, name) =>
      && s.Live(x) && x != ROOT && s.LiveFolder(parent) && (forall n :: !Within(s, parent, x, n))
      && FreeLocally(s, parent, name, Some(x)) && FreeRemotely(s, parent, name, x)
    case EvUnlink(x) => s.LiveFile(x)
    case EvRmdir(x) => s.LiveFolder(x) && x != ROOT && forall y :: s.Live(y) && y != ROOT ==> s.rows[y].parent != x
  }

  function Apply(s: State, e: Event): State
    requires e.EvOpen? ==> e.x in s.staged
    requires e.EvWrite? || e.EvFlush? || e.EvRelease? ==> e.x in s.handles
    requires e.EvRename? || e.EvUnlink? || e.EvRmdir? ==> s.Live(e.x)
  {
    match e
    case EvCreate(parent, name) => Create(s, parent, name)
    case EvMkdir(parent, name) => Mkdir(s, parent, name)
    case EvOpen(x, truncate) => OpenForWriting(s, x, truncate)
    case EvWrite(x, bytes) => Write(s, x, bytes)
    case EvFlush(x) => Flush(s, x)
    case EvRelease(x) => Release(s, x)
    case EvRename(x, parent, name) => Rename(s, x, parent, name)
    case EvUnlink(x) => DeleteOffline(s, x)
    case EvRmdir(x) => DeleteOffline(s, x)
  }

  // ---- the drive ----

  predicate ChildNamed(nodes: map<RemoteId, Node>, parent: RemoteId, name: string, r: RemoteId) {
    r in nodes && nodes[r].ancestors != [] && nodes[r].Parent() == parent && nodes[r].name == name
  }

  predicate NameTaken(nodes: map<RemoteId, Node>, parent: RemoteId, name: string, except: Option<RemoteId>) {
    exists r :: r in nodes && Some(r) != except && ChildNamed(nodes, parent, name, r)
  }

  /** `get_item_by_path` on the drive, among the ids below `limit`. */
  function FindChild(nodes: map<RemoteId, Node>, parent: RemoteId, name: string, limit: nat): (r: Option<RemoteId>)
    ensures r.Some? ==> ChildNamed(nodes, parent, name, r.value)
    ensures r.None? ==> forall q :: 0 <= q < limit ==> !ChildNamed(nodes, parent, name, q)
  {
    if limit == 0 then None
    else if ChildNamed(nodes, parent, name, limit - 1) then Some(limit - 1)
    else FindChild(nodes, parent, name, limit - 1)
  }

  /** A delete takes the whole subtree. */
  function Pruned(nodes: map<RemoteId, Node>, r: RemoteId): map<RemoteId, Node> {
    map q | q in nodes && q != r && r !in nodes[q].ancestors :: nodes[q]
  }

  /** A move takes the whole subtree along. */
  function Moved(nodes: map<RemoteId, Node>, r: RemoteId, parent: RemoteId, name: string, etag: Etag): map<RemoteId, Node>
    requires r in nodes && parent in nodes
  {
    var depth := |nodes[r].ancestors|;
    var above := nodes[parent].ancestors + [parent];
    map q | q in nodes ::
      if q == r then nodes[r].(ancestors := above, name := name, etag := etag)
      else if r in nodes[q].ancestors && depth <= |nodes[q].ancestors| then
        nodes[q].(ancestors := above + nodes[q].ancestors[depth..])
      else nodes[q]
  }

  // ---- the worker side ----

  /** How an op's turn ends: done and dropped, waiting for a parent, failed with an
      error recorded, or diverted to the keep-both protocol. */
  datatype Outcome = Finished | Waiting | Failed | KeepBoth

  /** `delete_op`. */
  function WithoutOp(ops: seq<Op>, number: nat): seq<Op> { Keep(ops, (o: Op) => o.number != number) }

  function Drop(s: State, op: Op): State { s.(ops := WithoutOp(s.ops, op.number)) }

  function ExecDelete(s: State, op: Op): State {
    var target := if op.target.Some? then op.target
      else if op.item in s.rows then s.rows[op.item].remoteId else None;
    var etag := if op.target.Some? then op.targetEtag
      else if op.item in s.rows then s.rows[op.item].etag else None;
    // a 404 and a 412 both count as done
    if target.Some? && target.value in s.nodes && (etag.None? || etag.value == s.nodes[target.value].etag) then
      Drop(s.(nodes := Pruned(s.nodes, target.value)), op)
    else Drop(s, op)
  }

  /** `confirm_synced_item`: name and parent stay as they are. */
  function Confirm(s: State, x: Id, r: RemoteId, etag: Etag): State
    requires x in s.rows
  {
    s.(rows := s.rows[x := s.rows[x].(remoteId := Some(r), etag := Some(etag))])
  }

  function ExecCreate(s: State, op: Op): (State, Outcome)
    requires s.Live(op.item)
  {
    var x, row := op.item, s.rows[op.item];
    if !s.Synced(row.parent) then (s, Waiting)
    else
      var p := s.Rid(row.parent);
      var bytes := if x in s.staged then s.staged[x] else [];
      var isFolder := op.kind == CREATE_DIR;
      if p !in s.nodes || !s.nodes[p].isFolder then (s, Failed)
      else if FindChild(s.nodes, p, row.name, s.clock).Some? then
        // the name is there already: a folder is adopted, a file's bytes replaced
        var r := FindChild(s.nodes, p, row.name, s.clock).value;
        if isFolder then (Drop(Confirm(s, x, r, s.nodes[r].etag), op), Finished)
        else if s.nodes[r].isFolder then (s, Failed)
        else
          var t := s.(nodes := s.nodes[r := s.nodes[r].(content := bytes, etag := s.clock)], clock := s.clock + 1);
          (Drop(Confirm(t, x, r, s.clock), op), Finished)
      else
        var r := s.clock;
        var node := Node(s.nodes[p].ancestors + [p], row.name, isFolder, bytes, r);
        var t := s.(nodes := s.nodes[r := node], clock := r + 1);
        (Drop(Confirm(t, x, r, r), op), Finished)
  }

  function ExecWrite(s: State, op: Op): (State, Outcome)
    requires s.Live(op.item)
  {
    var x, row := op.item, s.rows[op.item];
    if row.remoteId.None? then (s, Waiting)
    else
      var r := row.remoteId.value;
      if r !in s.nodes || s.nodes[r].isFolder || x !in s.staged then (s, Failed)
      else if row.etag.Some? && row.etag.value != s.nodes[r].etag then (s, KeepBoth)
      else
        var t := s.(nodes := s.nodes[r := s.nodes[r].(content := s.staged[x], etag := s.clock)], clock := s.clock + 1);
        (Drop(Confirm(t, x, r, s.clock), op), Finished)
  }

  /** A stale etag is refetched and the move retried once; a name that is taken, a
      missing item and a move below itself are refused. The reply goes through
      `upsert_item`, whose parent lookup finds the row holding the new parent. */
  function ExecRename(s: State, op: Op): (State, Outcome)
    requires s.Live(op.item)
  {
    var x, row := op.item, s.rows[op.item];
    if !s.Synced(row.parent) then (s, Waiting)
    else
      var p := s.Rid(row.parent);
      if row.remoteId.None? || row.remoteId.value !in s.nodes || p !in s.nodes then (s, Failed)
      else
        var r := row.remoteId.value;
        if r == p || r in s.nodes[p].ancestors || NameTaken(s.nodes, p, row.name, Some(r)) then (s, Failed)
        else
          var t := s.(nodes := Moved(s.nodes, r, p, row.name, s.clock), clock := s.clock + 1,
                      rows := s.rows[x := row.(etag := Some(s.clock))]);
          (Drop(t, op), Finished)
  }

  /** `_execute_op` with every call answered. */
  function Exec(s: State, op: Op): (State, Outcome) {
    if op.kind == DELETE then (ExecDelete(s, op), Finished)
    else if !s.Live(op.item) then (Drop(s, op), Finished)
    else if op.kind == CREATE_FILE || op.kind == CREATE_DIR then ExecCreate(s, op)
    else if op.kind == WRITE then ExecWrite(s, op)
    else ExecRename(s, op)
  }

  /** `_drain` over the list read at its start. */
  function Pass(s: State, todo: seq<Op>): State
    decreases |todo|
  {
    if todo == [] then s else Pass(Exec(s, todo[0]).0, todo[1..])
  }

  function Drain(s: State, passes: nat): State
    decreases passes
  {
    if passes == 0 then s else Drain(Pass(s, s.ops), passes - 1)
  }
}
