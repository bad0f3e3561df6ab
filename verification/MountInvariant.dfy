/** What every file-system event and every worker step keeps: the queue accounts for
    each difference between the live local tree and the drive. */
module MountInvariant {
  import opened Basics
  import opened MountModel

  ghost predicate HasOp(s: State, kind: OpKind, x: Id) {
    exists o :: o in s.ops && o.kind == kind && o.item == x
  }

  function CreateKind(isFolder: bool): OpKind { if isFolder then CREATE_DIR else CREATE_FILE }

  /** The bytes the queue has been told about: an open handle's baseline, else all. */
  function Flushed(s: State, x: Id): Content
    requires x in s.staged
  {
    if x in s.handles then s.handles[x].original else s.staged[x]
  }

  /** The remote item has the row's name, in the remote folder of the row's parent. */
  predicate Placed(s: State, x: Id) {
    && s.Synced(x) && s.Rid(x) in s.nodes && s.Synced(s.rows[x].parent)
    && ChildNamed(s.nodes, s.Rid(s.rows[x].parent), s.rows[x].name, s.Rid(x))
  }

  /** A live row with a remote id: its item is in its place or a rename of it is queued.
      If the item is gone from the drive, a rename of the row or of a row above is
      queued, which can never go through. */
  ghost predicate SyncedOk(s: State, x: Id) {
    && s.Synced(x)
    && (s.Rid(x) in s.nodes ==>
          && s.nodes[s.Rid(x)].isFolder == s.rows[x].isFolder
          && s.rows[x].etag == Some(s.nodes[s.Rid(x)].etag)
          && (x != ROOT ==> HasOp(s, RENAME, x) || Placed(s, x)))
    && (s.Rid(x) !in s.nodes ==> x != ROOT && (HasOp(s, RENAME, x) || Missing(s, s.rows[x].parent)))
  }

  /** The row's item is gone from the drive. */
  predicate Missing(s: State, x: Id) { s.Synced(x) && s.Rid(x) !in s.nodes }

  /** The item's bytes are those the queue has been told about, or a write of them is
      queued. */
  ghost predicate BytesOk(s: State, x: Id) {
    s.LiveFile(x) && s.Synced(x) && s.Rid(x) in s.nodes && x in s.staged ==>
      HasOp(s, WRITE, x) || s.nodes[s.Rid(x)].content == Flushed(s, x)
  }

  ghost predicate RowOk(s: State, rank: map<Id, nat>, x: Id) {
    x in s.rows ==>
      && x < s.nextId
      && (s.rows[x].remoteId.Some? ==> s.rows[x].remoteId.value < s.clock)
      && (s.rows[x].deleted ==> s.rows[x].remoteId.Some?)
      && (s.Live(x) ==>
            && x in rank
            && (x != ROOT ==> s.LiveFolder(s.rows[x].parent) && s.rows[x].parent in rank && rank[s.rows[x].parent] < rank[x])
            && (!s.rows[x].isFolder ==> x in s.staged)
            && (if s.rows[x].remoteId.Some? then SyncedOk(s, x)
                else HasOp(s, CreateKind(s.rows[x].isFolder), x)))
  }

  /** A handle outlives its file: a tombstone's bytes stay, a purged item's are gone. */
  ghost predicate HandleOk(s: State, x: Id) {
    x in s.handles ==>
      && x < s.nextId && (x in s.rows <==> x in s.staged)
      && (x in s.rows ==> !s.rows[x].isFolder && (!s.handles[x].dirty ==> s.staged[x] == s.handles[x].original))
  }

  predicate OpOk(s: State, op: Op) {
    && op.number < s.nextNumber
    && match op.kind
       case CREATE_FILE => s.LiveFile(op.item) && s.rows[op.item].remoteId.None?
       case CREATE_DIR => s.LiveFolder(op.item) && s.rows[op.item].remoteId.None?
       case WRITE => op.item in s.rows && !s.rows[op.item].isFolder && s.rows[op.item].remoteId.Some?
       case RENAME => s.Synced(op.item) && op.item != ROOT
       case DELETE =>
         && op.item in s.rows && s.rows[op.item].deleted && op.target.Some? && s.rows[op.item].remoteId == op.target
         && (op.target.value in s.nodes ==> op.targetEtag == Some(s.nodes[op.target.value].etag))
  }

  /** The item is the image of a live row, or of a tombstone whose delete is queued. */
  ghost predicate Owned(s: State, x: Id, r: RemoteId) {
    x in s.rows && s.rows[x].remoteId == Some(r) && (s.Live(x) || HasOp(s, DELETE, x))
  }

  ghost predicate NodeOk(s: State, r: RemoteId) {
    r in s.nodes ==>
      && r < s.clock
      && (r == ROOT_REMOTE ==> s.nodes[r].ancestors == [] && s.nodes[r].isFolder)
      && (r != ROOT_REMOTE ==>
            && HangsIn(s.nodes, r) && exists x :: Owned(s, x, r))
  }

  /** The ancestor list is the parent's, with the parent added. */
  predicate HangsIn(nodes: map<RemoteId, Node>, r: RemoteId) {
    && r in nodes && nodes[r].ancestors != [] && r !in nodes[r].ancestors
    && nodes[r].Parent() in nodes && nodes[nodes[r].Parent()].isFolder
    && nodes[r].ancestors == nodes[nodes[r].Parent()].ancestors + [nodes[r].Parent()]
  }

  ghost predicate OpsOrdered(ops: seq<Op>) {
    forall i, j :: 0 <= i < j < |ops| ==> ops[i].number < ops[j].number
  }

  /** At most one create or write is queued for an item. */
  ghost predicate OneUpload(ops: seq<Op>) {
    forall a, b :: a in ops && b in ops && a != b && IsUpload(a.kind) && IsUpload(b.kind) ==> a.item != b.item
  }

  ghost predicate NamesUnique(s: State) {
    forall x, y :: s.Live(x) && s.Live(y) && x != y && x != ROOT && y != ROOT && s.rows[x].parent == s.rows[y].parent ==>
      s.rows[x].name != s.rows[y].name
  }

  ghost predicate RemoteIdsUnique(s: State) {
    forall x, y :: x in s.rows && y in s.rows && x != y && s.rows[x].remoteId.Some? ==> s.rows[x].remoteId != s.rows[y].remoteId
  }

  /** Nobody else holds the row's name in the remote folder it belongs in, or is about
      to be deleted. */
  ghost predicate NameOpen(s: State, x: Id) {
    s.Live(x) && x != ROOT ==> FreeRemotely(s, s.rows[x].parent, s.rows[x].name, x)
  }

  ghost predicate RootOk(s: State) {
    s.LiveFolder(ROOT) && s.rows[ROOT].remoteId == Some(ROOT_REMOTE) && ROOT_REMOTE in s.nodes
  }

  ghost predicate Inv(s: State, rank: map<Id, nat>) {
    && RootOk(s)
    && (forall x :: RowOk(s, rank, x))
    && (forall x :: HandleOk(s, x))
    && (forall o :: o in s.ops ==> OpOk(s, o))
    && (forall r :: NodeOk(s, r))
    && OpsOrdered(s.ops) && OneUpload(s.ops)
    && NamesUnique(s) && RemoteIdsUnique(s)
    && (forall x :: NameOpen(s, x))
  }

  // ---- when the queue is empty ----

  /** The drive is the live local tree, names, parents, kinds and bytes, under
      id -> remote id, and nothing else. */
  ghost predicate Mirrored(s: State) {
    SameTree(s) && forall x :: s.LiveFile(x) ==> SameBytes(s, x)
  }

  ghost predicate SameTree(s: State) {
    && (forall x :: s.Live(x) ==> OnDrive(s, x))
    && (forall x :: s.Live(x) && x != ROOT ==> Placed(s, x))
    && (forall r :: r in s.nodes ==> exists x :: s.Synced(x) && s.Rid(x) == r)
    && (forall x, y :: s.Synced(x) && s.Synced(y) && x != y ==> s.Rid(x) != s.Rid(y))
  }

  predicate OnDrive(s: State, x: Id) {
    s.Synced(x) && s.Rid(x) in s.nodes && s.nodes[s.Rid(x)].isFolder == s.rows[x].isFolder
  }

  predicate SameBytes(s: State, x: Id) {
    s.Synced(x) && s.Rid(x) in s.nodes && x in s.staged && s.nodes[s.Rid(x)].content == s.staged[x]
  }

  /** No handle of a live file holds bytes the queue has not been told about. */
  predicate Clean(s: State) {
    forall x :: x in s.handles && s.Live(x) ==> !s.handles[x].dirty
  }

  /** With nothing queued no item is missing: the row above would be missing too. */
  lemma {:induction false} NothingMissing(s: State, rank: map<Id, nat>, x: Id)
    requires (forall y :: RowOk(s, rank, y)) && s.ops == [] && s.Live(x)
    ensures s.Synced(x) && s.Rid(x) in s.nodes
    decreases if x in rank then rank[x] else 0
  {
    assert RowOk(s, rank, x);
    if x != ROOT {
      NothingMissing(s, rank, s.rows[x].parent);
    }
  }

  lemma EmptyQueueRow(s: State, rank: map<Id, nat>, x: Id)
    requires (forall y :: RowOk(s, rank, y)) && s.ops == [] && s.Live(x)
    ensures OnDrive(s, x) && (x != ROOT ==> Placed(s, x)) && (s.LiveFile(x) ==> x in s.staged)
  {
    assert RowOk(s, rank, x);
    NothingMissing(s, rank, x);
  }

  lemma EmptyQueueNode(s: State, r: RemoteId)
    requires RootOk(s) && NodeOk(s, r) && s.ops == [] && r in s.nodes
    ensures exists x :: s.Synced(x) && s.Rid(x) == r
  {
    if r == ROOT_REMOTE {
      assert s.Synced(ROOT) && s.Rid(ROOT) == r;
    } else {
      var x :| Owned(s, x, r);
      assert s.Synced(x) && s.Rid(x) == r;
    }
  }

  lemma EmptyQueueTree(s: State, rank: map<Id, nat>)
    requires Inv(s, rank) && s.ops == []
    ensures SameTree(s)
  {
    forall x | s.Live(x) ensures OnDrive(s, x) && (x != ROOT ==> Placed(s, x)) {
      EmptyQueueRow(s, rank, x);
    }
    forall r | r in s.nodes ensures exists x :: s.Synced(x) && s.Rid(x) == r {
      assert NodeOk(s, r);
      EmptyQueueNode(s, r);
    }
  }

  lemma EmptyQueueBytes(s: State, rank: map<Id, nat>, x: Id)
    requires (forall y :: RowOk(s, rank, y)) && s.ops == [] && Clean(s) && HandleOk(s, x)
    ensures BytesOk(s, x) <==> (s.LiveFile(x) ==> SameBytes(s, x))
  {
    if s.LiveFile(x) {
      EmptyQueueRow(s, rank, x);
    }
  }

  /** With nothing queued the trees agree; the drive mirrors the mount if and only if
      every file's bytes are accounted for. */
  lemma EmptyQueueMirrors(s: State, rank: map<Id, nat>)
    requires Inv(s, rank) && s.ops == [] && Clean(s)
    ensures Mirrored(s) <==> forall x :: BytesOk(s, x)
  {
    EmptyQueueTree(s, rank);
    forall x ensures BytesOk(s, x) <==> (s.LiveFile(x) ==> SameBytes(s, x)) {
      assert HandleOk(s, x);
      EmptyQueueBytes(s, rank, x);
    }
  }
}
