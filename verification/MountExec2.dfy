/** Worker steps, continued: content uploads, moves and deletes. */
module MountExec2 {
  import opened Basics
  import opened MountModel
  import opened MountInvariant
  import opened MountQueue
  import opened MountEvents
  import opened MountExec

  // ---- write ----

  ghost predicate WriteReady(s: State, op: Op) {
    && op in s.ops && op.kind == WRITE && OpOk(s, op) && s.Live(op.item)
    && s.Rid(op.item) in s.nodes && !s.nodes[s.Rid(op.item)].isFolder && op.item in s.staged
    && s.rows[op.item].etag == Some(s.nodes[s.Rid(op.item)].etag)
    && OpsOrdered(s.ops) && OneUpload(s.ops)
  }

  function Written(s: State, op: Op): State
    requires s.Synced(op.item) && s.Rid(op.item) in s.nodes && op.item in s.staged
  {
    var r := s.Rid(op.item);
    s.(nodes := s.nodes[r := s.nodes[r].(content := s.staged[op.item], etag := s.clock)], clock := s.clock + 1,
       rows := s.rows[op.item := s.rows[op.item].(etag := Some(s.clock))],
       ops := WithoutOp(s.ops, op.number))
  }

  /** With nobody else editing the drive a queued write is never a conflict: it goes
      through, unless the item is gone. One queued after its file was unlinked is
      dropped. */
  lemma WriteUploads(s: State, rank: map<Id, nat>, op: Op)
    requires Inv(s, rank) && op in s.ops && op.kind == WRITE
    ensures if !s.Live(op.item) then Exec(s, op) == (Drop(s, op), Finished)
      else if Missing(s, op.item) then Exec(s, op) == (s, Failed)
      else WriteReady(s, op) && Exec(s, op) == (Written(s, op), Finished)
  {
    assert OpOk(s, op) && RowOk(s, rank, op.item);
    assert s.Live(op.item) ==> s.rows[op.item].remoteId == Some(s.Rid(op.item));
  }

  lemma DroppedKeepsInv(s: State, rank: map<Id, nat>, op: Op)
    requires Inv(s, rank) && op in s.ops && op.kind == WRITE && !s.Live(op.item)
    ensures Inv(Drop(s, op), rank)
  {
    var t := Drop(s, op);
    DropFacts(s, op);
    forall y ensures RowOk(t, rank, y) && HandleOk(t, y) && NameOpen(t, y) {
      assert RowOk(s, rank, y) && HandleOk(s, y) && NameOpen(s, y);
      DroppedRow(s, rank, op, y);
      DroppedName(s, op, y);
    }
    forall o | o in t.ops ensures OpOk(t, o) { assert OpOk(s, o); }
    forall r ensures NodeOk(t, r) {
      assert NodeOk(s, r);
      if r in s.nodes && r != ROOT_REMOTE {
        var y :| Owned(s, y, r);
        OtherOpsStay(s, t, op, DELETE, y);
        assert Owned(t, y, r);
      }
    }
  }

  lemma DroppedName(s: State, op: Op, y: Id)
    requires op in s.ops && op.kind == WRITE && NameOpen(s, y) && OpsOrdered(s.ops) && OneUpload(s.ops)
    ensures NameOpen(Drop(s, op), y)
  {
    var t := Drop(s, op);
    DropFacts(s, op);
    if t.Live(y) && y != ROOT && t.Synced(t.rows[y].parent) {
      forall r: RemoteId | ChildNamed(t.nodes, t.Rid(t.rows[y].parent), t.rows[y].name, r)
        ensures Holds(t, y, r) || Leaves(t, y, r) {
        if !Holds(s, y, r) { DroppedStillLeaves(s, t, op, y, r); }
      }
    }
  }

  lemma DroppedRow(s: State, rank: map<Id, nat>, op: Op, y: Id)
    requires op in s.ops && op.kind == WRITE && RowOk(s, rank, y) && OpsOrdered(s.ops) && OneUpload(s.ops)
    ensures RowOk(Drop(s, op), rank, y)
  {
    var t := Drop(s, op);
    DropFacts(s, op);
    OtherOpsStay(s, t, op, RENAME, y);
    OtherOpsStay(s, t, op, CREATE_FILE, y);
    OtherOpsStay(s, t, op, CREATE_DIR, y);
  }

  lemma WrittenRow(s: State, rank: map<Id, nat>, op: Op, y: Id)
    requires WriteReady(s, op) && RowOk(s, rank, y) && RemoteIdsUnique(s)
    ensures RowOk(Written(s, op), rank, y)
  {
    var t := Written(s, op);
    DropFacts(s, op);
    OtherOpsStay(s, t, op, RENAME, y);
    OtherOpsStay(s, t, op, CREATE_FILE, y);
    OtherOpsStay(s, t, op, CREATE_DIR, y);
  }

  lemma WrittenNode(s: State, op: Op, r: RemoteId)
    requires WriteReady(s, op) && NodeOk(s, r)
    ensures NodeOk(Written(s, op), r)
  {
    var t := Written(s, op);
    DropFacts(s, op);
    if r in s.nodes && r != ROOT_REMOTE {
      var y :| Owned(s, y, r);
      OtherOpsStay(s, t, op, DELETE, y);
      assert Owned(t, y, r);
    }
  }

  lemma WrittenName(s: State, op: Op, y: Id)
    requires WriteReady(s, op) && NameOpen(s, y)
    ensures NameOpen(Written(s, op), y)
  {
    var t := Written(s, op);
    if t.Live(y) && y != ROOT && t.Synced(t.rows[y].parent) {
      DropFacts(s, op);
      forall r: RemoteId | ChildNamed(t.nodes, t.Rid(t.rows[y].parent), t.rows[y].name, r)
        ensures Holds(t, y, r) || Leaves(t, y, r) {
        assert ChildNamed(s.nodes, s.Rid(s.rows[y].parent), s.rows[y].name, r);
        if !Holds(s, y, r) { DroppedStillLeaves(s, t, op, y, r); }
      }
    }
  }

  lemma WrittenKeepsInv(s: State, rank: map<Id, nat>, op: Op)
    requires Inv(s, rank) && WriteReady(s, op)
    ensures Inv(Written(s, op), rank)
  {
    var t := Written(s, op);
    DropFacts(s, op);
    forall y ensures RowOk(t, rank, y) && HandleOk(t, y) && NameOpen(t, y) {
      assert RowOk(s, rank, y) && HandleOk(s, y) && NameOpen(s, y);
      WrittenRow(s, rank, op, y);
      WrittenName(s, op, y);
    }
    forall o | o in t.ops ensures OpOk(t, o) { assert OpOk(s, o); }
    forall r ensures NodeOk(t, r) {
      assert NodeOk(s, r);
      WrittenNode(s, op, r);
    }
  }

  // ---- delete ----

  ghost predicate DeleteReady(s: State, op: Op) {
    && op in s.ops && op.kind == DELETE && OpOk(s, op)
    && OpsOrdered(s.ops) && OneUpload(s.ops)
  }

  function Deleted(s: State, op: Op): State
    requires op.target.Some?
  {
    s.(nodes := Pruned(s.nodes, op.target.value), ops := WithoutOp(s.ops, op.number))
  }

  lemma PruningNothing(nodes: map<RemoteId, Node>, r: RemoteId)
    requires Tree(nodes) && r !in nodes
    ensures Pruned(nodes, r) == nodes
  {
    forall q | q in nodes ensures r !in nodes[q].ancestors {
      if r in nodes[q].ancestors { AncestorFacts(nodes, q, r); }
    }
  }

  /** A queued delete removes the tombstone's item, or finds it gone. */
  lemma DeleteRemoves(s: State, op: Op)
    requires op.kind == DELETE && OpOk(s, op) && Tree(s.nodes)
    ensures Exec(s, op) == (Deleted(s, op), Finished)
  {
    if op.target.value !in s.nodes { PruningNothing(s.nodes, op.target.value); }
  }

  /** A row whose item the delete takes along: a rename of it is queued, or its
      parent's item is taken too. */
  lemma TakenAlong(s: State, op: Op, y: Id)
    requires DeleteReady(s, op) && SyncedOk(s, y) && Tree(s.nodes) && RemoteIdsUnique(s)
    requires s.Rid(y) in s.nodes && Missing(Deleted(s, op), y) && y != ROOT && !HasOp(s, RENAME, y)
    ensures Missing(Deleted(s, op), s.rows[y].parent)
  {
    assert Placed(s, y) && InTree(s.nodes, s.Rid(y));
    var p := s.rows[y].parent;
    assert s.nodes[s.Rid(y)].ancestors[|s.nodes[s.Rid(y)].ancestors| - 1] == s.Rid(p);
    assert op.target != Some(s.Rid(p)) && op.target != Some(s.Rid(y));
  }

  lemma DeletedRow(s: State, rank: map<Id, nat>, op: Op, y: Id)
    requires DeleteReady(s, op) && RowOk(s, rank, y) && Tree(s.nodes) && RemoteIdsUnique(s)
    requires y == ROOT ==> RootOk(s) && s.nodes[ROOT_REMOTE].ancestors == []
    ensures RowOk(Deleted(s, op), rank, y)
  {
    var t := Deleted(s, op);
    DropFacts(s, op);
    OtherOpsStay(s, t, op, RENAME, y);
    OtherOpsStay(s, t, op, CREATE_FILE, y);
    OtherOpsStay(s, t, op, CREATE_DIR, y);
    if s.Synced(y) && s.Rid(y) in s.nodes && s.Rid(y) !in t.nodes && y != ROOT && !HasOp(s, RENAME, y) {
      TakenAlong(s, op, y);
    }
  }

  lemma DeletedNode(s: State, op: Op, r: RemoteId)
    requires DeleteReady(s, op) && NodeOk(s, r) && RemoteIdsUnique(s)
    requires r in s.nodes && s.nodes[r].ancestors != [] ==> HangsIn(s.nodes, r)
    ensures NodeOk(Deleted(s, op), r)
  {
    var t := Deleted(s, op);
    DropFacts(s, op);
    if r in t.nodes && r != ROOT_REMOTE {
      var y :| Owned(s, y, r);
      if y != op.item { OtherOpsStay(s, t, op, DELETE, y); }
      assert Owned(t, y, r);
    }
  }

  lemma DeletedKeepsInv(s: State, rank: map<Id, nat>, op: Op)
    requires Inv(s, rank) && DeleteReady(s, op)
    ensures Inv(Deleted(s, op), rank)
  {
    var t := Deleted(s, op);
    DropFacts(s, op);
    NodesFormATree(s);
    assert NodeOk(s, ROOT_REMOTE);
    forall y ensures RowOk(t, rank, y) && HandleOk(t, y) {
      assert RowOk(s, rank, y) && HandleOk(s, y);
      DeletedRow(s, rank, op, y);
    }
    forall o | o in t.ops ensures OpOk(t, o) { assert OpOk(s, o); }
    forall r ensures NodeOk(t, r) {
      assert NodeOk(s, r);
      DeletedNode(s, op, r);
    }
    DeletedNames(s, op);
    assert RowOk(t, rank, ROOT);
  }

  lemma DeletedNames(s: State, op: Op)
    requires DeleteReady(s, op) && NamesUnique(s) && RemoteIdsUnique(s) && forall x :: NameOpen(s, x)
    ensures NamesUnique(Deleted(s, op)) && RemoteIdsUnique(Deleted(s, op)) && forall x :: NameOpen(Deleted(s, op), x)
  {
    var t := Deleted(s, op);
    DropFacts(s, op);
    forall y ensures NameOpen(t, y) {
      assert NameOpen(s, y);
      if t.Live(y) && y != ROOT && t.Synced(t.rows[y].parent) {
        forall r: RemoteId | ChildNamed(t.nodes, t.Rid(t.rows[y].parent), t.rows[y].name, r)
          ensures Holds(t, y, r) || Leaves(t, y, r) {
          assert ChildNamed(s.nodes, s.Rid(s.rows[y].parent), s.rows[y].name, r);
          if !Holds(s, y, r) { DroppedStillLeaves(s, t, op, y, r); }
        }
      }
    }
  }
}
