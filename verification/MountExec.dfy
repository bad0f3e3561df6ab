/** Every answered worker step keeps the queue's invariant. */
module MountExec {
  import opened Basics
  import opened MountModel
  import opened MountInvariant
  import opened MountQueue
  import opened MountEvents

  /** No live row's remote item lies below the item about to be deleted. */
  ghost predicate SafeDelete(s: State, op: Op) {
    op.kind == DELETE && op.target.Some? ==>
      forall y :: s.Synced(y) && s.Rid(y) in s.nodes ==> op.target.value !in s.nodes[s.Rid(y)].ancestors
  }

  lemma DropFacts(s: State, op: Op)
    requires OpsOrdered(s.ops) && OneUpload(s.ops) && op in s.ops
    ensures var r := WithoutOp(s.ops, op.number);
      && OpsOrdered(r) && OneUpload(r) && |r| < |s.ops|
      && forall o :: o in r <==> o in s.ops && o != op
  {
    KeepKeepsOrder(s.ops, (o: Op) => o.number != op.number);
    KeepShortens(s.ops, (o: Op) => o.number != op.number, op);
    forall o | o in s.ops && o != op ensures o.number != op.number {
      if o.number == op.number { NumbersIdentify(s.ops, o, op); }
    }
  }

  lemma OtherOpsStay(s: State, t: State, op: Op, kind: OpKind, y: Id)
    requires forall o :: o in t.ops <==> o in s.ops && o != op
    requires !(op.kind == kind && op.item == y)
    ensures HasOp(t, kind, y) <==> HasOp(s, kind, y)
  {
    if HasOp(s, kind, y) {
      var o :| o in s.ops && o.kind == kind && o.item == y;
      assert o in t.ops;
    }
  }

  // ---- create ----

  /** The worker reads the queue in order, and a delete is never put off: when a create's
      turn comes, the deletes queued ahead of it are done. */
  predicate InTurn(s: State, op: Op) {
    IsCreate(op.kind) ==> forall o :: o in s.ops && o.kind == DELETE ==> op.number < o.number
  }

  lemma NothingLeaves(s: State, op: Op, r: RemoteId)
    requires op in s.ops && IsCreate(op.kind) && InTurn(s, op)
    ensures !Leaves(s, op.item, r)
  {
  }

  /** Dropping an op leaves the deletes that are about to free a name. */
  lemma DroppedStillLeaves(s: State, t: State, op: Op, x: Id, r: RemoteId)
    requires Leaves(s, x, r) && (forall o :: o in t.ops <==> o in s.ops && o != op)
    requires op.kind == DELETE ==> op.target != Some(r)
    ensures Leaves(t, x, r)
  {
    var o :| o in s.ops && o.kind == DELETE && o.target == Some(r) && Before(s.ops, o, x);
    assert o in t.ops && Before(t.ops, o, x);
  }

  /** A create whose turn it is makes a fresh item: its name is open. */
  lemma CreateMakesNew(s: State, rank: map<Id, nat>, op: Op)
    requires Inv(s, rank) && op in s.ops && op.kind in {CREATE_FILE, CREATE_DIR} && s.Live(op.item) && InTurn(s, op)
    requires s.Synced(s.rows[op.item].parent) && s.Rid(s.rows[op.item].parent) in s.nodes
    ensures var x := op.item; var p := s.Rid(s.rows[x].parent);
      && x != ROOT && s.rows[x].remoteId == None && s.LiveFolder(s.rows[x].parent)
      && s.rows[x].isFolder == (op.kind == CREATE_DIR)
      && Exec(s, op) == (Created(s, op), Finished)
  {
    var x := op.item;
    assert OpOk(s, op) && RowOk(s, rank, x) && RowOk(s, rank, s.rows[x].parent) && NameOpen(s, x);
    var found := FindChild(s.nodes, s.Rid(s.rows[x].parent), s.rows[x].name, s.clock);
    if found.Some? {
      NothingLeaves(s, op, found.value);
    }
  }

  /** The state after a create that made a new item. */
  function Created(s: State, op: Op): State
    requires s.Live(op.item) && s.Synced(s.rows[op.item].parent) && s.Rid(s.rows[op.item].parent) in s.nodes
  {
    var x, p := op.item, s.Rid(s.rows[op.item].parent);
    var bytes := if x in s.staged then s.staged[x] else [];
    var node := Node(s.nodes[p].ancestors + [p], s.rows[x].name, op.kind == CREATE_DIR, bytes, s.clock);
    s.(nodes := s.nodes[s.clock := node], clock := s.clock + 1,
       rows := s.rows[x := s.rows[x].(remoteId := Some(s.clock), etag := Some(s.clock))],
       ops := WithoutOp(s.ops, op.number))
  }

  /** What a create step starts from. */
  ghost predicate CreateReady(s: State, op: Op) {
    && op in s.ops && op.kind in {CREATE_FILE, CREATE_DIR} && OpOk(s, op)
    && op.item != ROOT && s.LiveFolder(s.rows[op.item].parent)
    && s.Synced(s.rows[op.item].parent) && s.Rid(s.rows[op.item].parent) in s.nodes
    && s.nodes[s.Rid(s.rows[op.item].parent)].isFolder
    && OpsOrdered(s.ops) && OneUpload(s.ops)
  }

  lemma CreatedRow(s: State, rank: map<Id, nat>, op: Op, y: Id)
    requires CreateReady(s, op) && RowOk(s, rank, y)
    requires y in s.rows && y != ROOT ==> RowOk(s, rank, s.rows[y].parent)
    ensures RowOk(Created(s, op), rank, y)
  {
    var t := Created(s, op);
    DropFacts(s, op);
    if y == op.item {
      assert ChildNamed(t.nodes, s.Rid(s.rows[y].parent), s.rows[y].name, s.clock);
    } else {
      OtherOpsStay(s, t, op, WRITE, y);
      OtherOpsStay(s, t, op, RENAME, y);
      OtherOpsStay(s, t, op, CREATE_FILE, y);
      OtherOpsStay(s, t, op, CREATE_DIR, y);
    }
  }

  lemma CreatedOp(s: State, op: Op, o: Op)
    requires CreateReady(s, op) && OpOk(s, o) && o in s.ops && o != op
    requires forall x :: x in s.rows && s.rows[x].remoteId.Some? ==> s.rows[x].remoteId.value < s.clock
    ensures OpOk(Created(s, op), o)
  {
  }

  lemma CreatedNode(s: State, op: Op, r: RemoteId)
    requires CreateReady(s, op) && NodeOk(s, r) && NodeOk(s, s.Rid(s.rows[op.item].parent))
    requires s.clock !in s.nodes
    requires r in s.nodes && s.nodes[r].ancestors != [] ==> s.nodes[r].Parent() != s.clock
    requires forall q :: q in s.nodes[s.Rid(s.rows[op.item].parent)].ancestors ==> q != s.clock
    requires s.clock != ROOT_REMOTE
    ensures NodeOk(Created(s, op), r)
  {
    var t := Created(s, op);
    DropFacts(s, op);
    if r == s.clock {
      assert Owned(t, op.item, r);
    } else if r in s.nodes && r != ROOT_REMOTE {
      var y :| Owned(s, y, r);
      OtherOpsStay(s, t, op, DELETE, y);
      assert Owned(t, y, r);
    }
  }

  // ---- the drive's tree ----

  ghost predicate InTree(nodes: map<RemoteId, Node>, r: RemoteId) {
    r in nodes ==> (r == ROOT_REMOTE && nodes[r].ancestors == []) || HangsIn(nodes, r)
  }

  ghost predicate Tree(nodes: map<RemoteId, Node>) {
    forall r :: InTree(nodes, r)
  }

  lemma NodesFormATree(s: State)
    requires forall r :: NodeOk(s, r)
    ensures Tree(s.nodes)
  {
    forall r ensures InTree(s.nodes, r) { assert NodeOk(s, r); }
  }

  /** An ancestor is an item, and the descendant's list extends the ancestor's. */
  lemma {:induction false} AncestorFacts(nodes: map<RemoteId, Node>, q: RemoteId, a: RemoteId)
    requires Tree(nodes) && q in nodes && a in nodes[q].ancestors
    ensures a in nodes && |nodes[a].ancestors| < |nodes[q].ancestors|
    ensures nodes[q].ancestors[..|nodes[a].ancestors|] == nodes[a].ancestors
    ensures nodes[q].ancestors[|nodes[a].ancestors|] == a
    decreases |nodes[q].ancestors|
  {
    assert InTree(nodes, q);
    var u := nodes[q].Parent();
    if a != u {
      assert a in nodes[u].ancestors;
      AncestorFacts(nodes, u, a);
    }
  }

  // ---- create, continued ----

  lemma CreatedName(s: State, op: Op, y: Id)
    requires CreateReady(s, op) && NameOpen(s, y) && NameOpen(s, op.item) && NamesUnique(s) && RemoteIdsUnique(s)
    requires s.clock !in s.nodes && s.nodes.Keys !! {s.clock}
    requires forall r :: r in s.nodes && s.nodes[r].ancestors != [] ==> s.nodes[r].Parent() in s.nodes
    requires y in s.rows && s.Live(y) && y != ROOT ==> s.LiveFolder(s.rows[y].parent)
    ensures NameOpen(Created(s, op), y)
  {
    var t := Created(s, op);
    DropFacts(s, op);
    if t.Live(y) && y != ROOT && t.Synced(t.rows[y].parent) {
      var py := s.rows[y].parent;
      forall r: RemoteId | ChildNamed(t.nodes, t.Rid(py), t.rows[y].name, r) ensures Holds(t, y, r) || Leaves(t, y, r) {
        if r != s.clock {
          assert py != op.item;
          assert ChildNamed(s.nodes, s.Rid(py), s.rows[y].name, r);
          if !Holds(s, y, r) { DroppedStillLeaves(s, t, op, y, r); }
        } else {
          assert py == s.rows[op.item].parent;
        }
      }
    }
  }

  lemma CreatedKeepsInv(s: State, rank: map<Id, nat>, op: Op)
    requires Inv(s, rank) && CreateReady(s, op)
    ensures Inv(Created(s, op), rank)
  {
    var t := Created(s, op);
    var p := s.Rid(s.rows[op.item].parent);
    DropFacts(s, op);
    NodesFormATree(s);
    ServerIdsBelowClock(s, rank);
    forall y ensures RowOk(t, rank, y) && HandleOk(t, y) {
      assert RowOk(s, rank, y) && HandleOk(s, y) && (y in s.rows ==> RowOk(s, rank, s.rows[y].parent));
      CreatedRow(s, rank, op, y);
    }
    forall o | o in t.ops ensures OpOk(t, o) {
      CreatedOp(s, op, o);
    }
    forall a | a in s.nodes[p].ancestors ensures a != s.clock { AncestorFacts(s.nodes, p, a); }
    forall r ensures NodeOk(t, r) {
      assert NodeOk(s, r) && NodeOk(s, p) && NodeOk(s, ROOT_REMOTE);
      CreatedNode(s, op, r);
    }
    CreatedNames(s, rank, op);
  }

  lemma ServerIdsBelowClock(s: State, rank: map<Id, nat>)
    requires (forall x :: RowOk(s, rank, x)) && (forall r :: NodeOk(s, r))
    ensures forall x :: x in s.rows && s.rows[x].remoteId.Some? ==> s.rows[x].remoteId.value < s.clock
    ensures s.clock !in s.nodes
    ensures forall r :: r in s.nodes && s.nodes[r].ancestors != [] ==> s.nodes[r].Parent() in s.nodes
  {
    forall x | x in s.rows && s.rows[x].remoteId.Some? ensures s.rows[x].remoteId.value < s.clock {
      assert RowOk(s, rank, x);
    }
    assert NodeOk(s, s.clock);
    forall r | r in s.nodes && s.nodes[r].ancestors != [] ensures s.nodes[r].Parent() in s.nodes {
      assert NodeOk(s, r);
    }
  }

  lemma CreatedNames(s: State, rank: map<Id, nat>, op: Op)
    requires CreateReady(s, op) && (forall x :: RowOk(s, rank, x)) && (forall r :: NodeOk(s, r))
    requires NamesUnique(s) && RemoteIdsUnique(s) && (forall x :: NameOpen(s, x))
    ensures NamesUnique(Created(s, op)) && RemoteIdsUnique(Created(s, op)) && forall x :: NameOpen(Created(s, op), x)
  {
    ServerIdsBelowClock(s, rank);
    forall y ensures NameOpen(Created(s, op), y) {
      assert NameOpen(s, y) && NameOpen(s, op.item) && RowOk(s, rank, y);
      CreatedName(s, op, y);
    }
  }
}
