/** Worker steps, continued: a queued rename moves a subtree of the drive. */
module MountMove {
  import opened Basics
  import opened MountModel
  import opened MountInvariant
  import opened MountQueue
  import opened MountEvents
  import opened MountExec

  // ---- the drive's tree under a move ----

  ghost predicate MoveReady(nodes: map<RemoteId, Node>, r: RemoteId, p: RemoteId) {
    && Tree(nodes) && r in nodes && p in nodes && r != p && r !in nodes[p].ancestors
    && nodes[r].ancestors != [] && nodes[p].isFolder
  }

  /** A node keeps its kind, bytes and parent; only the moved one gets a new parent. */
  lemma MovedFacts(nodes: map<RemoteId, Node>, r: RemoteId, p: RemoteId, name: string, etag: Etag, q: RemoteId)
    requires MoveReady(nodes, r, p) && q in nodes
    ensures var m := Moved(nodes, r, p, name, etag);
      && q in m && m[q].isFolder == nodes[q].isFolder && m[q].content == nodes[q].content
      && (q == r ==> m[q].ancestors == nodes[p].ancestors + [p] && m[q].name == name && m[q].etag == etag)
      && (q != r ==> m[q].name == nodes[q].name && m[q].etag == nodes[q].etag)
      && (q != r ==> (m[q].ancestors == [] <==> nodes[q].ancestors == []))
      && (q != r && nodes[q].ancestors != [] ==> m[q].Parent() == nodes[q].Parent())
      && (q != r && r !in nodes[q].ancestors ==> m[q] == nodes[q])
  {
    if q != r && r in nodes[q].ancestors { AncestorFacts(nodes, q, r); }
  }

  lemma MovedHangs(nodes: map<RemoteId, Node>, r: RemoteId, p: RemoteId, name: string, etag: Etag, q: RemoteId)
    requires MoveReady(nodes, r, p) && q in nodes && nodes[q].ancestors != []
    ensures HangsIn(Moved(nodes, r, p, name, etag), q)
  {
    var m := Moved(nodes, r, p, name, etag);
    assert InTree(nodes, q);
    MovedFacts(nodes, r, p, name, etag, q);
    MovedFacts(nodes, r, p, name, etag, p);
    if q != r {
      var u := nodes[q].Parent();
      MovedFacts(nodes, r, p, name, etag, u);
      if r in nodes[q].ancestors {
        AncestorFacts(nodes, q, r);
        MovedListExtends(nodes, r, p, name, etag, q);
        NotAboveTarget(nodes, r, p, q);
      }
    }
  }

  /** Nothing below the moved item is above its new parent. */
  lemma NotAboveTarget(nodes: map<RemoteId, Node>, r: RemoteId, p: RemoteId, q: RemoteId)
    requires MoveReady(nodes, r, p) && q in nodes && r in nodes[q].ancestors
    ensures q !in nodes[p].ancestors + [p]
  {
    if q in nodes[p].ancestors {
      AncestorFacts(nodes, p, q);
    }
  }

  lemma MovedListExtends(nodes: map<RemoteId, Node>, r: RemoteId, p: RemoteId, name: string, etag: Etag, q: RemoteId)
    requires MoveReady(nodes, r, p) && q in nodes && q != r && r in nodes[q].ancestors
    ensures var m := Moved(nodes, r, p, name, etag); var u := nodes[q].Parent();
      u in m && m[q].ancestors == m[u].ancestors + [u]
  {
    AncestorFacts(nodes, q, r);
    assert InTree(nodes, q);
    var u := nodes[q].Parent();
    var depth := |nodes[r].ancestors|;
    if u != r {
      assert r in nodes[u].ancestors;
      AncestorFacts(nodes, u, r);
      assert nodes[q].ancestors[depth..] == nodes[u].ancestors[depth..] + [u];
    } else {
      assert nodes[q].ancestors[depth..] == [u];
    }
  }

  // ---- rename ----

  ghost predicate RenameReady(s: State, op: Op) {
    && op in s.ops && op.kind == RENAME && OpOk(s, op)
    && s.LiveFolder(s.rows[op.item].parent) && s.Synced(s.rows[op.item].parent)
    && MoveReady(s.nodes, s.Rid(op.item), s.Rid(s.rows[op.item].parent))
    && OpsOrdered(s.ops) && OneUpload(s.ops)
  }

  function Renamed(s: State, op: Op): State
    requires s.Synced(op.item) && s.Synced(s.rows[op.item].parent)
    requires s.Rid(op.item) in s.nodes && s.Rid(s.rows[op.item].parent) in s.nodes
  {
    var x := op.item;
    s.(nodes := Moved(s.nodes, s.Rid(x), s.Rid(s.rows[x].parent), s.rows[x].name, s.clock), clock := s.clock + 1,
       rows := s.rows[x := s.rows[x].(etag := Some(s.clock))],
       ops := WithoutOp(s.ops, op.number))
  }

  /** A rename waits for its new folder; it is refused below itself, when the item or the
      folder is gone, and while the item it is to replace is; else it moves the item. */
  lemma RenameMoves(s: State, rank: map<Id, nat>, op: Op)
    requires Inv(s, rank) && op in s.ops && op.kind == RENAME
    ensures s.Synced(op.item)
    ensures var p := s.rows[op.item].parent;
      if !s.Synced(p) then Exec(s, op) == (s, Waiting)
      else if Missing(s, op.item) || Missing(s, p) || s.Rid(op.item) == s.Rid(p)
        || s.Rid(op.item) in s.nodes[s.Rid(p)].ancestors || NameLeaves(s, op.item) then Exec(s, op) == (s, Failed)
      else RenameReady(s, op) && Exec(s, op) == (Renamed(s, op), Finished)
  {
    var x := op.item;
    assert OpOk(s, op) && RowOk(s, rank, x) && RowOk(s, rank, s.rows[x].parent) && NameOpen(s, x);
    NodesFormATree(s);
    assert NodeOk(s, s.Rid(x));
    assert x != ROOT ==> s.Rid(x) != ROOT_REMOTE;
  }

  /** Someone else still has the row's name on the drive, and a delete of it is queued. */
  ghost predicate NameLeaves(s: State, x: Id)
    requires s.Synced(x) && s.Synced(s.rows[x].parent)
  {
    exists r :: Leaves(s, x, r) && r != s.Rid(x) && ChildNamed(s.nodes, s.Rid(s.rows[x].parent), s.rows[x].name, r)
  }

  lemma RenamedRow(s: State, rank: map<Id, nat>, op: Op, y: Id)
    requires RenameReady(s, op) && RowOk(s, rank, y) && RemoteIdsUnique(s)
    requires y in s.rows && y != ROOT ==> RowOk(s, rank, s.rows[y].parent)
    ensures RowOk(Renamed(s, op), rank, y)
  {
    var t := Renamed(s, op);
    var x := op.item;
    DropFacts(s, op);
    OtherOpsStay(s, t, op, CREATE_FILE, y);
    OtherOpsStay(s, t, op, CREATE_DIR, y);
    if y != x { OtherOpsStay(s, t, op, RENAME, y); }
    if s.Synced(y) && s.Rid(y) in s.nodes {
      MovedFacts(s.nodes, s.Rid(x), s.Rid(s.rows[x].parent), s.rows[x].name, s.clock, s.Rid(y));
    }
  }

  lemma RenamedOp(s: State, op: Op, o: Op)
    requires RenameReady(s, op) && OpOk(s, o) && RemoteIdsUnique(s)
    ensures OpOk(Renamed(s, op), o)
  {
    if o.kind == DELETE && o.target.value in s.nodes {
      MovedFacts(s.nodes, s.Rid(op.item), s.Rid(s.rows[op.item].parent), s.rows[op.item].name, s.clock, o.target.value);
    }
  }

  lemma RenamedNode(s: State, op: Op, r: RemoteId)
    requires RenameReady(s, op) && NodeOk(s, r)
    ensures NodeOk(Renamed(s, op), r)
  {
    var t := Renamed(s, op);
    var x := op.item;
    DropFacts(s, op);
    if r in s.nodes {
      MovedFacts(s.nodes, s.Rid(x), s.Rid(s.rows[x].parent), s.rows[x].name, s.clock, r);
      if r != ROOT_REMOTE {
        MovedHangs(s.nodes, s.Rid(x), s.Rid(s.rows[x].parent), s.rows[x].name, s.clock, r);
        var y :| Owned(s, y, r);
        OtherOpsStay(s, t, op, DELETE, y);
        assert Owned(t, y, r);
      }
    }
  }

  lemma RenamedName(s: State, op: Op, y: Id)
    requires RenameReady(s, op) && NameOpen(s, y) && NamesUnique(s) && RemoteIdsUnique(s)
    requires s.Live(y) && y != ROOT ==> s.LiveFolder(s.rows[y].parent)
    ensures NameOpen(Renamed(s, op), y)
  {
    var t := Renamed(s, op);
    var x := op.item;
    DropFacts(s, op);
    if t.Live(y) && y != ROOT && t.Synced(t.rows[y].parent) {
      forall r: RemoteId | ChildNamed(t.nodes, t.Rid(t.rows[y].parent), t.rows[y].name, r)
        ensures Holds(t, y, r) || Leaves(t, y, r) {
        MovedFacts(s.nodes, s.Rid(x), s.Rid(s.rows[x].parent), s.rows[x].name, s.clock, r);
        if r != s.Rid(x) {
          assert ChildNamed(s.nodes, s.Rid(s.rows[y].parent), s.rows[y].name, r);
          if !Holds(s, y, r) { DroppedStillLeaves(s, t, op, y, r); }
        } else {
          assert t.nodes[r].Parent() == s.Rid(s.rows[x].parent);
          assert s.rows[y].parent == s.rows[x].parent;
        }
      }
    }
  }

  lemma RenamedKeepsInv(s: State, rank: map<Id, nat>, op: Op)
    requires Inv(s, rank) && RenameReady(s, op)
    ensures Inv(Renamed(s, op), rank)
  {
    var t := Renamed(s, op);
    DropFacts(s, op);
    forall y ensures RowOk(t, rank, y) && HandleOk(t, y) {
      assert RowOk(s, rank, y) && HandleOk(s, y) && (y in s.rows ==> RowOk(s, rank, s.rows[y].parent));
      RenamedRow(s, rank, op, y);
    }
    forall o | o in t.ops ensures OpOk(t, o) {
      RenamedOp(s, op, o);
    }
    RenamedDrive(s, rank, op);
    assert RowOk(t, rank, ROOT);
  }

  lemma RenamedDrive(s: State, rank: map<Id, nat>, op: Op)
    requires RenameReady(s, op) && (forall x :: RowOk(s, rank, x)) && (forall r :: NodeOk(s, r))
    requires NamesUnique(s) && RemoteIdsUnique(s) && (forall x :: NameOpen(s, x))
    ensures forall r :: NodeOk(Renamed(s, op), r)
    ensures NamesUnique(Renamed(s, op)) && RemoteIdsUnique(Renamed(s, op)) && forall x :: NameOpen(Renamed(s, op), x)
  {
    forall r ensures NodeOk(Renamed(s, op), r) {
      assert NodeOk(s, r);
      RenamedNode(s, op, r);
    }
    forall y ensures NameOpen(Renamed(s, op), y) {
      assert NameOpen(s, y) && RowOk(s, rank, y);
      RenamedName(s, op, y);
    }
  }
}
