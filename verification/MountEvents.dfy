/** Every allowed file-system event keeps the queue's invariant. */
module MountEvents {
  import opened Basics
  import opened MountModel
  import opened MountInvariant
  import opened MountQueue

  // ---- frames ----

  ghost predicate SameItem(s: State, t: State, x: Id) {
    && Get(t.rows, x) == Get(s.rows, x)
    && Get(t.staged, x) == Get(s.staged, x)
    && Get(t.handles, x) == Get(s.handles, x)
    && forall o :: o in s.ops && o.item == x ==> o in t.ops
  }

  /** The folder `p` is still a live folder under the same remote id. */
  predicate SameFolder(s: State, t: State, p: Id) {
    s.LiveFolder(p) ==> t.LiveFolder(p) && t.rows[p].remoteId == s.rows[p].remoteId
  }

  lemma OpsStay(s: State, t: State, x: Id, kind: OpKind)
    requires forall o :: o in s.ops && o.item == x ==> o in t.ops
    ensures HasOp(s, kind, x) ==> HasOp(t, kind, x)
  {
    if HasOp(s, kind, x) {
      var o :| o in s.ops && o.kind == kind && o.item == x;
      assert o in t.ops;
    }
  }

  lemma RowStays(s: State, t: State, rank: map<Id, nat>, rank': map<Id, nat>, x: Id)
    requires RowOk(s, rank, x) && SameItem(s, t, x) && t.nodes == s.nodes
    requires s.nextId <= t.nextId && s.clock <= t.clock
    requires x in s.rows ==> SameFolder(s, t, s.rows[x].parent)
    requires x in rank ==> x in rank' && rank'[x] == rank[x]
    requires x in s.rows && s.rows[x].parent in rank ==>
      s.rows[x].parent in rank' && rank'[s.rows[x].parent] == rank[s.rows[x].parent]
    ensures RowOk(t, rank', x)
  {
    OpsStay(s, t, x, WRITE);
    OpsStay(s, t, x, RENAME);
    OpsStay(s, t, x, CREATE_FILE);
    OpsStay(s, t, x, CREATE_DIR);
    assert Get(t.rows, x) == Get(s.rows, x) && Get(t.staged, x) == Get(s.staged, x) && Get(t.handles, x) == Get(s.handles, x);
  }

  lemma OpStays(s: State, t: State, o: Op)
    requires OpOk(s, o) && Get(t.rows, o.item) == Get(s.rows, o.item) && t.nodes == s.nodes
    requires s.nextNumber <= t.nextNumber
    ensures OpOk(t, o)
  {
  }

  lemma NodeStays(s: State, t: State, r: RemoteId)
    requires NodeOk(s, r) && t.nodes == s.nodes && s.clock <= t.clock
    requires forall x :: x in s.rows && s.rows[x].remoteId.Some? ==> SameItem(s, t, x)
    ensures NodeOk(t, r)
  {
    if r in s.nodes && r != ROOT_REMOTE {
      var x :| Owned(s, x, r);
      assert SameItem(s, t, x);
      OpsStay(s, t, x, DELETE);
      assert Get(t.rows, x) == Get(s.rows, x);
      assert Owned(t, x, r);
    }
  }

  /** No delete is cancelled, and no create of `x` queued. */
  ghost predicate QueueGrows(s: State, t: State, x: Id) {
    && (forall o :: o in s.ops && o.kind == DELETE ==> o in t.ops)
    && (forall o :: o in t.ops && o.item == x && IsCreate(o.kind) ==> o in s.ops)
  }

  lemma StillLeaves(s: State, t: State, x: Id, r: RemoteId)
    requires QueueGrows(s, t, x) && Leaves(s, x, r)
    ensures Leaves(t, x, r)
  {
    var o :| o in s.ops && o.kind == DELETE && o.target == Some(r) && Before(s.ops, o, x);
    assert Before(t.ops, o, x);
  }

  lemma NameStaysOpen(s: State, t: State, x: Id)
    requires NameOpen(s, x) && Get(t.rows, x) == Get(s.rows, x) && t.nodes == s.nodes && QueueGrows(s, t, x)
    requires x in s.rows ==> SameFolder(s, t, s.rows[x].parent)
    requires s.Live(x) && x != ROOT ==> s.LiveFolder(s.rows[x].parent)
    ensures NameOpen(t, x)
  {
    if s.Live(x) && x != ROOT { StaysFree(s, t, s.rows[x].parent, s.rows[x].name, x); }
  }

  lemma StaysFree(s: State, t: State, parent: Id, name: string, x: Id)
    requires FreeRemotely(s, parent, name, x) && t.nodes == s.nodes && QueueGrows(s, t, x)
    requires t.Synced(parent) ==> s.Synced(parent) && s.Rid(parent) == t.Rid(parent)
    requires forall r: RemoteId :: Holds(s, x, r) ==> Holds(t, x, r)
    ensures FreeRemotely(t, parent, name, x)
  {
    if t.Synced(parent) {
      forall r: RemoteId | ChildNamed(t.nodes, t.Rid(parent), name, r) ensures Holds(t, x, r) || Leaves(t, x, r) {
        if !Holds(s, x, r) { StillLeaves(s, t, x, r); }
      }
    }
  }

  // ---- create and mkdir ----

  function NewRank(s: State, rank: map<Id, nat>, parent: Id): map<Id, nat>
    requires parent in rank
  {
    rank[s.nextId := rank[parent] + 1]
  }

  function CreateOf(s: State, parent: Id, name: string, isFolder: bool): State {
    if isFolder then Mkdir(s, parent, name) else Create(s, parent, name)
  }

  lemma CreateFrame(s: State, parent: Id, name: string, isFolder: bool)
    requires forall o :: o in s.ops ==> OpOk(s, o)
    requires OpsOrdered(s.ops) && OneUpload(s.ops)
    requires forall x :: x in s.rows ==> x < s.nextId
    requires s.nextId !in s.handles
    ensures var t := CreateOf(s, parent, name, isFolder);
      && OpsOrdered(t.ops) && OneUpload(t.ops)
      && t.nodes == s.nodes && t.clock == s.clock && t.nextId == s.nextId + 1 && s.nextNumber <= t.nextNumber
      && (forall x :: x != s.nextId ==> SameItem(s, t, x))
      && t.Live(s.nextId) && t.rows[s.nextId] == Row(None, parent, name, isFolder, None, false)
      && HasOp(t, CreateKind(isFolder), s.nextId)
      && (forall o :: o in t.ops ==> o in s.ops || (o.kind == CreateKind(isFolder) && o.item == s.nextId && o.number < t.nextNumber))
      && NewCreate(s, t)
      && HandleOk(t, s.nextId) && t.ended == s.ended
  {
    var kind := CreateKind(isFolder);
    assert forall o :: o in s.ops ==> o.item in s.rows;
    var u := if isFolder then
        s.(rows := s.rows[s.nextId := Row(None, parent, name, true, None, false)], nextId := s.nextId + 1)
      else
        s.(rows := s.rows[s.nextId := Row(None, parent, name, false, None, false)], staged := s.staged[s.nextId := []],
           handles := s.handles[s.nextId := Handle(true, [])], nextId := s.nextId + 1);
    EnqueueFacts(u, kind, s.nextId);
    assert CreateOf(s, parent, name, isFolder) == Enqueue(u, kind, s.nextId);
    assert Op(s.nextNumber, kind, s.nextId, None, None) in Enqueue(u, kind, s.nextId).ops;
  }

  lemma CreateKeepsInv(s: State, rank: map<Id, nat>, parent: Id, name: string, isFolder: bool)
    requires Inv(s, rank) && s.LiveFolder(parent)
    requires FreeLocally(s, parent, name, None) && FreeRemotely(s, parent, name, s.nextId)
    ensures parent in rank && Inv(CreateOf(s, parent, name, isFolder), NewRank(s, rank, parent))
  {
    var x, t := s.nextId, CreateOf(s, parent, name, isFolder);
    assert RowOk(s, rank, parent) && RowOk(s, rank, ROOT) && HandleOk(s, x) && RowOk(s, rank, x);
    RowsBelow(s, rank);
    CreateFrame(s, parent, name, isFolder);
    var rank' := NewRank(s, rank, parent);
    assert RootOk(t) by { assert SameItem(s, t, ROOT); }
    CreateRows(s, t, rank, rank', parent);
    forall o | o in t.ops ensures OpOk(t, o) {
      if o in s.ops {
        assert OpOk(s, o) && SameItem(s, t, o.item);
        OpStays(s, t, o);
      }
    }
    forall r ensures NodeOk(t, r) {
      assert NodeOk(s, r);
      NodeStays(s, t, r);
    }
    CreateNames(s, t, rank, parent, name);
  }

  lemma RowsBelow(s: State, rank: map<Id, nat>)
    requires forall x :: RowOk(s, rank, x)
    ensures forall x :: x in s.rows ==> x < s.nextId
  {
    forall x | x in s.rows ensures x < s.nextId { assert RowOk(s, rank, x); }
  }

  lemma CreateRows(s: State, t: State, rank: map<Id, nat>, rank': map<Id, nat>, parent: Id)
    requires (forall x :: RowOk(s, rank, x)) && (forall x :: HandleOk(s, x)) && (forall x :: x in s.rows ==> x < s.nextId)
    requires s.LiveFolder(parent) && parent in rank && rank' == NewRank(s, rank, parent)
    requires t.nodes == s.nodes && t.clock == s.clock && t.nextId == s.nextId + 1
    requires forall x :: x != s.nextId ==> SameItem(s, t, x)
    requires t.Live(s.nextId) && t.rows[s.nextId].remoteId == None && t.rows[s.nextId].parent == parent
    requires HasOp(t, CreateKind(t.rows[s.nextId].isFolder), s.nextId)
    requires HandleOk(t, s.nextId) && (!t.rows[s.nextId].isFolder ==> s.nextId in t.staged)
    requires s.LiveFolder(ROOT)
    ensures forall x :: RowOk(t, rank', x)
    ensures forall x :: HandleOk(t, x)
  {
    forall x ensures RowOk(t, rank', x) && HandleOk(t, x) {
      assert RowOk(s, rank, x) && HandleOk(s, x) && SameItem(s, t, parent);
      if x == s.nextId {
        assert ROOT in s.rows;
      } else {
        assert SameItem(s, t, x);
        if x in s.rows && s.rows[x].parent != s.nextId {
          assert SameItem(s, t, s.rows[x].parent);
        }
        CreateRow(s, t, rank, rank', parent, x);
      }
    }
  }

  lemma CreateRow(s: State, t: State, rank: map<Id, nat>, rank': map<Id, nat>, parent: Id, x: Id)
    requires RowOk(s, rank, x) && HandleOk(s, x) && x != s.nextId && SameItem(s, t, x)
    requires s.nextId !in s.rows && parent in rank && rank' == NewRank(s, rank, parent)
    requires t.nodes == s.nodes && t.clock == s.clock && t.nextId == s.nextId + 1
    requires x in s.rows && s.rows[x].parent != s.nextId ==> SameItem(s, t, s.rows[x].parent)
    ensures RowOk(t, rank', x) && HandleOk(t, x)
  {
    assert Get(t.rows, x) == Get(s.rows, x) && Get(t.staged, x) == Get(s.staged, x) && Get(t.handles, x) == Get(s.handles, x);
    if x in s.rows && s.rows[x].parent != s.nextId {
      var p := s.rows[x].parent;
      assert Get(t.rows, p) == Get(s.rows, p);
      RowStays(s, t, rank, rank', x);
    }
  }

  lemma CreateNames(s: State, t: State, rank: map<Id, nat>, parent: Id, name: string)
    requires (forall x :: RowOk(s, rank, x)) && NamesUnique(s) && RemoteIdsUnique(s) && (forall x :: NameOpen(s, x))
    requires s.LiveFolder(parent) && FreeLocally(s, parent, name, None) && FreeRemotely(s, parent, name, s.nextId)
    requires t.nodes == s.nodes && s.nextId !in s.rows && NewCreate(s, t)
    requires forall x :: x != s.nextId ==> SameItem(s, t, x)
    requires t.Live(s.nextId) && t.rows[s.nextId].remoteId == None && t.rows[s.nextId].parent == parent
    requires t.rows[s.nextId].name == name
    ensures NamesUnique(t) && RemoteIdsUnique(t) && forall x :: NameOpen(t, x)
  {
    forall x ensures x != s.nextId ==> (x in t.rows <==> x in s.rows) && (x in s.rows ==> t.rows[x] == s.rows[x]) {
      assert x != s.nextId ==> SameItem(s, t, x);
      assert x != s.nextId ==> Get(t.rows, x) == Get(s.rows, x);
    }
    forall x ensures NameOpen(t, x) {
      assert NameOpen(s, x) && RowOk(s, rank, x);
      if x == s.nextId {
        assert t.rows[parent] == s.rows[parent];
        NewNameOpen(s, t, parent, name);
      } else if x in s.rows && s.rows[x].parent != s.nextId {
        NameStaysOpen(s, t, x);
      }
    }
  }

  /** What create and mkdir queue: one create, behind everything. */
  ghost predicate NewCreate(s: State, t: State) {
    && (forall o :: o in s.ops ==> o in t.ops && o.number < s.nextNumber && o.item != s.nextId)
    && (forall o :: o in t.ops ==> o in s.ops || (o.item == s.nextId && o.kind != DELETE && o.number >= s.nextNumber))
  }

  lemma NewNameOpen(s: State, t: State, parent: Id, name: string)
    requires FreeRemotely(s, parent, name, s.nextId) && t.nodes == s.nodes && s.nextId !in s.rows && NewCreate(s, t)
    requires s.LiveFolder(parent) && parent in t.rows && t.rows[parent] == s.rows[parent]
    ensures FreeRemotely(t, parent, name, s.nextId)
  {
    if t.Synced(parent) {
      forall r: RemoteId | ChildNamed(t.nodes, t.Rid(parent), name, r) ensures Leaves(t, s.nextId, r) {
        assert ChildNamed(s.nodes, s.Rid(parent), name, r);
        var o :| o in s.ops && o.kind == DELETE && o.target == Some(r) && Before(s.ops, o, s.nextId);
        assert Before(t.ops, o, s.nextId);
      }
    }
  }

  // ---- open, write, flush, release ----

  /** Only the item's bytes and handle differ, and perhaps one write more is queued. */
  ghost predicate TouchesBytes(s: State, t: State, x: Id) {
    && t.rows == s.rows && t.nodes == s.nodes && t.clock == s.clock && t.nextId == s.nextId
    && s.nextNumber <= t.nextNumber
    && (forall y :: y != x ==> Get(t.staged, y) == Get(s.staged, y) && Get(t.handles, y) == Get(s.handles, y))
    && x in s.rows && !s.rows[x].isFolder && x in s.staged && x in t.staged && HandleOk(t, x) && t.ended == s.ended
    && (forall o :: o in s.ops ==> o in t.ops)
    && (forall o :: o in t.ops && o !in s.ops ==>
          o.kind == WRITE && o.item == x && o.number < t.nextNumber && !HasUpload(s.ops, x))
    && OpsOrdered(t.ops) && OneUpload(t.ops)
  }

  lemma UnsyncedHasUpload(s: State, rank: map<Id, nat>, x: Id)
    requires RowOk(s, rank, x) && s.Live(x) && s.rows[x].remoteId.None?
    ensures HasUpload(s.ops, x)
  {
    var o :| o in s.ops && o.kind == CreateKind(s.rows[x].isFolder) && o.item == x;
    assert IsUpload(o.kind);
  }

  lemma TouchedRow(s: State, t: State, rank: map<Id, nat>, x: Id)
    requires RowOk(s, rank, x) && TouchesBytes(s, t, x) && (forall o :: o in t.ops ==> OpOk(t, o))
    ensures RowOk(t, rank, x)
  {
    OpsStay(s, t, x, RENAME);
    OpsStay(s, t, x, CREATE_FILE);
  }

  lemma TouchedOp(s: State, t: State, rank: map<Id, nat>, x: Id, o: Op)
    requires RowOk(s, rank, x) && TouchesBytes(s, t, x) && o in t.ops && (o in s.ops ==> OpOk(s, o))
    ensures OpOk(t, o)
  {
    if o in s.ops {
      OpStays(s, t, o);
    } else if s.rows[x].remoteId.None? {
      UnsyncedHasUpload(s, rank, x);
    }
  }

  lemma TouchedNode(s: State, t: State, x: Id, r: RemoteId)
    requires NodeOk(s, r) && TouchesBytes(s, t, x)
    ensures NodeOk(t, r)
  {
    if r in s.nodes && r != ROOT_REMOTE {
      var y :| Owned(s, y, r);
      OpsStay(s, t, y, DELETE);
      assert Owned(t, y, r);
    }
  }

  lemma BytesKeepInv(s: State, t: State, rank: map<Id, nat>, x: Id)
    requires Inv(s, rank) && TouchesBytes(s, t, x)
    ensures Inv(t, rank)
  {
    forall o | o in t.ops ensures OpOk(t, o) {
      assert RowOk(s, rank, x);
      TouchedOp(s, t, rank, x, o);
    }
    forall y ensures RowOk(t, rank, y) {
      assert RowOk(s, rank, y);
      if y == x { TouchedRow(s, t, rank, x); }
      else {
        assert SameItem(s, t, y);
        RowStays(s, t, rank, rank, y);
      }
    }
    BytesKeepTheRest(s, t, x);
  }

  lemma BytesKeepTheRest(s: State, t: State, x: Id)
    requires TouchesBytes(s, t, x) && (forall y :: HandleOk(s, y)) && (forall r :: NodeOk(s, r))
    requires NamesUnique(s) && RemoteIdsUnique(s) && (forall y :: NameOpen(s, y)) && RootOk(s)
    ensures RootOk(t) && (forall y :: HandleOk(t, y)) && (forall r :: NodeOk(t, r))
    ensures NamesUnique(t) && RemoteIdsUnique(t) && forall y :: NameOpen(t, y)
  {
    forall y ensures HandleOk(t, y) && NameOpen(t, y) {
      assert HandleOk(s, y) && NameOpen(s, y);
      if y != x { assert Get(t.staged, y) == Get(s.staged, y) && Get(t.handles, y) == Get(s.handles, y); }
      if s.Live(y) && y != ROOT { StaysFree(s, t, s.rows[y].parent, s.rows[y].name, y); }
    }
    forall r ensures NodeOk(t, r) {
      assert NodeOk(s, r);
      TouchedNode(s, t, x, r);
    }
  }

  lemma OpenKeepsInv(s: State, rank: map<Id, nat>, x: Id, truncate: bool)
    requires Inv(s, rank) && s.LiveFile(x) && x !in s.handles
    ensures x in s.staged && Inv(OpenForWriting(s, x, truncate), rank)
  {
    assert RowOk(s, rank, x);
    BytesKeepInv(s, OpenForWriting(s, x, truncate), rank, x);
  }

  lemma WriteKeepsInv(s: State, rank: map<Id, nat>, x: Id, bytes: Content)
    requires Inv(s, rank) && x in s.handles
    ensures Inv(Write(s, x, bytes), rank)
  {
    assert HandleOk(s, x);
    if x in s.rows { BytesKeepInv(s, Write(s, x, bytes), rank, x); } else { GoneKeepsInv(s, Write(s, x, bytes), rank, x); }
  }

  lemma FlushTouchesBytes(s: State, x: Id)
    requires x in s.handles && x in s.rows && HandleOk(s, x) && OpsOrdered(s.ops) && OneUpload(s.ops)
    requires forall o :: o in s.ops ==> o.number < s.nextNumber
    ensures TouchesBytes(s, Flush(s, x), x)
  {
    EnqueueFacts(s, WRITE, x);
    EnqueuedWrite(s, x);
  }

  lemma FlushKeepsInv(s: State, rank: map<Id, nat>, x: Id)
    requires Inv(s, rank) && x in s.handles
    ensures Inv(Flush(s, x), rank) && x in Flush(s, x).handles && (x in s.rows ==> !Flush(s, x).handles[x].dirty)
  {
    assert HandleOk(s, x);
    forall o | o in s.ops ensures o.number < s.nextNumber { assert OpOk(s, o); }
    if x in s.rows {
      FlushTouchesBytes(s, x);
      BytesKeepInv(s, Flush(s, x), rank, x);
    } else {
      GoneKeepsInv(s, Flush(s, x), rank, x);
    }
  }

  lemma ReleaseKeepsInv(s: State, rank: map<Id, nat>, x: Id)
    requires Inv(s, rank) && x in s.handles
    ensures Inv(Release(s, x), rank)
  {
    assert HandleOk(s, x);
    if x in s.rows {
      FlushKeepsInv(s, rank, x);
      var u := Flush(s, x);
      assert HandleOk(u, x);
      BytesKeepInv(u, Release(s, x), rank, x);
    } else {
      GoneKeepsInv(s, Release(s, x), rank, x);
    }
  }

  /** Calls on a handle whose item is purged touch only the handle. */
  lemma GoneKeepsInv(s: State, t: State, rank: map<Id, nat>, x: Id)
    requires Inv(s, rank) && x !in s.rows && x in s.handles
    requires t == s.(handles := t.handles, ended := t.ended)
    requires forall y :: y != x ==> Get(t.handles, y) == Get(s.handles, y)
    ensures Inv(t, rank)
  {
    forall y ensures RowOk(t, rank, y) && HandleOk(t, y) && NameOpen(t, y) {
      assert RowOk(s, rank, y) && HandleOk(s, y) && NameOpen(s, y) && HandleOk(s, x);
      assert y != x ==> Get(t.handles, y) == Get(s.handles, y);
      GoneRow(s, t, rank, y);
      if s.Live(y) && y != ROOT { StaysFree(s, t, s.rows[y].parent, s.rows[y].name, y); }
    }
    forall o | o in t.ops ensures OpOk(t, o) { assert OpOk(s, o); }
    forall r ensures NodeOk(t, r) {
      assert NodeOk(s, r);
      if r in s.nodes && r != ROOT_REMOTE {
        var y :| Owned(s, y, r);
        OpsStay(s, t, y, DELETE);
        assert Owned(t, y, r);
      }
    }
  }

  lemma GoneRow(s: State, t: State, rank: map<Id, nat>, y: Id)
    requires RowOk(s, rank, y) && t == s.(handles := t.handles, ended := t.ended)
    ensures RowOk(t, rank, y)
  {
    OpsStay(s, t, y, RENAME);
    OpsStay(s, t, y, CREATE_FILE);
    OpsStay(s, t, y, CREATE_DIR);
  }

  // ---- rename ----

  /** `y` is `x` or lies below it in the local tree. */
  ghost predicate Under(s: State, y: Id, x: Id) {
    exists n: nat :: Within(s, y, x, n)
  }

  lemma UnderStep(s: State, y: Id, x: Id)
    requires y in s.rows && y != ROOT
    ensures Under(s, y, x) <==> y == x || Under(s, s.rows[y].parent, x)
  {
    if Under(s, y, x) && y != x {
      var n: nat :| Within(s, y, x, n);
      assert Within(s, s.rows[y].parent, x, n - 1);
    }
    if y == x { assert Within(s, y, x, 0); }
    if Under(s, s.rows[y].parent, x) {
      var n: nat :| Within(s, s.rows[y].parent, x, n);
      assert Within(s, y, x, n + 1);
    }
  }

  /** The moved subtree is ranked above its new parent. */
  ghost function MovedRank(s: State, rank: map<Id, nat>, x: Id, parent: Id): map<Id, nat>
    requires parent in rank
  {
    map y | y in rank :: if Under(s, y, x) then rank[y] + rank[parent] + 1 else rank[y]
  }

  lemma RenameFrame(s: State, x: Id, parent: Id, name: string)
    requires s.Live(x) && x != ROOT
    requires (forall o :: o in s.ops ==> OpOk(s, o)) && OpsOrdered(s.ops) && OneUpload(s.ops)
    ensures var t := Rename(s, x, parent, name);
      && t.rows == s.rows[x := s.rows[x].(parent := parent, name := name)]
      && t.staged == s.staged && t.handles == s.handles && t.nodes == s.nodes && t.clock == s.clock && t.nextId == s.nextId
      && OpsOrdered(t.ops) && OneUpload(t.ops)
      && (forall o :: o in s.ops ==> o in t.ops)
      && (forall o :: o in t.ops ==> OpOk(t, o))
      && (s.Synced(x) ==> HasOp(t, RENAME, x))
      && (forall y :: QueueGrows(s, t, y))
  {
    RenameQueue(s, x, parent, name);
    RenameOps(s, x, parent, name);
    RenameGrows(s, x, parent, name);
  }

  lemma RenameOps(s: State, x: Id, parent: Id, name: string)
    requires s.Live(x) && x != ROOT && (forall o :: o in s.ops ==> OpOk(s, o)) && OpsOrdered(s.ops) && OneUpload(s.ops)
    ensures forall o :: o in Rename(s, x, parent, name).ops ==> OpOk(Rename(s, x, parent, name), o)
  {
    var t := Rename(s, x, parent, name);
    RenameQueue(s, x, parent, name);
    forall o | o in t.ops ensures OpOk(t, o) {
      if o in s.ops { RenamedOpOk(s, t, x, parent, name, o); }
    }
  }

  lemma RenamedOpOk(s: State, t: State, x: Id, parent: Id, name: string, o: Op)
    requires s.Live(x) && OpOk(s, o) && t.rows == s.rows[x := s.rows[x].(parent := parent, name := name)]
    requires t.nodes == s.nodes && s.nextNumber <= t.nextNumber
    ensures OpOk(t, o)
  {
  }

  lemma RenameGrows(s: State, x: Id, parent: Id, name: string)
    requires s.Live(x) && (forall o :: o in s.ops ==> OpOk(s, o)) && OpsOrdered(s.ops) && OneUpload(s.ops)
    ensures forall y :: QueueGrows(s, Rename(s, x, parent, name), y)
  {
    RenameQueue(s, x, parent, name);
    forall y ensures QueueGrows(s, Rename(s, x, parent, name), y) {}
  }

  /** At most one rename is appended. */
  lemma RenameQueue(s: State, x: Id, parent: Id, name: string)
    requires s.Live(x) && (forall o :: o in s.ops ==> OpOk(s, o)) && OpsOrdered(s.ops) && OneUpload(s.ops)
    ensures var t := Rename(s, x, parent, name);
      && OpsOrdered(t.ops) && OneUpload(t.ops) && s.nextNumber <= t.nextNumber
      && (forall o :: o in s.ops ==> o in t.ops)
      && (forall o :: o in t.ops && o !in s.ops ==> o.kind == RENAME && o.item == x && s.Synced(x) && o.number < t.nextNumber)
      && (s.Synced(x) ==> HasOp(t, RENAME, x))
  {
    var u := s.(rows := s.rows[x := s.rows[x].(parent := parent, name := name)]);
    if s.rows[x].remoteId.Some? {
      forall o | o in s.ops ensures o.number < s.nextNumber { assert OpOk(s, o); }
      EnqueueFacts(u, RENAME, x);
      assert Op(u.nextNumber, RENAME, x, None, None) in Rename(s, x, parent, name).ops;
    }
  }

  lemma RenameRow(s: State, t: State, rank: map<Id, nat>, x: Id, parent: Id, name: string, y: Id)
    requires RowOk(s, rank, y) && RowOk(s, rank, x) && RowOk(s, rank, parent)
    requires s.Live(x) && x != ROOT && s.LiveFolder(parent) && !Under(s, parent, x)
    requires t.rows == s.rows[x := s.rows[x].(parent := parent, name := name)]
    requires t.staged == s.staged && t.handles == s.handles && t.nodes == s.nodes && t.clock == s.clock && t.nextId == s.nextId
    requires (forall o :: o in s.ops ==> o in t.ops) && (s.Synced(x) ==> HasOp(t, RENAME, x))
    ensures parent in rank && RowOk(t, MovedRank(s, rank, x, parent), y)
  {
    OpsStay(s, t, y, WRITE);
    OpsStay(s, t, y, RENAME);
    OpsStay(s, t, y, CREATE_FILE);
    OpsStay(s, t, y, CREATE_DIR);
    if s.Live(y) && y != ROOT {
      UnderStep(s, y, x);
    }
  }

  lemma RenameNames(s: State, t: State, x: Id, parent: Id, name: string)
    requires s.Live(x) && x != ROOT && s.LiveFolder(parent)
    requires FreeLocally(s, parent, name, Some(x)) && FreeRemotely(s, parent, name, x)
    requires t.rows == s.rows[x := s.rows[x].(parent := parent, name := name)] && t.nodes == s.nodes
    requires NamesUnique(s) && RemoteIdsUnique(s) && parent != x && forall y :: QueueGrows(s, t, y)
    ensures NamesUnique(t) && RemoteIdsUnique(t) && NameOpen(t, x)
    ensures forall y :: y != x && NameOpen(s, y) ==> NameOpen(t, y)
  {
    assert forall y :: y in t.rows ==> t.rows[y].remoteId == s.rows[y].remoteId && t.Live(y) == s.Live(y);
    StaysFree(s, t, parent, name, x);
    forall y | y != x && NameOpen(s, y) ensures NameOpen(t, y) {
      if s.Live(y) && y != ROOT { StaysFree(s, t, s.rows[y].parent, s.rows[y].name, y); }
    }
  }

  lemma RenameKeepsInv(s: State, rank: map<Id, nat>, x: Id, parent: Id, name: string)
    requires Inv(s, rank) && Allowed(s, EvRename(x, parent, name))
    ensures parent in rank && Inv(Rename(s, x, parent, name), MovedRank(s, rank, x, parent))
  {
    var t := Rename(s, x, parent, name);
    RenameRows(s, rank, x, parent, name);
    RenameFrame(s, x, parent, name);
    RenameNodes(s, t, x, parent, name);
    RenameNames(s, t, x, parent, name);
    forall y ensures NameOpen(t, y) {
      assert NameOpen(s, y);
    }
  }

  lemma RenameRows(s: State, rank: map<Id, nat>, x: Id, parent: Id, name: string)
    requires Inv(s, rank) && Allowed(s, EvRename(x, parent, name))
    ensures parent in rank && parent != x
    ensures forall y :: RowOk(Rename(s, x, parent, name), MovedRank(s, rank, x, parent), y)
    ensures forall y :: HandleOk(Rename(s, x, parent, name), y)
  {
    var t := Rename(s, x, parent, name);
    assert RowOk(s, rank, parent) && RowOk(s, rank, x);
    assert Within(s, x, x, 0);
    RenameFrame(s, x, parent, name);
    forall y ensures RowOk(t, MovedRank(s, rank, x, parent), y) {
      assert RowOk(s, rank, y);
      RenameRow(s, t, rank, x, parent, name, y);
    }
    forall y ensures HandleOk(t, y) {
      assert HandleOk(s, y);
    }
  }

  lemma RenameNodes(s: State, t: State, x: Id, parent: Id, name: string)
    requires s.Live(x) && t.rows == s.rows[x := s.rows[x].(parent := parent, name := name)]
    requires t.nodes == s.nodes && t.clock == s.clock && (forall o :: o in s.ops ==> o in t.ops)
    requires forall r :: NodeOk(s, r)
    ensures forall r :: NodeOk(t, r)
  {
    forall r ensures NodeOk(t, r) {
      assert NodeOk(s, r);
      if r in s.nodes && r != ROOT_REMOTE {
        var y :| Owned(s, y, r);
        OpsStay(s, t, y, DELETE);
        assert Owned(t, y, r);
      }
    }
  }

  // ---- unlink and rmdir ----

  ghost predicate NoLiveChild(s: State, x: Id) {
    forall y :: s.Live(y) && y != ROOT ==> s.rows[y].parent != x
  }

  lemma DeleteFrame(s: State, rank: map<Id, nat>, x: Id)
    requires s.Live(x) && RowOk(s, rank, x)
    ensures var t := DeleteOffline(s, x);
      && t.ended == s.ended && t.handles == s.handles && t.nodes == s.nodes && t.clock == s.clock && t.nextId == s.nextId
      && (forall y :: y != x ==> SameItem(s, t, y))
      && !t.Live(x)
      && (s.rows[x].remoteId.None? ==> x !in t.rows)
      && (s.rows[x].remoteId.Some? ==> x in t.rows && t.rows[x].remoteId == s.rows[x].remoteId && HasOp(t, DELETE, x))
      && (HandleOk(s, x) ==> HandleOk(t, x))
  {
    var t := DeleteOffline(s, x);
    if s.rows[x].remoteId.Some? {
      assert Op(s.nextNumber, DELETE, x, s.rows[x].remoteId, s.rows[x].etag) in t.ops;
    }
  }

  lemma DeleteOps(s: State, rank: map<Id, nat>, x: Id)
    requires s.Live(x) && RowOk(s, rank, x)
    requires (forall o :: o in s.ops ==> OpOk(s, o)) && OpsOrdered(s.ops) && OneUpload(s.ops)
    ensures var t := DeleteOffline(s, x);
      && OpsOrdered(t.ops) && OneUpload(t.ops) && (forall o :: o in t.ops ==> OpOk(t, o))
      && (forall y :: QueueGrows(s, t, y))
  {
    var t := DeleteOffline(s, x);
    DeleteQueue(s, x);
    forall o | o in s.ops && o.kind == DELETE ensures o in t.ops { assert OpOk(s, o); }
    forall o | o in t.ops ensures OpOk(t, o) {
      if o in s.ops {
        assert OpOk(s, o);
        if o.item != x { OpStays(s, t, o); }
      } else {
        NewDeleteOk(s, rank, x);
      }
    }
  }

  lemma DeleteQueue(s: State, x: Id)
    requires s.Live(x)
    requires (forall o :: o in s.ops ==> o.number < s.nextNumber) && OpsOrdered(s.ops) && OneUpload(s.ops)
    ensures var t := DeleteOffline(s, x); OpsOrdered(t.ops) && OneUpload(t.ops)
  {
    var kept := WithoutItem(s.ops, x);
    KeepKeepsOrder(s.ops, (o: Op) => o.item != x);
    assert OneUpload(kept);
    if s.rows[x].remoteId.Some? {
      AppendedNonUpload(kept, Op(s.nextNumber, DELETE, x, s.rows[x].remoteId, s.rows[x].etag));
    }
  }

  lemma NewDeleteOk(s: State, rank: map<Id, nat>, x: Id)
    requires s.Live(x) && RowOk(s, rank, x) && s.rows[x].remoteId.Some?
    ensures OpOk(DeleteOffline(s, x), Op(s.nextNumber, DELETE, x, s.rows[x].remoteId, s.rows[x].etag))
  {
  }

  lemma DeleteKeepsInv(s: State, rank: map<Id, nat>, x: Id)
    requires Inv(s, rank) && s.Live(x) && x != ROOT && NoLiveChild(s, x)
    ensures Inv(DeleteOffline(s, x), rank)
  {
    var t := DeleteOffline(s, x);
    assert RowOk(s, rank, x);
    DeleteFrame(s, rank, x);
    DeleteOps(s, rank, x);
    forall y ensures RowOk(t, rank, y) && HandleOk(t, y) {
      assert RowOk(s, rank, y) && HandleOk(s, y) && HandleOk(s, x);
      DeleteRow(s, t, rank, x, y);
    }
    DeleteNodes(s, t, x);
    DeleteNames(s, t, rank, x);
    assert SameItem(s, t, ROOT);
    assert Get(t.rows, ROOT) == Get(s.rows, ROOT);
  }

  lemma DeleteRow(s: State, t: State, rank: map<Id, nat>, x: Id, y: Id)
    requires RowOk(s, rank, y) && HandleOk(s, y) && s.Live(x) && NoLiveChild(s, x) && RowOk(s, rank, x) && HandleOk(t, x)
    requires t.handles == s.handles && t.nodes == s.nodes && t.clock == s.clock && t.nextId == s.nextId
    requires forall z :: z != x ==> SameItem(s, t, z)
    requires !t.Live(x)
    requires x in t.rows ==> x in s.rows && t.rows[x].remoteId == s.rows[x].remoteId && s.rows[x].remoteId.Some?
    ensures RowOk(t, rank, y) && HandleOk(t, y)
  {
    if y != x {
      assert SameItem(s, t, y);
      assert Get(t.rows, y) == Get(s.rows, y) && Get(t.staged, y) == Get(s.staged, y);
      if s.Live(y) && y != ROOT {
        var p := s.rows[y].parent;
        assert SameItem(s, t, p);
        assert Get(t.rows, p) == Get(s.rows, p);
        RowStays(s, t, rank, rank, y);
      } else if s.Live(y) {
        DeleteKeepsRoot(s, t, rank, x);
      }
    }
  }

  lemma DeleteKeepsRoot(s: State, t: State, rank: map<Id, nat>, x: Id)
    requires RowOk(s, rank, ROOT) && s.Live(ROOT) && x != ROOT && SameItem(s, t, ROOT)
    requires t.nodes == s.nodes && t.clock == s.clock && t.nextId == s.nextId
    ensures RowOk(t, rank, ROOT)
  {
    OpsStay(s, t, ROOT, WRITE);
    OpsStay(s, t, ROOT, CREATE_DIR);
    OpsStay(s, t, ROOT, CREATE_FILE);
    assert Get(t.rows, ROOT) == Get(s.rows, ROOT) && Get(t.staged, ROOT) == Get(s.staged, ROOT);
    assert Get(t.handles, ROOT) == Get(s.handles, ROOT);
  }

  lemma DeleteNodes(s: State, t: State, x: Id)
    requires forall y :: y != x ==> SameItem(s, t, y)
    requires t.nodes == s.nodes && t.clock == s.clock
    requires x in s.rows && s.rows[x].remoteId.Some? ==>
      x in t.rows && t.rows[x].remoteId == s.rows[x].remoteId && HasOp(t, DELETE, x)
    requires forall r :: NodeOk(s, r)
    ensures forall r :: NodeOk(t, r)
  {
    forall r ensures NodeOk(t, r) {
      assert NodeOk(s, r);
      if r in s.nodes && r != ROOT_REMOTE {
        var y :| Owned(s, y, r);
        if y != x {
          assert SameItem(s, t, y);
          OpsStay(s, t, y, DELETE);
          assert Get(t.rows, y) == Get(s.rows, y);
        }
        assert Owned(t, y, r);
      }
    }
  }

  lemma DeleteNames(s: State, t: State, rank: map<Id, nat>, x: Id)
    requires (forall y :: RowOk(s, rank, y)) && NamesUnique(s) && RemoteIdsUnique(s) && (forall y :: NameOpen(s, y))
    requires (forall y :: y != x ==> SameItem(s, t, y)) && NoLiveChild(s, x) && s.Live(x)
    requires t.nodes == s.nodes && !t.Live(x) && (x in t.rows ==> x in s.rows && t.rows[x].remoteId == s.rows[x].remoteId)
    requires forall y :: QueueGrows(s, t, y)
    ensures NamesUnique(t) && RemoteIdsUnique(t) && forall y :: NameOpen(t, y)
  {
    forall y ensures y != x ==> (y in t.rows <==> y in s.rows) && (y in s.rows ==> t.rows[y] == s.rows[y]) {
      assert y != x ==> SameItem(s, t, y);
      assert y != x ==> Get(t.rows, y) == Get(s.rows, y);
    }
    forall y ensures NameOpen(t, y) {
      assert NameOpen(s, y) && RowOk(s, rank, y);
      if t.Live(y) && y != ROOT { StaysFree(s, t, s.rows[y].parent, s.rows[y].name, y); }
    }
  }

  // ---- any event, any history ----

  lemma EventKeepsInv(s: State, rank: map<Id, nat>, e: Event) returns (rank': map<Id, nat>)
    requires Inv(s, rank) && Allowed(s, e)
    ensures e.EvOpen? ==> e.x in s.staged
    ensures e.EvWrite? || e.EvFlush? || e.EvRelease? ==> e.x in s.handles
    ensures e.EvRename? || e.EvUnlink? || e.EvRmdir? ==> s.Live(e.x)
    ensures Inv(Apply(s, e), rank')
  {
    rank' := rank;
    match e
    case EvCreate(parent, name) =>
      CreateKeepsInv(s, rank, parent, name, false);
      rank' := NewRank(s, rank, parent);
    case EvMkdir(parent, name) =>
      CreateKeepsInv(s, rank, parent, name, true);
      rank' := NewRank(s, rank, parent);
    case EvOpen(x, truncate) => OpenKeepsInv(s, rank, x, truncate);
    case EvWrite(x, bytes) =>
      assert HandleOk(s, x);
      WriteKeepsInv(s, rank, x, bytes);
    case EvFlush(x) => FlushKeepsInv(s, rank, x);
    case EvRelease(x) => ReleaseKeepsInv(s, rank, x);
    case EvRename(x, parent, name) =>
      RenameKeepsInv(s, rank, x, parent, name);
      rank' := MovedRank(s, rank, x, parent);
    case EvUnlink(x) =>
      FilesHoldNoChild(s, rank, x);
      DeleteKeepsInv(s, rank, x);
    case EvRmdir(x) =>
      assert HandleOk(s, x);
      DeleteKeepsInv(s, rank, x);
  }

  /** The queue accounts for every difference between the live tree and the drive. */
  ghost predicate Accounted(s: State) { exists rank :: Inv(s, rank) }

  lemma EventKeepsAccounts(s: State, e: Event)
    requires Accounted(s) && Allowed(s, e)
    ensures e.EvOpen? ==> e.x in s.staged
    ensures e.EvWrite? || e.EvFlush? || e.EvRelease? ==> e.x in s.handles
    ensures e.EvRename? || e.EvUnlink? || e.EvRmdir? ==> s.Live(e.x)
    ensures Accounted(Apply(s, e))
  {
    var rank :| Inv(s, rank);
    var rank' := EventKeepsInv(s, rank, e);
  }

  lemma FilesHoldNoChild(s: State, rank: map<Id, nat>, x: Id)
    requires (forall y :: RowOk(s, rank, y)) && s.LiveFile(x) && RootOk(s)
    ensures NoLiveChild(s, x) && x != ROOT
  {
    forall y | s.Live(y) && y != ROOT ensures s.rows[y].parent != x {
      assert RowOk(s, rank, y);
    }
  }
}
