/** The mount's handlers and its sync worker as objects that update their tables in
    place, proved against `MountModel`. */
module MountWorker {
  import opened Basics
  import opened MountModel
  import opened MountInvariant
  import opened MountEvents
  import opened MountExec
  import opened MountDrain

  /** The drive behind Microsoft Graph. */
  class Drive {
    var nodes: map<RemoteId, Node>
    var clock: nat

    constructor (nodes: map<RemoteId, Node>, clock: nat)
      ensures this.nodes == nodes && this.clock == clock
    {
      this.nodes, this.clock := nodes, clock;
    }

    /** A new folder or file; an existing name is adopted, a file's bytes replaced. */
    method CreateItem(parent: RemoteId, name: string, isFolder: bool, bytes: Content)
      returns (id: Option<RemoteId>, etag: Etag)
      modifies this
      ensures !old(parent in nodes && nodes[parent].isFolder) ==> id.None? && nodes == old(nodes) && clock == old(clock)
      ensures old(parent in nodes && nodes[parent].isFolder) ==>
        var found := old(FindChild(nodes, parent, name, clock));
        if found.None? then
          && id == Some(old(clock)) && etag == old(clock) && clock == old(clock) + 1
          && nodes == old(nodes)[etag := Node(old(nodes)[parent].ancestors + [parent], name, isFolder, bytes, etag)]
        else if isFolder then
          id == found && etag == old(nodes)[found.value].etag && nodes == old(nodes) && clock == old(clock)
        else if old(nodes)[found.value].isFolder then id.None? && nodes == old(nodes) && clock == old(clock)
        else
          && id == found && etag == old(clock) && clock == old(clock) + 1
          && nodes == old(nodes)[found.value := old(nodes)[found.value].(content := bytes, etag := etag)]
    {
      id, etag := None, 0;
      if parent !in nodes || !nodes[parent].isFolder {
        return;
      }
      var found := FindChild(nodes, parent, name, clock);
      if found.None? {
        id, etag := Some(clock), clock;
        nodes := nodes[clock := Node(nodes[parent].ancestors + [parent], name, isFolder, bytes, clock)];
        clock := clock + 1;
      } else if isFolder {
        id, etag := found, nodes[found.value].etag;
      } else if !nodes[found.value].isFolder {
        id, etag := found, clock;
        nodes := nodes[found.value := nodes[found.value].(content := bytes, etag := clock)];
        clock := clock + 1;
      }
    }

    method ReplaceContent(id: RemoteId, bytes: Content) returns (etag: Etag)
      requires id in nodes
      modifies this
      ensures nodes == old(nodes)[id := old(nodes)[id].(content := bytes, etag := etag)]
      ensures etag == old(clock) && clock == old(clock) + 1
    {
      etag := clock;
      nodes := nodes[id := nodes[id].(content := bytes, etag := clock)];
      clock := clock + 1;
    }

    method MoveOrRename(id: RemoteId, parent: RemoteId, name: string) returns (etag: Option<Etag>)
      modifies this
      ensures var ok := old(id in nodes && parent in nodes && id != parent && id !in nodes[parent].ancestors
                            && !NameTaken(nodes, parent, name, Some(id)));
        if ok then
          && nodes == old(Moved(nodes, id, parent, name, clock))
          && etag == Some(old(clock)) && clock == old(clock) + 1
        else etag.None? && nodes == old(nodes) && clock == old(clock)
    {
      if id !in nodes || parent !in nodes || id == parent || id in nodes[parent].ancestors
         || NameTaken(nodes, parent, name, Some(id)) {
        return None;
      }
      nodes := Moved(nodes, id, parent, name, clock);
      etag := Some(clock);
      clock := clock + 1;
    }

    /** Missing or changed items are left alone; either way the caller is done. */
    method DeleteItem(id: RemoteId, etag: Option<Etag>)
      modifies this
      ensures clock == old(clock)
      ensures nodes ==
        if old(id in nodes && (etag.None? || etag.value == nodes[id].etag)) then Pruned(old(nodes), id) else old(nodes)
    {
      if id in nodes && (etag.None? || etag.value == nodes[id].etag) {
        nodes := Pruned(nodes, id);
      }
    }
  }

  /** The local database, the staging files and the open handles. */
  class Mount {
    var rows: map<Id, Row>
    var staged: map<Id, Content>
    var handles: map<Id, Handle>
    var ops: seq<Op>
    var nextId: Id
    var nextNumber: nat
    var ended: bool
    const drive: Drive

    constructor (s: State, drive: Drive)
      requires drive.nodes == s.nodes && drive.clock == s.clock
      ensures this.drive == drive && State() == s
    {
      rows, staged, handles, ops := s.rows, s.staged, s.handles, s.ops;
      nextId, nextNumber, ended := s.nextId, s.nextNumber, s.ended;
      this.drive := drive;
    }

    function State(): State
      reads this, drive
    {
      MountModel.State(rows, staged, handles, ops, nextId, nextNumber, drive.nodes, drive.clock, ended)
    }

    // ---- db.py: the queue ----

    method EnqueueOp(kind: OpKind, x: Id)
      modifies this`ops, this`nextNumber
      ensures State() == Enqueue(old(State()), kind, x)
    {
      if kind == WRITE && HasUpload(ops, x) {
        return;
      }
      ops := ops + [Op(nextNumber, kind, x, None, None)];
      nextNumber := nextNumber + 1;
    }

    method CancelPendingOps(x: Id)
      modifies this`ops
      ensures ops == WithoutItem(old(ops), x)
    {
      ops := WithoutItem(ops, x);
    }

    method DropOp(op: Op)
      modifies this`ops
      ensures State() == Drop(old(State()), op)
    {
      ops := WithoutOp(ops, op.number);
    }

    method ConfirmSynced(x: Id, r: RemoteId, etag: Etag)
      requires x in rows
      modifies this`rows
      ensures State() == Confirm(old(State()), x, r, etag)
    {
      rows := rows[x := rows[x].(remoteId := Some(r), etag := Some(etag))];
    }

    // ---- operations.py: the handlers ----

    method CreateFile(parent: Id, name: string)
      modifies this
      ensures State() == Create(old(State()), parent, name)
      ensures Accounted(old(State())) && Allowed(old(State()), EvCreate(parent, name)) ==> Accounted(State())
    {
      if Accounted(State()) && Allowed(State(), EvCreate(parent, name)) { EventKeepsAccounts(State(), EvCreate(parent, name)); }
      var x := nextId;
      rows := rows[x := Row(None, parent, name, false, None, false)];
      staged := staged[x := []];
      handles := handles[x := Handle(true, [])];
      nextId := x + 1;
      EnqueueOp(CREATE_FILE, x);
    }

    method MakeDir(parent: Id, name: string)
      modifies this
      ensures State() == Mkdir(old(State()), parent, name)
      ensures Accounted(old(State())) && Allowed(old(State()), EvMkdir(parent, name)) ==> Accounted(State())
    {
      if Accounted(State()) && Allowed(State(), EvMkdir(parent, name)) { EventKeepsAccounts(State(), EvMkdir(parent, name)); }
      var x := nextId;
      rows := rows[x := Row(None, parent, name, true, None, false)];
      nextId := x + 1;
      EnqueueOp(CREATE_DIR, x);
    }

    method OpenFile(x: Id, truncate: bool)
      requires x in staged
      modifies this`handles, this`staged
      ensures State() == OpenForWriting(old(State()), x, truncate)
      ensures Accounted(old(State())) && Allowed(old(State()), EvOpen(x, truncate)) ==> Accounted(State())
    {
      if Accounted(State()) && Allowed(State(), EvOpen(x, truncate)) { EventKeepsAccounts(State(), EvOpen(x, truncate)); }
      var original := staged[x];
      if truncate {
        staged := staged[x := []];
      }
      handles := handles[x := Handle(truncate, original)];
    }

    method WriteBytes(x: Id, bytes: Content)
      requires x in handles
      modifies this`handles, this`staged
      ensures State() == Write(old(State()), x, bytes)
      ensures Accounted(old(State())) && Allowed(old(State()), EvWrite(x, bytes)) ==> Accounted(State())
    {
      if Accounted(State()) && Allowed(State(), EvWrite(x, bytes)) { EventKeepsAccounts(State(), EvWrite(x, bytes)); }
      if x in staged {
        staged := staged[x := bytes];
      }
      handles := handles[x := handles[x].(dirty := true)];
    }

    method FlushHandle(x: Id)
      requires x in handles
      modifies this`handles, this`ops, this`nextNumber, this`ended
      ensures State() == Flush(old(State()), x)
      ensures Accounted(old(State())) && Allowed(old(State()), EvFlush(x)) ==> Accounted(State())
    {
      if Accounted(State()) && Allowed(State(), EvFlush(x)) { EventKeepsAccounts(State(), EvFlush(x)); }
      var h := handles[x];
      if !h.dirty {
        return;
      }
      if x !in staged {
        ended := true;
        return;
      }
      if staged[x] == h.original {
        handles := handles[x := h.(dirty := false)];
        return;
      }
      EnqueueOp(WRITE, x);
      handles := handles[x := Handle(false, staged[x])];
    }

    method ReleaseHandle(x: Id)
      requires x in handles
      modifies this`handles, this`ops, this`nextNumber, this`ended
      ensures State() == Release(old(State()), x)
      ensures Accounted(old(State())) && Allowed(old(State()), EvRelease(x)) ==> Accounted(State())
    {
      if Accounted(State()) && Allowed(State(), EvRelease(x)) { EventKeepsAccounts(State(), EvRelease(x)); }
      if x in staged {
        FlushHandle(x);
      }
      handles := handles - {x};
    }

    method RenameItem(x: Id, parent: Id, name: string)
      requires x in rows && !rows[x].deleted
      modifies this`rows, this`ops, this`nextNumber
      ensures State() == Rename(old(State()), x, parent, name)
      ensures Accounted(old(State())) && Allowed(old(State()), EvRename(x, parent, name)) ==> Accounted(State())
    {
      if Accounted(State()) && Allowed(State(), EvRename(x, parent, name)) { EventKeepsAccounts(State(), EvRename(x, parent, name)); }
      var row := rows[x];
      rows := rows[x := row.(parent := parent, name := name)];
      if row.remoteId.Some? {
        EnqueueOp(RENAME, x);
      }
    }

    method DeleteItem(x: Id)
      requires x in rows && !rows[x].deleted
      modifies this`rows, this`staged, this`ops, this`nextNumber
      ensures State() == DeleteOffline(old(State()), x)
      ensures Accounted(old(State())) && (Allowed(old(State()), EvUnlink(x)) || Allowed(old(State()), EvRmdir(x))) ==>
        Accounted(State())
    {
      if Accounted(State()) && Allowed(State(), EvUnlink(x)) { EventKeepsAccounts(State(), EvUnlink(x)); }
      if Accounted(State()) && Allowed(State(), EvRmdir(x)) { EventKeepsAccounts(State(), EvRmdir(x)); }
      var row := rows[x];
      CancelPendingOps(x);
      if row.remoteId.None? {
        rows := rows - {x};
        staged := staged - {x};
        return;
      }
      rows := rows[x := row.(deleted := true)];
      ops := ops + [Op(nextNumber, DELETE, x, row.remoteId, row.etag)];
      nextNumber := nextNumber + 1;
    }

    // ---- mount_sync_worker.py: the executors ----

    method ExecuteDelete(op: Op)
      modifies this`ops, drive
      ensures State() == ExecDelete(old(State()), op)
    {
      var target, etag := op.target, op.targetEtag;
      if target.None? {
        if op.item !in rows || rows[op.item].remoteId.None? {
          DropOp(op);
          return;
        }
        target, etag := rows[op.item].remoteId, rows[op.item].etag;
      }
      drive.DeleteItem(target.value, etag);
      DropOp(op);
    }

    method ExecuteCreate(op: Op) returns (outcome: Outcome)
      requires op.item in rows && !rows[op.item].deleted
      modifies this`rows, this`ops, drive
      ensures (State(), outcome) == ExecCreate(old(State()), op)
    {
      var x := op.item;
      var row := rows[x];
      if row.parent !in rows || rows[row.parent].deleted || rows[row.parent].remoteId.None? {
        return Waiting;
      }
      var p := rows[row.parent].remoteId.value;
      var bytes := if x in staged then staged[x] else [];
      var id, etag := drive.CreateItem(p, row.name, op.kind == CREATE_DIR, bytes);
      if id.None? {
        return Failed;
      }
      ConfirmSynced(x, id.value, etag);
      DropOp(op);
      outcome := Finished;
    }

    method ExecuteWrite(op: Op) returns (outcome: Outcome)
      requires op.item in rows && !rows[op.item].deleted
      modifies this`rows, this`ops, drive
      ensures (State(), outcome) == ExecWrite(old(State()), op)
    {
      var x := op.item;
      var row := rows[x];
      if row.remoteId.None? {
        return Waiting;
      }
      var r := row.remoteId.value;
      if r !in drive.nodes || drive.nodes[r].isFolder || x !in staged {
        return Failed;
      }
      // the explicit pre-check: the simple upload does not honour If-Match
      if row.etag.Some? && row.etag.value != drive.nodes[r].etag {
        return KeepBoth;
      }
      var etag := drive.ReplaceContent(r, staged[x]);
      ConfirmSynced(x, r, etag);
      DropOp(op);
      outcome := Finished;
    }

    method ExecuteRename(op: Op) returns (outcome: Outcome)
      requires op.item in rows && !rows[op.item].deleted
      modifies this`rows, this`ops, drive
      ensures (State(), outcome) == ExecRename(old(State()), op)
    {
      var x := op.item;
      var row := rows[x];
      if row.parent !in rows || rows[row.parent].deleted || rows[row.parent].remoteId.None? {
        return Waiting;
      }
      if row.remoteId.None? {
        return Failed;
      }
      var etag := drive.MoveOrRename(row.remoteId.value, rows[row.parent].remoteId.value, row.name);
      if etag.None? {
        return Failed;
      }
      rows := rows[x := row.(etag := etag)];
      DropOp(op);
      outcome := Finished;
    }

    method ExecuteOp(op: Op) returns (outcome: Outcome)
      modifies this`rows, this`ops, drive
      ensures (State(), outcome) == Exec(old(State()), op)
      ensures Accounted(old(State())) && op in old(ops) && InTurn(old(State()), op) ==> Accounted(State())
    {
      if Accounted(State()) && op in ops && InTurn(State(), op) { WorkKeepsAccounts(State(), op); }
      if op.kind == DELETE {
        ExecuteDelete(op);
        return Finished;
      }
      if op.item !in rows || rows[op.item].deleted {
        DropOp(op);
        return Finished;
      }
      if op.kind == WRITE {
        outcome := ExecuteWrite(op);
      } else if op.kind == RENAME {
        outcome := ExecuteRename(op);
      } else {
        outcome := ExecuteCreate(op);
      }
    }

    /** `_drain`: one attempt at every op of the list read at the start. */
    method DrainOnce()
      modifies this`rows, this`ops, drive
      ensures State() == Pass(old(State()), old(ops))
      ensures Accounted(old(State())) ==> Accounted(State())
    {
      if Accounted(State()) { PassKeepsAccounts(State()); }
      var todo := ops;
      ghost var s := State();
      var i := 0;
      while i < |todo|
        invariant 0 <= i <= |todo|
        invariant Pass(s, todo) == Pass(State(), todo[i..])
      {
        assert todo[i..][0] == todo[i] && todo[i..][1..] == todo[i + 1..];
        var outcome := ExecuteOp(todo[i]);
        i := i + 1;
      }
    }

    /** The worker thread, woken `passes` times: the queue stays accountable, and it ends
        empty after as many passes as it has ops if nothing is gone and its deletes are
        safe. */
    method DrainTimes(passes: nat, ghost rank: map<Id, nat>)
      requires Inv(State(), rank)
      modifies this`rows, this`ops, drive
      ensures Inv(State(), rank) && State() == Drain(old(State()), passes)
      ensures Whole(old(State())) && PassSafe(old(State()), old(ops)) && passes >= |old(ops)| ==> ops == []
    {
      ghost var s := State();
      DrainKeepsInv(s, rank, passes);
      if Whole(s) && PassSafe(s, s.ops) && passes >= |s.ops| {
        DrainEmpties(s, rank, passes);
      }
      RunPasses(passes);
    }

    method RunPasses(passes: nat)
      modifies this`rows, this`ops, drive
      ensures State() == Drain(old(State()), passes)
    {
      ghost var s := State();
      var i := 0;
      while i < passes
        invariant 0 <= i <= passes
        invariant Drain(s, passes) == Drain(State(), passes - i)
      {
        DrainOnce();
        i := i + 1;
      }
    }
  }
}
