/** The bytes: which uploads and flushes leave the drive behind the mount with nothing
    queued. */
module MountBytes {
  import opened Basics
  import opened MountModel
  import opened MountInvariant
  import opened MountQueue
  import opened MountEvents
  import opened MountExec
  import opened MountExec2
  import opened MountMove
  import opened MountDrain

  /** The drive has bytes nobody has accounted for. */
  ghost predicate Stale(s: State, x: Id) { !BytesOk(s, x) }

  /** An upload of the item now sends bytes that its handle has not flushed. */
  predicate Unflushed(s: State, x: Id) {
    x in s.handles && x in s.staged && s.staged[x] != s.handles[x].original
  }

  /** The op is an upload of the file `x` that goes through. */
  predicate Uploads(s: State, op: Op, x: Id) {
    op.kind in {CREATE_FILE, WRITE} && op.item == x && s.Live(x) && Exec(s, op).1 == Finished
  }

  /** The files left behind, step by step: an upload sends bytes its handle has not
      flushed, and no flush since has found the bytes changed from the baseline. */
  function AfterEvent(s: State, behind: set<Id>, e: Event): set<Id> {
    match e
    case EvFlush(x) => if Unflushed(s, x) then behind - {x} else behind
    case EvRelease(x) => if Unflushed(s, x) then behind - {x} else behind
    case EvUnlink(x) => behind - {x}
    case _ => behind
  }

  function AfterWork(s: State, behind: set<Id>, op: Op): set<Id> {
    if !Uploads(s, op, op.item) then behind
    else if Unflushed(s, op.item) then behind + {op.item}
    else behind - {op.item}
  }

  /** `behind` is exactly the files whose bytes are unaccounted for, or were when they
      went missing. */
  ghost predicate Tracks(s: State, behind: set<Id>, x: Id) {
    && (Stale(s, x) ==> x in behind)
    && (x in behind ==> s.LiveFile(x) && (Stale(s, x) || Missing(s, x)))
  }

  /** Whether a flush leaves the drive accounted for: not if the bytes are the
      handle's baseline, nothing is queued, and the drive has other bytes. */
  lemma FlushAccountsIff(s: State, rank: map<Id, nat>, x: Id)
    requires Inv(s, rank) && x in s.handles && s.handles[x].dirty && x in s.staged
    requires s.Synced(x) && s.Rid(x) in s.nodes && !HasUpload(s.ops, x)
    ensures BytesOk(Flush(s, x), x)
       <==> !(s.staged[x] == s.handles[x].original && s.nodes[s.Rid(x)].content != s.handles[x].original)
  {
    assert HandleOk(s, x) && RowOk(s, rank, x);
    var t := Flush(s, x);
    EnqueuedWrite(s, x);
    if s.staged[x] == s.handles[x].original {
      assert !HasOp(t, WRITE, x);
    } else {
      var o :| o in t.ops && o.item == x && IsUpload(o.kind);
      FlushKeepsInv(s, rank, x);
      assert OpOk(t, o);
    }
  }

  // ---- events ----

  lemma SameBytesOk(s: State, t: State, x: Id)
    requires Get(t.rows, x) == Get(s.rows, x) || (x in s.rows && x in t.rows
      && t.rows[x] == s.rows[x].(parent := t.rows[x].parent, name := t.rows[x].name))
    requires Get(t.staged, x) == Get(s.staged, x) && Get(t.handles, x) == Get(s.handles, x) && t.nodes == s.nodes
    requires HasOp(t, WRITE, x) <==> HasOp(s, WRITE, x)
    ensures BytesOk(t, x) <==> BytesOk(s, x)
    ensures Missing(t, x) <==> Missing(s, x)
    ensures t.LiveFile(x) <==> s.LiveFile(x)
  {
    assert Get(t.rows, x) == Get(s.rows, x) ==> (x in s.rows <==> x in t.rows);
    assert x in s.rows && x in t.rows ==>
      t.rows[x].remoteId == s.rows[x].remoteId && t.rows[x].deleted == s.rows[x].deleted && t.rows[x].isFolder == s.rows[x].isFolder;
  }

  /** The other items of a byte event. */
  lemma TouchedElsewhere(s: State, t: State, x: Id, y: Id)
    requires TouchesBytes(s, t, x) && y != x
    ensures BytesOk(t, y) <==> BytesOk(s, y)
    ensures Missing(t, y) <==> Missing(s, y)
    ensures t.LiveFile(y) <==> s.LiveFile(y)
  {
    OpsStay(s, t, y, WRITE);
    if HasOp(t, WRITE, y) {
      var o :| o in t.ops && o.kind == WRITE && o.item == y;
      assert o in s.ops;
    }
    SameBytesOk(s, t, y);
  }

  lemma OpenTracks(s: State, rank: map<Id, nat>, x: Id, truncate: bool, behind: set<Id>, y: Id)
    requires Inv(s, rank) && s.LiveFile(x) && x !in s.handles && x in s.staged && Tracks(s, behind, y)
    ensures Tracks(OpenForWriting(s, x, truncate), behind, y)
  {
    var t := OpenForWriting(s, x, truncate);
    assert RowOk(s, rank, x);
    if y != x { TouchedElsewhere(s, t, x, y); }
    else { assert HasOp(t, WRITE, x) <==> HasOp(s, WRITE, x); }
  }

  /** Calls on a handle whose item is purged concern no live file. */
  lemma GoneTracks(s: State, t: State, x: Id, behind: set<Id>, y: Id)
    requires x !in s.rows && t == s.(handles := t.handles, ended := t.ended) && Tracks(s, behind, y)
    requires forall z :: z != x ==> Get(t.handles, z) == Get(s.handles, z)
    ensures Tracks(t, behind, y)
  {
    assert HasOp(t, WRITE, y) <==> HasOp(s, WRITE, y);
    if y != x { SameBytesOk(s, t, y); }
  }

  lemma WriteTracks(s: State, rank: map<Id, nat>, x: Id, bytes: Content, behind: set<Id>, y: Id)
    requires Inv(s, rank) && x in s.handles && HandleOk(s, x) && Tracks(s, behind, y)
    ensures Tracks(Write(s, x, bytes), behind, y)
  {
    var t := Write(s, x, bytes);
    if x !in s.rows { GoneTracks(s, t, x, behind, y); }
    else if y != x { TouchedElsewhere(s, t, x, y); }
    else { assert HasOp(t, WRITE, x) <==> HasOp(s, WRITE, x); }
  }

  lemma FlushTracks(s: State, rank: map<Id, nat>, x: Id, behind: set<Id>, y: Id)
    requires Inv(s, rank) && x in s.handles && HandleOk(s, x) && Tracks(s, behind, y)
    ensures Tracks(Flush(s, x), AfterEvent(s, behind, EvFlush(x)), y)
  {
    var t := Flush(s, x);
    if x !in s.rows {
      GoneTracks(s, t, x, behind, y);
      return;
    }
    FlushKeepsInv(s, rank, x);
    forall o | o in s.ops ensures o.number < s.nextNumber { assert OpOk(s, o); }
    FlushTouchesBytes(s, x);
    if y != x {
      TouchedElsewhere(s, t, x, y);
    } else if Unflushed(s, x) {
      EnqueuedWrite(s, x);
      var o :| o in t.ops && o.item == x && IsUpload(o.kind);
      assert OpOk(t, o);
      if t.Synced(x) { assert HasOp(t, WRITE, x); }
    } else {
      assert HasOp(t, WRITE, x) <==> HasOp(s, WRITE, x);
    }
  }

  lemma ReleaseTracks(s: State, rank: map<Id, nat>, x: Id, behind: set<Id>, y: Id)
    requires Inv(s, rank) && x in s.handles && HandleOk(s, x) && Tracks(s, behind, y)
    ensures Tracks(Release(s, x), AfterEvent(s, behind, EvRelease(x)), y)
  {
    if x !in s.rows {
      GoneTracks(s, Release(s, x), x, behind, y);
      return;
    }
    FlushTracks(s, rank, x, behind, y);
    FlushKeepsInv(s, rank, x);
    var u, t := Flush(s, x), Release(s, x);
    assert HandleOk(u, x);
    assert HasOp(t, WRITE, y) <==> HasOp(u, WRITE, y);
    if y != x { SameBytesOk(u, t, y); }
  }

  lemma NoNewWrites(s: State, t: State, x: Id)
    requires (forall o :: o in s.ops && o.item == x ==> o in t.ops)
    requires forall o :: o in t.ops ==> o in s.ops || o.kind != WRITE
    ensures HasOp(t, WRITE, x) <==> HasOp(s, WRITE, x)
  {
    OpsStay(s, t, x, WRITE);
  }

  lemma CreateTracks(s: State, rank: map<Id, nat>, parent: Id, name: string, isFolder: bool, behind: set<Id>, y: Id)
    requires Inv(s, rank) && Tracks(s, behind, y)
    ensures Tracks(CreateOf(s, parent, name, isFolder), behind, y)
  {
    var t := CreateOf(s, parent, name, isFolder);
    RowsBelow(s, rank);
    assert HandleOk(s, s.nextId);
    CreateFrame(s, parent, name, isFolder);
    if y != s.nextId {
      assert SameItem(s, t, y);
      NoNewWrites(s, t, y);
      SameBytesOk(s, t, y);
    }
  }

  lemma RenameTracks(s: State, rank: map<Id, nat>, x: Id, parent: Id, name: string, behind: set<Id>, y: Id)
    requires Inv(s, rank) && s.Live(x) && x != ROOT && Tracks(s, behind, y)
    ensures Tracks(Rename(s, x, parent, name), behind, y)
  {
    var t := Rename(s, x, parent, name);
    RenameFrame(s, x, parent, name);
    NoNewWrites(s, t, y);
    SameBytesOk(s, t, y);
  }

  lemma DeleteTracks(s: State, rank: map<Id, nat>, x: Id, behind: set<Id>, y: Id)
    requires Inv(s, rank) && s.Live(x) && Tracks(s, behind, y)
    ensures y != x ==> Tracks(DeleteOffline(s, x), behind, y)
    ensures Tracks(DeleteOffline(s, x), behind - {x}, y)
    ensures !s.LiveFile(x) ==> Tracks(DeleteOffline(s, x), behind, y)
  {
    var t := DeleteOffline(s, x);
    assert RowOk(s, rank, x) && HandleOk(s, x);
    DeleteFrame(s, rank, x);
    if y != x {
      assert SameItem(s, t, y);
      NoNewWrites(s, t, y);
      SameBytesOk(s, t, y);
    }
  }

  lemma EventTracks(s: State, rank: map<Id, nat>, e: Event, behind: set<Id>, y: Id)
    requires Inv(s, rank) && Allowed(s, e) && Tracks(s, behind, y)
    requires e.EvOpen? ==> e.x in s.staged
    requires e.EvWrite? || e.EvFlush? || e.EvRelease? ==> e.x in s.handles
    requires e.EvRename? || e.EvUnlink? || e.EvRmdir? ==> s.Live(e.x)
    ensures Tracks(Apply(s, e), AfterEvent(s, behind, e), y)
  {
    assert e.EvWrite? || e.EvFlush? || e.EvRelease? || e.EvRmdir? ==> HandleOk(s, e.x);
    match e
    case EvCreate(parent, name) => CreateTracks(s, rank, parent, name, false, behind, y);
    case EvMkdir(parent, name) => CreateTracks(s, rank, parent, name, true, behind, y);
    case EvOpen(x, truncate) => OpenTracks(s, rank, x, truncate, behind, y);
    case EvWrite(x, bytes) => WriteTracks(s, rank, x, bytes, behind, y);
    case EvFlush(x) => FlushTracks(s, rank, x, behind, y);
    case EvRelease(x) => ReleaseTracks(s, rank, x, behind, y);
    case EvRename(x, parent, name) => RenameTracks(s, rank, x, parent, name, behind, y);
    case EvUnlink(x) => DeleteTracks(s, rank, x, behind, y);
    case EvRmdir(x) => DeleteTracks(s, rank, x, behind, y);
  }

  // ---- worker steps ----

  /** The op that goes was the only upload of its item. */
  lemma NoWriteLeft(s: State, t: State, op: Op)
    requires op in s.ops && IsUpload(op.kind) && OneUpload(s.ops)
    requires forall o :: o in t.ops <==> o in s.ops && o != op
    ensures !HasOp(t, WRITE, op.item)
  {
  }

  lemma WorkTracks(s: State, rank: map<Id, nat>, op: Op, behind: set<Id>, y: Id)
    requires Inv(s, rank) && op in s.ops && InTurn(s, op) && Tracks(s, behind, y)
    ensures Tracks(Exec(s, op).0, AfterWork(s, behind, op), y)
  {
    assert OpOk(s, op) && HandleOk(s, y);
    ExecKeepsInv(s, rank, op);
    if Exec(s, op).1 == Finished {
      if op.kind == DELETE {
        NodesFormATree(s);
        DeleteRemoves(s, op);
        OtherOpsStay(s, Deleted(s, op), op, WRITE, y);
        DropFacts(s, op);
      } else if op.kind == WRITE {
        WriteUploads(s, rank, op);
        if s.Live(op.item) { WrittenTracks(s, op, behind, y); } else { DroppedTracks(s, op, behind, y); }
      } else if op.kind == RENAME {
        RenameMoves(s, rank, op);
        RenamedTracks(s, op, behind, y);
      } else {
        CreateStepKeepsInv(s, rank, op);
        CreatedTracks(s, rank, op, behind, y);
      }
    }
  }

  lemma DroppedTracks(s: State, op: Op, behind: set<Id>, y: Id)
    requires op in s.ops && op.kind == WRITE && !s.Live(op.item) && OpsOrdered(s.ops) && OneUpload(s.ops) && Tracks(s, behind, y)
    ensures Tracks(Drop(s, op), AfterWork(s, behind, op), y)
  {
    DropFacts(s, op);
    if y != op.item { OtherOpsStay(s, Drop(s, op), op, WRITE, y); }
  }

  lemma WrittenTracks(s: State, op: Op, behind: set<Id>, y: Id)
    requires WriteReady(s, op) && RemoteIdsUnique(s) && Tracks(s, behind, y) && HandleOk(s, y)
    requires Exec(s, op) == (Written(s, op), Finished)
    ensures Tracks(Written(s, op), AfterWork(s, behind, op), y)
  {
    var t := Written(s, op);
    DropFacts(s, op);
    NoWriteLeft(s, t, op);
    if y != op.item { OtherOpsStay(s, t, op, WRITE, y); }
  }

  lemma RenamedTracks(s: State, op: Op, behind: set<Id>, y: Id)
    requires RenameReady(s, op) && Tracks(s, behind, y)
    requires Exec(s, op) == (Renamed(s, op), Finished)
    ensures Tracks(Renamed(s, op), AfterWork(s, behind, op), y)
  {
    var t := Renamed(s, op);
    var x := op.item;
    DropFacts(s, op);
    OtherOpsStay(s, t, op, WRITE, y);
    if s.Synced(y) && s.Rid(y) in s.nodes {
      MovedFacts(s.nodes, s.Rid(x), s.Rid(s.rows[x].parent), s.rows[x].name, s.clock, s.Rid(y));
    }
  }

  lemma CreatedTracks(s: State, rank: map<Id, nat>, op: Op, behind: set<Id>, y: Id)
    requires Inv(s, rank) && CreateReady(s, op) && Tracks(s, behind, y) && HandleOk(s, y)
    requires Exec(s, op) == (Created(s, op), Finished)
    ensures Tracks(Created(s, op), AfterWork(s, behind, op), y)
  {
    var t := Created(s, op);
    DropFacts(s, op);
    NoWriteLeft(s, t, op);
    ServerIdsBelowClock(s, rank);
    if y != op.item { OtherOpsStay(s, t, op, WRITE, y); }
  }

  // ---- draining with clean handles ----

  /** Draining changes nothing about the files left behind: none of them is queued. */
  lemma CleanWork(s: State, rank: map<Id, nat>, op: Op, behind: set<Id>)
    requires Inv(s, rank) && op in s.ops && InTurn(s, op) && Clean(s) && forall y :: Tracks(s, behind, y)
    ensures AfterWork(s, behind, op) == behind
  {
    var x := op.item;
    assert OpOk(s, op) && HandleOk(s, x) && Tracks(s, behind, x) && RowOk(s, rank, x);
    if Uploads(s, op, x) {
      if op.kind == WRITE { WriteUploads(s, rank, op); } else { CreateStepKeepsInv(s, rank, op); }
      assert op.kind == WRITE ==> HasOp(s, WRITE, x);
      assert x !in behind;
    }
  }

  lemma {:induction false} PassTracks(s: State, rank: map<Id, nat>, todo: seq<Op>, behind: set<Id>)
    requires Inv(s, rank) && Queued(s, todo) && Clean(s) && forall y :: Tracks(s, behind, y)
    ensures forall y :: Tracks(Pass(s, todo), behind, y)
    decreases |todo|
  {
    if todo != [] {
      var op := todo[0];
      FirstIsInTurn(s, todo);
      CleanWork(s, rank, op, behind);
      ExecKeepsInv(s, rank, op);
      var t := Exec(s, op).0;
      StillQueued(s, t, todo);
      forall y ensures Tracks(t, behind, y) {
        assert Tracks(s, behind, y);
        WorkTracks(s, rank, op, behind, y);
      }
      PassTracks(t, rank, todo[1..], behind);
    }
  }

  lemma {:induction false} DrainTracks(s: State, rank: map<Id, nat>, n: nat, behind: set<Id>)
    requires Inv(s, rank) && Clean(s) && forall y :: Tracks(s, behind, y)
    ensures forall y :: Tracks(Drain(s, n), behind, y)
    decreases n
  {
    if n > 0 {
      PassKeepsInv(s, rank, s.ops);
      PassTracks(s, rank, s.ops, behind);
      DrainTracks(Pass(s, s.ops), rank, n - 1, behind);
    }
  }

  /** With an empty queue and clean handles: a mirror, if and only if nothing is behind. */
  lemma MirroredIffNothingBehind(s: State, rank: map<Id, nat>, behind: set<Id>)
    requires Inv(s, rank) && s.ops == [] && Clean(s) && forall y :: Tracks(s, behind, y)
    ensures Mirrored(s) <==> behind == {}
  {
    EmptyQueueMirrors(s, rank);
    forall y ensures BytesOk(s, y) <==> y !in behind {
      assert Tracks(s, behind, y);
      if Missing(s, y) { NothingMissing(s, rank, y); }
    }
    if behind != {} {
      var y :| y in behind;
      assert !BytesOk(s, y);
    }
  }
}
