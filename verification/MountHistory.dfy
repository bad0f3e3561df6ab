/** Whole runs: any history of file-system events, with worker steps in between or
    after, and the guard that makes every delete safe. */
module MountHistory {
  import opened Basics
  import opened MountModel
  import opened MountInvariant
  import opened MountQueue
  import opened MountEvents
  import opened MountExec
  import opened MountExec2
  import opened MountMove
  import opened MountDrain
  import opened MountBytes

  // ---- any interleaving of events and worker steps ----

  datatype Step = Fuse(event: Event) | Work(op: Op)

  ghost predicate Possible(s: State, step: Step) {
    match step
    case Fuse(e) => Allowed(s, e)
    case Work(op) => op in s.ops && InTurn(s, op)
  }

  /** The step's result; a step that is not possible is skipped. */
  function Next(s: State, step: Step): State {
    match step
    case Fuse(e) =>
      if (e.EvOpen? && e.x !in s.staged)
         || ((e.EvWrite? || e.EvFlush? || e.EvRelease?) && e.x !in s.handles)
         || ((e.EvRename? || e.EvUnlink? || e.EvRmdir?) && !s.Live(e.x))
      then s
      else Apply(s, e)
    case Work(op) => Exec(s, op).0
  }

  ghost predicate Feasible(s: State, steps: seq<Step>)
    decreases |steps|
  {
    steps == [] || (Possible(s, steps[0]) && Feasible(Next(s, steps[0]), steps[1..]))
  }

  function Run(s: State, steps: seq<Step>): State
    decreases |steps|
  {
    if steps == [] then s else Run(Next(s, steps[0]), steps[1..])
  }

  lemma Then(s: State, step: Step, rest: seq<Step>)
    ensures Run(s, [step] + rest) == Run(Next(s, step), rest)
    ensures Feasible(s, [step] + rest) <==> Possible(s, step) && Feasible(Next(s, step), rest)
  {
    assert ([step] + rest)[1..] == rest;
  }

  /** The files a run leaves behind, starting from `behind`: their last upload sent
      bytes the handle had not flushed, and no flush since has found them changed. */
  function Behind(s: State, steps: seq<Step>, behind: set<Id>): set<Id>
    decreases |steps|
  {
    if steps == [] then behind
    else
      Behind(Next(s, steps[0]), steps[1..], AfterStep(s, behind, steps[0]))
  }

  function AfterStep(s: State, behind: set<Id>, step: Step): set<Id> {
    match step
    case Fuse(e) => AfterEvent(s, behind, e)
    case Work(op) => AfterWork(s, behind, op)
  }

  lemma StepKeepsInv(s: State, rank: map<Id, nat>, step: Step) returns (rank': map<Id, nat>)
    requires Inv(s, rank) && Possible(s, step)
    ensures Inv(Next(s, step), rank')
  {
    match step
    case Fuse(e) => rank' := EventKeepsInv(s, rank, e);
    case Work(op) =>
      ExecKeepsInv(s, rank, op);
      rank' := rank;
  }

  /** Whatever the user and the worker do, in any order, each difference in names,
      places and kinds between mount and drive stays accounted for by the queue, and
      the bytes do except for the files left behind. */
  lemma {:induction false} RunKeepsInv(s: State, rank: map<Id, nat>, steps: seq<Step>, behind: set<Id>)
    returns (rank': map<Id, nat>)
    requires Inv(s, rank) && Feasible(s, steps) && forall y :: Tracks(s, behind, y)
    ensures Inv(Run(s, steps), rank')
    ensures forall y :: Tracks(Run(s, steps), Behind(s, steps, behind), y)
    decreases |steps|
  {
    rank' := rank;
    if steps != [] {
      var step := steps[0];
      var r := StepKeepsInv(s, rank, step);
      var next := AfterStep(s, behind, step);
      forall y ensures Tracks(Next(s, step), next, y) {
        assert Tracks(s, behind, y);
        StepTracks(s, rank, step, behind, y);
      }
      rank' := RunKeepsInv(Next(s, step), r, steps[1..], next);
    }
  }

  lemma StepTracks(s: State, rank: map<Id, nat>, step: Step, behind: set<Id>, y: Id)
    requires Inv(s, rank) && Possible(s, step) && Tracks(s, behind, y)
    ensures Tracks(Next(s, step), AfterStep(s, behind, step), y)
  {
    match step
    case Fuse(e) =>
      var r := EventKeepsInv(s, rank, e);
      EventTracks(s, rank, e, behind, y);
    case Work(op) => WorkTracks(s, rank, op, behind, y);
  }

  /** Nothing queued, nothing open, all bytes accounted for. */
  ghost predicate FullySynced(s: State, rank: map<Id, nat>) {
    Inv(s, rank) && s.ops == [] && s.handles == map[] && forall x :: BytesOk(s, x)
  }

  /** A state is fully synced exactly when it satisfies the invariant and the drive
      mirrors it. */
  lemma FullySyncedMirrors(s: State, rank: map<Id, nat>)
    requires Inv(s, rank) && s.ops == [] && s.handles == map[]
    ensures FullySynced(s, rank) <==> Mirrored(s)
  {
    EmptyQueueMirrors(s, rank);
  }

  /** At any point of any run at which the queue is empty and no handle is dirty, the
      drive mirrors the mount if and only if no file was left behind. */
  lemma EmptyQueueMirrorsIff(s: State, rank: map<Id, nat>, steps: seq<Step>)
    requires FullySynced(s, rank) && Feasible(s, steps)
    ensures Run(s, steps).ops == [] && Clean(Run(s, steps)) ==> (Mirrored(Run(s, steps)) <==> Behind(s, steps, {}) == {})
  {
    var rank' := RunKeepsInv(s, rank, steps, {});
    if Run(s, steps).ops == [] && Clean(Run(s, steps)) {
      MirroredIffNothingBehind(Run(s, steps), rank', Behind(s, steps, {}));
    }
  }

  /** Every upload of the run finds the bytes flushed. */
  ghost predicate UploadsFlushed(s: State, steps: seq<Step>)
    decreases |steps|
  {
    steps == [] ||
    ((steps[0].Work? && Uploads(s, steps[0].op, steps[0].op.item) ==> !Unflushed(s, steps[0].op.item))
     && UploadsFlushed(Next(s, steps[0]), steps[1..]))
  }

  lemma {:induction false} NothingLeftBehind(s: State, steps: seq<Step>)
    requires UploadsFlushed(s, steps)
    ensures Behind(s, steps, {}) == {}
    decreases |steps|
  {
    if steps != [] {
      assert AfterStep(s, {}, steps[0]) == {};
      NothingLeftBehind(Next(s, steps[0]), steps[1..]);
    }
  }

  lemma {:induction false} OfflineIsFlushed(s: State, steps: seq<Step>)
    requires forall step :: step in steps ==> step.Fuse?
    ensures UploadsFlushed(s, steps)
    decreases |steps|
  {
    if steps != [] {
      assert steps[0] in steps;
      OfflineIsFlushed(Next(s, steps[0]), steps[1..]);
    }
  }

  /** From a fully synced state, after any run that leaves no handle dirty. The queue
      can be drained if and only if no live item is gone from the drive and each delete
      of the first pass finds none below it; |queue| passes are then enough. And
      whenever it is drained, the drive mirrors the mount if and only if no file was
      left behind. */
  lemma HistoryThenDrain(s: State, rank: map<Id, nat>, steps: seq<Step>)
    requires FullySynced(s, rank) && Feasible(s, steps) && Clean(Run(s, steps))
    ensures var t := Run(s, steps);
      && ((exists n: nat :: Drain(t, n).ops == []) <==> Whole(t) && PassSafe(t, t.ops))
      && (Whole(t) && PassSafe(t, t.ops) ==> Drain(t, |t.ops|).ops == [])
    ensures var t := Run(s, steps);
      forall n: nat :: Drain(t, n).ops == [] ==> (Mirrored(Drain(t, n)) <==> Behind(s, steps, {}) == {})
  {
    var rank' := RunKeepsInv(s, rank, steps, {});
    var t := Run(s, steps);
    DrainEmptiesIff(t, rank');
    if Whole(t) && PassSafe(t, t.ops) { DrainEmpties(t, rank', |t.ops|); }
    forall n: nat | Drain(t, n).ops == [] ensures Mirrored(Drain(t, n)) <==> Behind(s, steps, {}) == {} {
      DrainKeepsInv(t, rank', n);
      DrainTracks(t, rank', n, Behind(s, steps, {}));
      MirroredIffNothingBehind(Drain(t, n), rank', Behind(s, steps, {}));
    }
  }

  /** An offline history, then passes until the queue is empty: the drive mirrors the
      mount. */
  lemma OfflineHistoryMirrors(s: State, rank: map<Id, nat>, steps: seq<Step>, n: nat)
    requires FullySynced(s, rank) && Feasible(s, steps) && Clean(Run(s, steps))
    requires forall step :: step in steps ==> step.Fuse?
    ensures Drain(Run(s, steps), n).ops == [] ==> Mirrored(Drain(Run(s, steps), n))
  {
    OfflineIsFlushed(s, steps);
    NothingLeftBehind(s, steps);
    HistoryThenDrain(s, rank, steps);
  }

  // ---- the guard ----

  /** Every queued delete is safe where it stands. */
  ghost predicate Guarded(s: State) {
    forall o :: o in s.ops ==> SafeDelete(s, o)
  }

  /** What `rmdir` could check: no live item is still below the folder on the drive. */
  ghost predicate RmdirGuard(s: State, e: Event) {
    e.EvRmdir? && s.Synced(e.x) ==>
      forall y :: s.Synced(y) && s.Rid(y) in s.nodes ==> s.Rid(e.x) !in s.nodes[s.Rid(y)].ancestors
  }

  /** A new queued delete is safe; the others see the same live items. */
  lemma GuardedAfterEvent(s: State, rank: map<Id, nat>, e: Event)
    requires Inv(s, rank) && Allowed(s, e) && Guarded(s) && RmdirGuard(s, e)
    ensures Guarded(Next(s, Fuse(e)))
  {
    var t := Next(s, Fuse(e));
    LiveItemsShrink(s, rank, e);
    forall o | o in t.ops ensures SafeDelete(t, o) {
      if o in s.ops {
        assert SafeDelete(s, o);
      } else if o.kind == DELETE {
        EventOps(s, rank, e, o);
        NewDeleteIsSafe(s, rank, e, o);
      }
    }
  }

  /** An event changes nothing on the drive and makes no item of a row live. */
  lemma LiveItemsShrink(s: State, rank: map<Id, nat>, e: Event)
    requires Inv(s, rank) && Allowed(s, e)
    ensures var t := Next(s, Fuse(e));
      t.nodes == s.nodes && forall y :: t.Synced(y) ==> s.Synced(y) && s.Rid(y) == t.Rid(y)
  {
    match e
    case EvCreate(parent, name) => NewItemIsUnsynced(s, rank, parent, name, false);
    case EvMkdir(parent, name) => NewItemIsUnsynced(s, rank, parent, name, true);
    case EvRename(x, parent, name) => RenameKeepsIds(s, x, parent, name);
    case EvUnlink(x) => DeleteKeepsIds(s, x);
    case EvRmdir(x) => DeleteKeepsIds(s, x);
    case _ =>
  }

  lemma RenameKeepsIds(s: State, x: Id, parent: Id, name: string)
    requires s.Live(x)
    ensures var t := Rename(s, x, parent, name);
      t.nodes == s.nodes && forall y :: t.Synced(y) ==> s.Synced(y) && s.Rid(y) == t.Rid(y)
  {
  }

  lemma DeleteKeepsIds(s: State, x: Id)
    requires s.Live(x)
    ensures var t := DeleteOffline(s, x);
      t.nodes == s.nodes && forall y :: t.Synced(y) ==> s.Synced(y) && s.Rid(y) == t.Rid(y)
  {
  }

  lemma NewItemIsUnsynced(s: State, rank: map<Id, nat>, parent: Id, name: string, isFolder: bool)
    requires Inv(s, rank)
    ensures var t := CreateOf(s, parent, name, isFolder);
      t.nodes == s.nodes && forall y :: t.Synced(y) ==> s.Synced(y) && s.Rid(y) == t.Rid(y)
  {
    assert RowOk(s, rank, s.nextId);
  }

  /** An event queues a delete only of a row it tombstones. */
  lemma EventOps(s: State, rank: map<Id, nat>, e: Event, o: Op)
    requires Inv(s, rank) && Allowed(s, e) && o in Next(s, Fuse(e)).ops && o.kind == DELETE
    ensures o in s.ops || ((e.EvUnlink? || e.EvRmdir?) && s.Synced(e.x) && o.target == Some(s.Rid(e.x)))
  {
  }

  lemma NewDeleteIsSafe(s: State, rank: map<Id, nat>, e: Event, o: Op)
    requires Inv(s, rank) && Allowed(s, e) && RmdirGuard(s, e)
    requires (e.EvUnlink? || e.EvRmdir?) && s.Synced(e.x) && o.target == Some(s.Rid(e.x)) && o.kind == DELETE
    requires var t := Next(s, Fuse(e)); t.nodes == s.nodes && forall y :: t.Synced(y) ==> s.Synced(y) && s.Rid(y) == t.Rid(y)
    ensures SafeDelete(Next(s, Fuse(e)), o)
  {
    var t := Next(s, Fuse(e));
    assert RowOk(s, rank, e.x);
    NodesFormATree(s);
    forall y | t.Synced(y) && t.Rid(y) in t.nodes ensures o.target.value !in t.nodes[t.Rid(y)].ancestors {
      if e.EvUnlink? && s.Rid(e.x) in s.nodes[s.Rid(y)].ancestors {
        AncestorIsFolder(s.nodes, s.Rid(y), s.Rid(e.x));
      }
    }
  }

  lemma {:induction false} AncestorIsFolder(nodes: map<RemoteId, Node>, q: RemoteId, a: RemoteId)
    requires Tree(nodes) && q in nodes && a in nodes[q].ancestors
    ensures a in nodes && nodes[a].isFolder
    decreases |nodes[q].ancestors|
  {
    assert InTree(nodes, q);
    if a != nodes[q].Parent() {
      AncestorIsFolder(nodes, nodes[q].Parent(), a);
    }
  }

  /** The target of a queued delete belongs to a tombstone, so it is no live row's item. */
  lemma TargetIsNotLive(s: State, o: Op, p: Id)
    requires OpOk(s, o) && o.kind == DELETE && s.Synced(p) && RemoteIdsUnique(s)
    ensures o.target != Some(s.Rid(p))
  {
  }

  /** A worker step moves live items only below live folders. */
  lemma GuardedAfterWork(s: State, rank: map<Id, nat>, op: Op)
    requires Inv(s, rank) && Guarded(s) && op in s.ops && InTurn(s, op)
    ensures Guarded(Exec(s, op).0)
  {
    assert SafeDelete(s, op);
    ExecKeepsInv(s, rank, op);
    var t := Exec(s, op).0;
    if t != s {
      forall o | o in t.ops && o.kind == DELETE ensures SafeDelete(t, o) {
        assert o in s.ops && SafeDelete(s, o) && OpOk(s, o);
        forall y | t.Synced(y) && t.Rid(y) in t.nodes ensures o.target.value !in t.nodes[t.Rid(y)].ancestors {
          StaysAbove(s, rank, op, o, y);
        }
      }
    }
  }

  lemma StaysAbove(s: State, rank: map<Id, nat>, op: Op, o: Op, y: Id)
    requires Inv(s, rank) && op in s.ops && SafeDelete(s, op) && InTurn(s, op)
    requires o in s.ops && o.kind == DELETE && SafeDelete(s, o)
    requires var t := Exec(s, op).0; t != s && t.Synced(y) && t.Rid(y) in t.nodes
    ensures o.target.Some?
    ensures var t := Exec(s, op).0; o.target.value !in t.nodes[t.Rid(y)].ancestors
  {
    assert OpOk(s, o) && OpOk(s, op) && RowOk(s, rank, op.item);
    if op.kind == DELETE {
      NodesFormATree(s);
      DeleteRemoves(s, op);
      StaysAboveDelete(s, op, o, y);
    } else if op.kind == WRITE {
      WriteUploads(s, rank, op);
      if s.Live(op.item) { StaysAboveWrite(s, op, o, y); } else { assert s.Synced(y); }
    } else if op.kind == RENAME {
      RenameMoves(s, rank, op);
      assert RowOk(s, rank, s.rows[op.item].parent);
      StaysAboveRename(s, op, o, y);
    } else {
      CreateStepKeepsInv(s, rank, op);
      ServerIdsBelowClock(s, rank);
      assert RowOk(s, rank, y);
      StaysAboveCreate(s, op, o, y);
    }
  }

  lemma StaysAboveDelete(s: State, op: Op, o: Op, y: Id)
    requires op.target.Some? && o.target.Some? && o.kind == DELETE && SafeDelete(s, o)
    requires var t := Deleted(s, op); t.Synced(y) && t.Rid(y) in t.nodes
    ensures var t := Deleted(s, op); o.target.value !in t.nodes[t.Rid(y)].ancestors
  {
    assert s.Synced(y);
  }

  lemma StaysAboveWrite(s: State, op: Op, o: Op, y: Id)
    requires WriteReady(s, op) && o.target.Some? && o.kind == DELETE && SafeDelete(s, o)
    requires var t := Written(s, op); t.Synced(y) && t.Rid(y) in t.nodes
    ensures var t := Written(s, op); o.target.value !in t.nodes[t.Rid(y)].ancestors
  {
    assert s.Synced(y);
  }

  lemma StaysAboveRename(s: State, op: Op, o: Op, y: Id)
    requires RenameReady(s, op) && OpOk(s, o) && o.kind == DELETE && SafeDelete(s, o) && RemoteIdsUnique(s)
    requires var t := Renamed(s, op); t.Synced(y) && t.Rid(y) in t.nodes
    ensures var t := Renamed(s, op); o.target.value !in t.nodes[t.Rid(y)].ancestors
  {
    var p := s.rows[op.item].parent;
    assert s.Synced(y) && s.Synced(p);
    TargetIsNotLive(s, o, p);
    MovedAncestors(s.nodes, s.Rid(op.item), s.Rid(p), s.rows[op.item].name, s.clock, s.Rid(y), o.target.value);
  }

  lemma StaysAboveCreate(s: State, op: Op, o: Op, y: Id)
    requires CreateReady(s, op) && OpOk(s, o) && o.kind == DELETE && SafeDelete(s, o) && RemoteIdsUnique(s)
    requires var t := Created(s, op); t.Synced(y) && t.Rid(y) in t.nodes
    requires y != op.item && s.Synced(y) ==> s.Rid(y) < s.clock
    ensures var t := Created(s, op); o.target.value !in t.nodes[t.Rid(y)].ancestors
  {
    var p := s.rows[op.item].parent;
    TargetIsNotLive(s, o, p);
    if y != op.item { assert s.Synced(y); }
  }

  lemma MovedAncestors(
    nodes: map<RemoteId, Node>, r: RemoteId, p: RemoteId, name: string, etag: Etag, q: RemoteId, a: RemoteId)
    requires MoveReady(nodes, r, p) && q in nodes && a != p && a !in nodes[p].ancestors && a !in nodes[q].ancestors
    ensures q in Moved(nodes, r, p, name, etag) && a !in Moved(nodes, r, p, name, etag)[q].ancestors
  {
  }

  lemma {:induction false} GuardedPassIsSafe(s: State, rank: map<Id, nat>, todo: seq<Op>)
    requires Inv(s, rank) && Guarded(s) && Queued(s, todo)
    ensures PassSafe(s, todo)
    decreases |todo|
  {
    if todo != [] {
      var op := todo[0];
      FirstIsInTurn(s, todo);
      assert op in s.ops && SafeDelete(s, op);
      ExecKeepsInv(s, rank, op);
      GuardedAfterWork(s, rank, op);
      StillQueued(s, Exec(s, op).0, todo);
      GuardedPassIsSafe(Exec(s, op).0, rank, todo[1..]);
    }
  }

  /** A delete that is unsafe where it stands stays so until its turn, unless a rename
      goes first. */
  lemma {:induction false} UnsafeIsFound(s: State, rank: map<Id, nat>, todo: seq<Op>, o: Op)
    requires Inv(s, rank) && Queued(s, todo) && o in todo && !SafeDelete(s, o)
    requires forall op :: op in todo ==> op.kind != RENAME
    ensures !PassSafe(s, todo)
    decreases |todo|
  {
    var op := todo[0];
    FirstIsInTurn(s, todo);
    assert op in todo;
    if SafeDelete(s, op) {
      ExecKeepsInv(s, rank, op);
      StillUnsafe(s, rank, op, o);
      StillQueued(s, Exec(s, op).0, todo);
      assert forall q :: q in todo[1..] ==> q in todo;
      UnsafeIsFound(Exec(s, op).0, rank, todo[1..], o);
    }
  }

  lemma StillUnsafe(s: State, rank: map<Id, nat>, op: Op, o: Op)
    requires Inv(s, rank) && op in s.ops && InTurn(s, op) && op.kind != RENAME && SafeDelete(s, op) && !SafeDelete(s, o)
    ensures !SafeDelete(Exec(s, op).0, o)
  {
    var y :| s.Synced(y) && s.Rid(y) in s.nodes && o.target.value in s.nodes[s.Rid(y)].ancestors;
    if op.kind == DELETE {
      DeleteLeavesBelow(s, rank, op, y, o.target.value);
    } else if op.kind == WRITE {
      WriteLeavesBelow(s, rank, op, y, o.target.value);
    } else {
      CreateLeavesBelow(s, rank, op, y, o.target.value);
    }
    assert LiveBelow(Exec(s, op).0, y, o.target.value);
  }

  /** A live item's drive item lies below `a`. */
  predicate LiveBelow(s: State, y: Id, a: RemoteId) {
    s.Synced(y) && s.Rid(y) in s.nodes && a in s.nodes[s.Rid(y)].ancestors
  }

  lemma DeleteLeavesBelow(s: State, rank: map<Id, nat>, op: Op, y: Id, a: RemoteId)
    requires Inv(s, rank) && op in s.ops && op.kind == DELETE && SafeDelete(s, op) && LiveBelow(s, y, a)
    ensures LiveBelow(Exec(s, op).0, y, a)
  {
    assert OpOk(s, op) && RowOk(s, rank, y);
    NodesFormATree(s);
    DeleteRemoves(s, op);
  }

  lemma WriteLeavesBelow(s: State, rank: map<Id, nat>, op: Op, y: Id, a: RemoteId)
    requires Inv(s, rank) && op in s.ops && op.kind == WRITE && LiveBelow(s, y, a)
    ensures LiveBelow(Exec(s, op).0, y, a)
  {
    WriteUploads(s, rank, op);
  }

  lemma CreateLeavesBelow(s: State, rank: map<Id, nat>, op: Op, y: Id, a: RemoteId)
    requires Inv(s, rank) && op in s.ops && op.kind in {CREATE_FILE, CREATE_DIR} && InTurn(s, op) && LiveBelow(s, y, a)
    ensures LiveBelow(Exec(s, op).0, y, a)
  {
    ServerIdsBelowClock(s, rank);
    CreateStepKeepsInv(s, rank, op);
    if Exec(s, op).1 == Finished { CreatedLeavesBelow(s, op, y, a); }
  }

  lemma CreatedLeavesBelow(s: State, op: Op, y: Id, a: RemoteId)
    requires CreateReady(s, op) && s.clock !in s.nodes && LiveBelow(s, y, a)
    ensures LiveBelow(Created(s, op), y, a)
  {
  }

  /** With no rename queued the condition can be read off the queue as it stands. */
  lemma PassSafeIffGuarded(s: State, rank: map<Id, nat>)
    requires Inv(s, rank) && forall op :: op in s.ops ==> op.kind != RENAME
    ensures PassSafe(s, s.ops) <==> Guarded(s)
  {
    if Guarded(s) {
      GuardedPassIsSafe(s, rank, s.ops);
    } else {
      var o :| o in s.ops && !SafeDelete(s, o);
      UnsafeIsFound(s, rank, s.ops, o);
    }
  }

  /** The run removes a folder only once nothing live is left in it on the drive. */
  ghost predicate GuardedRun(s: State, steps: seq<Step>)
    decreases |steps|
  {
    steps == [] ||
    ((steps[0].Fuse? ==> RmdirGuard(s, steps[0].event)) && GuardedRun(Next(s, steps[0]), steps[1..]))
  }

  lemma EventKeepsWhole(s: State, rank: map<Id, nat>, e: Event)
    requires Inv(s, rank) && Allowed(s, e) && Whole(s)
    ensures Whole(Next(s, Fuse(e)))
  {
    LiveItemsShrink(s, rank, e);
    forall x ensures !Missing(Next(s, Fuse(e)), x) {
      assert !Missing(s, x);
    }
  }

  lemma {:induction false} GuardedRunKeeps(s: State, rank: map<Id, nat>, steps: seq<Step>)
    requires Inv(s, rank) && Guarded(s) && Whole(s) && Feasible(s, steps) && GuardedRun(s, steps)
    ensures Guarded(Run(s, steps)) && Whole(Run(s, steps))
    decreases |steps|
  {
    if steps != [] {
      var r := StepKeepsInv(s, rank, steps[0]);
      match steps[0] {
        case Fuse(e) =>
          GuardedAfterEvent(s, rank, e);
          EventKeepsWhole(s, rank, e);
        case Work(op) =>
          assert SafeDelete(s, op);
          GuardedAfterWork(s, rank, op);
          GoesMissingIff(s, rank, op);
      }
      GuardedRunKeeps(Next(s, steps[0]), r, steps[1..]);
    }
  }

  /** If folders are removed only once nothing live is left in them on the drive, any
      run from a fully synced state drains within |queue| passes; and to a mirror, if no
      upload in between sent bytes that were not flushed. */
  lemma GuardedHistoryDrains(s: State, rank: map<Id, nat>, steps: seq<Step>)
    requires FullySynced(s, rank) && Feasible(s, steps) && GuardedRun(s, steps) && Clean(Run(s, steps))
    ensures var t := Run(s, steps);
      && Drain(t, |t.ops|).ops == []
      && (UploadsFlushed(s, steps) ==> Mirrored(Drain(t, |t.ops|)))
  {
    forall x ensures !Missing(s, x) {
      if s.Live(x) { NothingMissing(s, rank, x); }
    }
    GuardedRunKeeps(s, rank, steps);
    var rank' := RunKeepsInv(s, rank, steps, {});
    var t := Run(s, steps);
    GuardedPassIsSafe(t, rank', t.ops);
    HistoryThenDrain(s, rank, steps);
    if UploadsFlushed(s, steps) { NothingLeftBehind(s, steps); }
  }
}
