/** Unlinking a file whose write handle is still open: harmless for a file with a remote
    id, the end of the whole file-system session for one without. */
module MountSession {
  import opened Basics
  import opened MountModel
  import opened MountInvariant
  import opened MountQueue
  import opened MountEvents
  import opened MountExec
  import opened MountExec2
  import opened MountDrain
  import opened MountHistory

  /** The handle is open, and the row and the staged file behind it are gone. */
  predicate Orphaned(s: State, x: Id) { x in s.handles && x !in s.rows }

  /** A flush ends the session exactly when it meets a dirty handle of a purged file. */
  lemma FlushEndsSessionIff(s: State, rank: map<Id, nat>, x: Id)
    requires Inv(s, rank) && Allowed(s, EvFlush(x))
    ensures Flush(s, x).ended <==> Orphaned(s, x) && s.handles[x].dirty
  {
    assert HandleOk(s, x);
  }

  // ---- over a run ----

  /** The files unlinked, before they were ever synced, under an open handle. */
  function AfterUnlinks(s: State, gone: set<Id>, step: Step): set<Id> {
    if step.Fuse? && step.event.EvUnlink? && Unsynced(s, step.event.x) && step.event.x in s.handles then gone + {step.event.x}
    else if step.Fuse? && step.event.EvRelease? then gone - {step.event.x}
    else gone
  }

  predicate Unsynced(s: State, x: Id) { s.Live(x) && s.rows[x].remoteId.None? }

  /** The step flushes such a file, and its handle is dirty. */
  predicate FlushesGone(s: State, gone: set<Id>, step: Step) {
    step.Fuse? && step.event.EvFlush? && step.event.x in gone && step.event.x in s.handles && s.handles[step.event.x].dirty
  }

  predicate SomeFlushOfGone(s: State, steps: seq<Step>, gone: set<Id>)
    decreases |steps|
  {
    steps != [] &&
    (FlushesGone(s, gone, steps[0]) || SomeFlushOfGone(Next(s, steps[0]), steps[1..], AfterUnlinks(s, gone, steps[0])))
  }

  ghost predicate TracksGone(s: State, gone: set<Id>) { forall x :: x in gone <==> Orphaned(s, x) }

  lemma EventTracksGone(s: State, rank: map<Id, nat>, e: Event, gone: set<Id>)
    requires Inv(s, rank) && Possible(s, Fuse(e)) && TracksGone(s, gone)
    ensures TracksGone(Next(s, Fuse(e)), AfterUnlinks(s, gone, Fuse(e)))
  {
    assert RowOk(s, rank, s.nextId) && HandleOk(s, s.nextId);
    if e.EvOpen? || e.EvWrite? || e.EvFlush? || e.EvRelease? || e.EvUnlink? || e.EvRmdir? || e.EvRename? {
      assert HandleOk(s, e.x) && RowOk(s, rank, e.x);
    }
  }

  lemma WorkTracksGone(s: State, rank: map<Id, nat>, op: Op, gone: set<Id>)
    requires Inv(s, rank) && Possible(s, Work(op)) && TracksGone(s, gone)
    ensures TracksGone(Exec(s, op).0, gone) && Exec(s, op).0.ended == s.ended
  {
    ExecKeepsInv(s, rank, op);
    assert OpOk(s, op);
  }

  lemma {:induction false} EndedStays(s: State, steps: seq<Step>)
    requires s.ended && Feasible(s, steps)
    ensures Run(s, steps).ended
    decreases |steps|
  {
    if steps != [] {
      assert steps[0].Work?;
      EndedStays(Next(s, steps[0]), steps[1..]);
    }
  }

  lemma {:induction false} RunEndsIff(s: State, rank: map<Id, nat>, steps: seq<Step>, gone: set<Id>)
    requires Inv(s, rank) && Feasible(s, steps) && TracksGone(s, gone) && !s.ended
    ensures Run(s, steps).ended <==> SomeFlushOfGone(s, steps, gone)
    decreases |steps|
  {
    if steps != [] {
      var step := steps[0];
      var r := StepKeepsInv(s, rank, step);
      match step {
        case Fuse(e) =>
          EventTracksGone(s, rank, e, gone);
          if e.EvFlush? { FlushEndsSessionIff(s, rank, e.x); }
        case Work(op) => WorkTracksGone(s, rank, op, gone);
      }
      if Next(s, step).ended {
        EndedStays(Next(s, step), steps[1..]);
      } else {
        RunEndsIff(Next(s, step), r, steps[1..], AfterUnlinks(s, gone, step));
      }
    }
  }

  /** Over any run from a synced state: the session has ended if and only if some file was
      unlinked before its first sync with its write handle open, and that handle was
      flushed while dirty. */
  lemma SessionEndsIff(s: State, rank: map<Id, nat>, steps: seq<Step>)
    requires FullySynced(s, rank) && Feasible(s, steps) && !s.ended
    ensures Run(s, steps).ended <==> SomeFlushOfGone(s, steps, {})
  {
    RunEndsIff(s, rank, steps, {});
  }

  // ---- the smallest such run ----

  const F: Id := 1

  /** Only the root, synced. */
  function Start(): State {
    State(map[ROOT := Row(Some(0), 0, "", true, Some(0), false)], map[], map[], [], F, 0, map[0 := Node([], "", true, [], 0)], 1, false)
  }

  function Rank(): map<Id, nat> { map[ROOT := 0] }

  const CREATE_F: Op := Op(0, CREATE_FILE, F, None, None)

  /** A temporary file: created, unlinked, written to and closed. */
  const TEMPORARY: seq<Step> := [Fuse(EvCreate(ROOT, "f")), Fuse(EvUnlink(F)), Fuse(EvFlush(F))]

  function Opened(): State {
    Start().(rows := Start().rows[F := Row(None, ROOT, "f", false, None, false)], staged := map[F := []],
             handles := map[F := Handle(true, [])], ops := [CREATE_F], nextId := 2, nextNumber := 1)
  }

  function Unlinked(): State {
    Start().(handles := map[F := Handle(true, [])], nextId := 2, nextNumber := 1)
  }

  lemma StartsSynced()
    ensures FullySynced(Start(), Rank())
  {
    forall x ensures RowOk(Start(), Rank(), x) && NameOpen(Start(), x) {}
    forall r ensures NodeOk(Start(), r) {}
  }

  lemma Opens()
    ensures Possible(Start(), TEMPORARY[0]) && Next(Start(), TEMPORARY[0]) == Opened()
  {
  }

  lemma Unlinks()
    ensures Possible(Opened(), TEMPORARY[1]) && Next(Opened(), TEMPORARY[1]) == Unlinked()
  {
    assert WithoutItem([CREATE_F], F) == [] by { assert [CREATE_F][1..] == []; }
    assert Opened().rows - {F} == Start().rows;
  }

  /** `open`, `unlink`, `close` on the offline mount ends the session for every file. */
  lemma TemporaryFileEndsTheSession()
    ensures FullySynced(Start(), Rank()) && Feasible(Start(), TEMPORARY) && Run(Start(), TEMPORARY).ended
  {
    StartsSynced();
    Opens();
    Unlinks();
    Then(Unlinked(), TEMPORARY[2], []);
    Then(Opened(), TEMPORARY[1], [TEMPORARY[2]]);
    Then(Start(), TEMPORARY[0], [TEMPORARY[1], TEMPORARY[2]]);
    assert [TEMPORARY[2]] + [] == [TEMPORARY[2]] && [TEMPORARY[1]] + [TEMPORARY[2]] == [TEMPORARY[1], TEMPORARY[2]];
    assert [TEMPORARY[0]] + [TEMPORARY[1], TEMPORARY[2]] == TEMPORARY;
    assert Run(Next(Unlinked(), TEMPORARY[2]), []) == Next(Unlinked(), TEMPORARY[2]);
  }
}
