/** An unlink against the worker's micro-steps on one item: look up, mark in progress,
    call, confirm, drop. */
module MountRace {
  import opened Basics

  type RemoteId = nat
  type Etag = nat

  datatype Status = Pending | InProgress

  datatype Kind = CREATE | WRITE | RENAME

  /** The item's row, deleted or not; `None` once it is purged. */
  datatype Row = Row(remoteId: Option<RemoteId>, etag: Option<Etag>, deleted: bool)

  datatype DeleteOp = DeleteOp(target: Option<RemoteId>, etag: Option<Etag>)

  /** Where the single worker thread stands. */
  datatype Pc =
    | Idle
    | LookedUp                                  // row read, op not yet marked
    | Claimed                                   // op marked, call not yet made
    | Answered(id: RemoteId, etag: Etag)        // call took effect
    | Confirmed                                 // row updated, op not yet dropped
    | Deleting(target: RemoteId, ifMatch: Option<Etag>)
    | DeleteAnswered

  datatype State = State(
    row: Option<Row>,
    kind: Kind,
    op: Option<Status>,               // the queued create, write or rename
    deleteOp: Option<DeleteOp>,
    remote: map<RemoteId, Etag>,      // this item on the drive
    clock: nat,
    pc: Pc)
  {
    predicate Visible() { row.Some? && !row.value.deleted }
  }

  datatype Choice =
    | LookUp | Mark | CallSucceeds | CallFails | Confirm | DropOp
    | StartDelete | DeleteSucceeds | DeleteFails | DropDelete
    | Unlink

  /** One micro-step; a choice that is not possible changes nothing. */
  function Step(s: State, c: Choice): State {
    match c
    case LookUp =>
      if s.pc != Idle || s.op != Some(Pending) then s
      else if !s.Visible() then s.(op := None)          // gone locally: the op is dropped
      else s.(pc := LookedUp)
    case Mark =>
      if s.pc != LookedUp then s
      else s.(pc := Claimed, op := if s.op.Some? then Some(InProgress) else None)
    case CallSucceeds =>
      if s.pc != Claimed then s
      else if s.kind == CREATE then
        s.(remote := s.remote[s.clock := s.clock], clock := s.clock + 1, pc := Answered(s.clock, s.clock))
      else if s.row.Some? && s.row.value.remoteId.Some? && s.row.value.remoteId.value in s.remote then
        var r := s.row.value.remoteId.value;
        s.(remote := s.remote[r := s.clock], clock := s.clock + 1, pc := Answered(r, s.clock))
      else s
    case CallFails =>
      // `mark_op_error` puts the op back to pending
      if s.pc != Claimed then s
      else s.(pc := Idle, op := if s.op.Some? then Some(Pending) else None)
    case Confirm =>
      if !s.pc.Answered? then s
      else if s.row.None? then s.(pc := Confirmed)
      else
        var row := s.row.value.(remoteId := Some(s.pc.id), etag := Some(s.pc.etag));
        // a rename's reply goes through `upsert_item`, which clears `deleted`
        s.(row := Some(if s.kind == RENAME then row.(deleted := false) else row), pc := Confirmed)
    case DropOp =>
      if s.pc != Confirmed then s else s.(op := None, pc := Idle)
    case StartDelete =>
      if s.pc != Idle || s.deleteOp.None? then s
      else
        var d := s.deleteOp.value;
        if d.target.Some? then s.(pc := Deleting(d.target.value, d.etag))
        else if s.op == Some(InProgress) then s          // the create is still in flight
        else if s.row.None? || s.row.value.remoteId.None? then s.(deleteOp := None)
        else s.(pc := Deleting(s.row.value.remoteId.value, s.row.value.etag))
    case DeleteSucceeds =>
      // a 404 and a 412 are swallowed
      if !s.pc.Deleting? then s
      else
        var hit := s.pc.target in s.remote && (s.pc.ifMatch.None? || s.pc.ifMatch.value == s.remote[s.pc.target]);
        s.(remote := if hit then s.remote - {s.pc.target} else s.remote, pc := DeleteAnswered)
    case DeleteFails => if !s.pc.Deleting? then s else s.(pc := Idle)
    case DropDelete => if s.pc != DeleteAnswered then s else s.(deleteOp := None, pc := Idle)
    case Unlink =>
      if !s.Visible() then s
      else
        var op := if s.op == Some(Pending) then None else s.op;
        if s.row.value.remoteId.None? && op != Some(InProgress) then s.(row := None, op := op)
        else
          s.(row := Some(s.row.value.(deleted := true)), op := op,
             deleteOp := Some(DeleteOp(s.row.value.remoteId, s.row.value.etag)))
  }

  function Run(s: State, choices: seq<Choice>): State
    decreases |choices|
  {
    if choices == [] then s else Run(Step(s, choices[0]), choices[1..])
  }

  /** The lookup and the mark of a claim are one step for the handlers. */
  predicate ClaimsAtomic(s: State, choices: seq<Choice>)
    decreases |choices|
  {
    choices == [] ||
    (!(s.pc == LookedUp && choices[0] == Unlink) && ClaimsAtomic(Step(s, choices[0]), choices[1..]))
  }

  /** A file just created through the mount. */
  function NewItem(clock: nat): State {
    State(Some(Row(None, None, false)), CREATE, Some(Pending), None, map[], clock, Idle)
  }

  /** A synced file with an edit or a rename queued. */
  function SyncedItem(kind: Kind): State {
    State(Some(Row(Some(0), Some(0), false)), kind, Some(Pending), None, map[0 := 0], 1, Idle)
  }

  // ---- a create in flight ----

  predicate CreateRunning(s: State) { s.pc in {Claimed, Confirmed} || s.pc.Answered? }

  /** The row knows the item on the drive, if there is one. */
  predicate RowKnows(s: State) {
    forall r :: r in s.remote ==>
      s.row.Some? && s.row.value.remoteId == Some(r) && s.row.value.etag == Some(s.remote[r])
  }

  predicate RaceInv(s: State) {
    && s.kind == CREATE
    && (s.op == Some(InProgress) <==> CreateRunning(s))
    && (s.row.None? ==> s.remote == map[] && s.op.None? && s.deleteOp.None? && s.pc == Idle)
    && (s.Visible() ==> s.deleteOp.None? && !s.pc.Deleting? && s.pc != DeleteAnswered)
    && (s.pc == LookedUp ==> s.op == Some(Pending) && s.Visible())
    && (s.op == Some(Pending) || s.pc in {LookedUp, Claimed} ==> s.remote == map[] && (s.row.Some? ==> s.row.value.remoteId.None?))
    && (s.pc.Answered? ==> s.row.Some? && s.row.value.remoteId.None? && s.remote == map[s.pc.id := s.pc.etag])
    && (!s.pc.Answered? ==> RowKnows(s))
    && (s.pc == Confirmed ==> s.row.Some? && s.row.value.remoteId.Some?)
    && (s.op.None? && s.Visible() ==> s.row.value.remoteId.Some?)
    && (s.row.Some? && s.row.value.deleted ==> TombstoneOk(s))
    && (s.pc.Deleting? || s.pc == DeleteAnswered ==> s.row.Some? && s.row.value.deleted && s.deleteOp.Some?)
    && (s.pc.Deleting? ==> s.row.value.remoteId == Some(s.pc.target) && s.row.value.etag == s.pc.ifMatch && s.op.None?)
    && (s.pc == DeleteAnswered ==> s.remote == map[])
  }

  /** A tombstone has its delete queued, or nothing is left to delete. */
  predicate TombstoneOk(s: State)
    requires s.row.Some?
  {
    && (s.deleteOp.None? ==> s.remote == map[] && !CreateRunning(s))
    && (s.deleteOp.Some? && s.deleteOp.value.target.Some? ==>
          s.row.value.remoteId == s.deleteOp.value.target && s.row.value.etag == s.deleteOp.value.etag)
    && (s.deleteOp.Some? && s.deleteOp.value.target.Some? ==> s.op != Some(Pending))
  }

  lemma StepKeepsRaceInv(s: State, c: Choice)
    requires RaceInv(s) && !(s.pc == LookedUp && c == Unlink)
    ensures RaceInv(Step(s, c))
    ensures !s.Visible() ==> !Step(s, c).Visible()
  {
    assert s.op.Some? ==> s.op.value.Pending? || s.op.value.InProgress?;
  }

  lemma {:induction false} RunKeepsRaceInv(s: State, choices: seq<Choice>)
    requires RaceInv(s) && ClaimsAtomic(s, choices)
    ensures RaceInv(Run(s, choices))
    ensures !s.Visible() ==> !Run(s, choices).Visible()
    decreases |choices|
  {
    if choices != [] {
      StepKeepsRaceInv(s, choices[0]);
      RunKeepsRaceInv(Step(s, choices[0]), choices[1..]);
    }
  }

  /** However the worker and the unlink interleave: from the unlink on the new file is
      never visible again, and once its ops are gone the drive holds no such item. */
  lemma CreateAgainstUnlink(clock: nat, before: seq<Choice>, after: seq<Choice>)
    requires ClaimsAtomic(NewItem(clock), before)
    requires Run(NewItem(clock), before).pc != LookedUp
    requires ClaimsAtomic(Step(Run(NewItem(clock), before), Unlink), after)
    ensures var end := Run(Step(Run(NewItem(clock), before), Unlink), after);
      && !end.Visible()
      && (end.op.None? && end.deleteOp.None? ==> end.remote == map[])
  {
    var s := NewItem(clock);
    RunKeepsRaceInv(s, before);
    StepKeepsRaceInv(Run(s, before), Unlink);
    RunKeepsRaceInv(Step(Run(s, before), Unlink), after);
  }

  /** Until the unlink the item is never lost: it is queued, or on the drive. */
  lemma CreateArrives(clock: nat, choices: seq<Choice>)
    requires ClaimsAtomic(NewItem(clock), choices)
    ensures var end := Run(NewItem(clock), choices);
      end.Visible() && end.op.None? ==> end.row.value.remoteId.Some?
  {
    RunKeepsRaceInv(NewItem(clock), choices);
  }

  // ---- where the same handlers do not protect the delete ----

  lemma RunTwo(s: State, a: Choice, b: Choice, rest: seq<Choice>)
    ensures Run(s, [a, b] + rest) == Run(Step(Step(s, a), b), rest)
  {
    assert ([a, b] + rest)[1..] == [b] + rest && ([b] + rest)[1..] == rest;
  }

  /** Unlink between lookup and mark: the create goes out for a purged row. */
  lemma UnlinkInsideTheClaimLeavesAnOrphan(clock: nat)
    ensures var end := Run(NewItem(clock), [LookUp, Unlink, Mark, CallSucceeds, Confirm, DropOp]);
      end.row == None && end.op == None && end.deleteOp == None && end.remote == map[clock := clock]
  {
    var s := NewItem(clock);
    RunTwo(s, LookUp, Unlink, [Mark, CallSucceeds, Confirm, DropOp]);
    assert [LookUp, Unlink, Mark, CallSucceeds, Confirm, DropOp] == [LookUp, Unlink] + [Mark, CallSucceeds, Confirm, DropOp];
    var t := Step(Step(s, LookUp), Unlink);
    RunTwo(t, Mark, CallSucceeds, [Confirm, DropOp]);
    assert [Mark, CallSucceeds, Confirm, DropOp] == [Mark, CallSucceeds] + [Confirm, DropOp];
    var u := Step(Step(t, Mark), CallSucceeds);
    RunTwo(u, Confirm, DropOp, []);
    assert [Confirm, DropOp] == [Confirm, DropOp] + [];
  }

  /** The row is purged and nothing is queued; a call may still be open. */
  predicate Purged(s: State, start: nat) {
    && s.kind == CREATE && s.row.None? && s.op.None? && s.deleteOp.None? && start <= s.clock
    && (s.pc in {Idle, LookedUp, Claimed, Confirmed} || s.pc.Answered?)
    && (s.pc in {LookedUp, Claimed} ==> s.clock == start)
    && (s.remote == map[] <==> s.clock == start)
  }

  lemma PurgedStep(s: State, c: Choice, start: nat)
    requires Purged(s, start)
    ensures Purged(Step(s, c), start)
  {
    if s.pc == Claimed && c == CallSucceeds {
      assert s.clock in Step(s, c).remote;
    }
  }

  lemma {:induction false} PurgedRun(s: State, choices: seq<Choice>, start: nat)
    requires Purged(s, start)
    ensures Purged(Run(s, choices), start)
    decreases |choices|
  {
    if choices != [] {
      PurgedStep(s, choices[0], start);
      PurgedRun(Step(s, choices[0]), choices[1..], start);
    }
  }

  lemma {:induction false} WithoutUnlinkIsAtomic(s: State, choices: seq<Choice>)
    requires Unlink !in choices
    ensures ClaimsAtomic(s, choices)
    decreases |choices|
  {
    if choices != [] {
      WithoutUnlinkIsAtomic(Step(s, choices[0]), choices[1..]);
    }
  }

  /** A new file, one unlink, any schedule around it that leaves no op behind: the drive
      keeps an orphan if and only if the unlink fell between the claim's lookup and its
      mark, and the call took effect afterwards. */
  lemma UnlinkOfNewIff(clock: nat, before: seq<Choice>, after: seq<Choice>)
    requires Unlink !in before && Unlink !in after
    ensures var u := Run(NewItem(clock), before);
      var end := Run(Step(u, Unlink), after);
      end.op.None? && end.deleteOp.None? ==> (end.remote != map[] <==> u.pc == LookedUp && end.clock > u.clock)
  {
    var s := NewItem(clock);
    WithoutUnlinkIsAtomic(s, before);
    RunKeepsRaceInv(s, before);
    var u := Run(s, before);
    VisibleUntilUnlink(s, before);
    if u.pc == LookedUp {
      PurgedRun(Step(u, Unlink), after, u.clock);
    } else {
      StepKeepsRaceInv(u, Unlink);
      WithoutUnlinkIsAtomic(Step(u, Unlink), after);
      RunKeepsRaceInv(Step(u, Unlink), after);
    }
  }

  /** An unlink purges a new file's row, and with it the staged bytes, if and only if its
      create has not been claimed. */
  lemma PurgedIffUnclaimed(clock: nat, before: seq<Choice>)
    requires Unlink !in before
    ensures var u := Run(NewItem(clock), before); Step(u, Unlink).row.None? <==> u.op == Some(Pending)
  {
    WithoutUnlinkIsAtomic(NewItem(clock), before);
    RunKeepsRaceInv(NewItem(clock), before);
    VisibleUntilUnlink(NewItem(clock), before);
    var u := Run(NewItem(clock), before);
    assert u.op.Some? ==> u.op.value.Pending? || u.op.value.InProgress?;
  }

  lemma {:induction false} VisibleUntilUnlink(s: State, choices: seq<Choice>)
    requires s.Visible() && Unlink !in choices
    ensures Run(s, choices).Visible()
    decreases |choices|
  {
    if choices != [] {
      VisibleUntilUnlink(Step(s, choices[0]), choices[1..]);
    }
  }

  const IN_FLIGHT: seq<Choice> := [LookUp, Mark, Unlink, CallSucceeds]
  const SETTLES: seq<Choice> := [Confirm, DropOp, StartDelete, DeleteSucceeds]

  /** Unlink while a write is in flight: the delete's etag is stale, the 412 counts as
      done, and the file stays on the drive with nothing queued. */
  lemma UnlinkDuringWriteLeavesTheFile()
    ensures var end := Run(SyncedItem(WRITE), IN_FLIGHT + SETTLES + [DropDelete]);
      !end.Visible() && end.op == None && end.deleteOp == None && end.remote == map[0 := 1]
  {
    InFlight(SyncedItem(WRITE));
  }

  /** Unlink while a rename is in flight: the file stays on the drive, and the row is
      visible again. */
  lemma UnlinkDuringRenameResurrects()
    ensures var end := Run(SyncedItem(RENAME), IN_FLIGHT + SETTLES + [DropDelete]);
      end.Visible() && end.op == None && end.deleteOp == None && end.remote == map[0 := 1]
  {
    InFlight(SyncedItem(RENAME));
  }

  lemma InFlight(s: State)
    ensures Run(s, IN_FLIGHT + SETTLES + [DropDelete])
         == Step(Step(Step(Step(Step(Step(Step(Step(Step(s, LookUp), Mark), Unlink), CallSucceeds),
                 Confirm), DropOp), StartDelete), DeleteSucceeds), DropDelete)
  {
    assert IN_FLIGHT + SETTLES + [DropDelete] == [LookUp, Mark] + ([Unlink, CallSucceeds] + (SETTLES + [DropDelete]));
    RunTwo(s, LookUp, Mark, [Unlink, CallSucceeds] + (SETTLES + [DropDelete]));
    var t := Step(Step(s, LookUp), Mark);
    RunTwo(t, Unlink, CallSucceeds, SETTLES + [DropDelete]);
    var u := Step(Step(t, Unlink), CallSucceeds);
    assert SETTLES + [DropDelete] == [Confirm, DropOp] + [StartDelete, DeleteSucceeds, DropDelete];
    RunTwo(u, Confirm, DropOp, [StartDelete, DeleteSucceeds, DropDelete]);
    var v := Step(Step(u, Confirm), DropOp);
    assert [StartDelete, DeleteSucceeds, DropDelete] == [StartDelete, DeleteSucceeds] + [DropDelete];
    RunTwo(v, StartDelete, DeleteSucceeds, [DropDelete]);
    assert [DropDelete][1..] == [];
  }

  // ---- exactly when the delete of a synced file goes through ----

  /** A synced file before any unlink: the row's etag is current except between a
      call and its confirmation. */
  predicate SyncedInv(s: State) {
    && s.kind != CREATE && s.Visible() && s.row.value.remoteId == Some(0) && s.deleteOp.None?
    && s.remote.Keys == {0} && s.remote[0] < s.clock
    && (s.op == Some(InProgress) <==> CreateRunning(s))
    && (s.pc.Answered? ==> s.pc.id == 0 && s.pc.etag == s.remote[0])
    && (s.pc == LookedUp ==> s.op == Some(Pending))
    && s.row.value.etag.Some? && s.row.value.etag.value <= s.remote[0]
    && (s.row.value.etag.value == s.remote[0] <==> !s.pc.Answered?)
    && !s.pc.Deleting? && s.pc != DeleteAnswered
  }

  /** After an unlink that read the current etag: the delete will hit. */
  predicate WillHit(s: State) {
    && s.kind != CREATE && s.row.Some? && s.row.value.deleted && s.row.value.remoteId == Some(0)
    && s.pc in {Idle, Confirmed, DeleteAnswered, Deleting(0, s.row.value.etag)}
    && (s.op == Some(InProgress) <==> s.pc == Confirmed)
    && (s.deleteOp.Some? ==> s.deleteOp.value == DeleteOp(Some(0), s.row.value.etag))
    && (s.deleteOp.None? || s.pc == DeleteAnswered ==> s.remote == map[])
    && (s.remote == map[] || (s.remote.Keys == {0} && s.row.value.etag == Some(s.remote[0])))
    && (s.pc.Deleting? ==> s.deleteOp.Some?)
  }

  /** After an unlink that read an outdated etag: the delete can only miss, and a
      rename's reply brings the row back. */
  predicate WillMiss(s: State, stale: Etag) {
    && s.remote.Keys == {0} && s.remote[0] != stale && s.kind != CREATE
    && s.op != Some(Pending) && s.pc !in {LookedUp, Claimed}
    && (s.deleteOp.Some? ==> s.deleteOp.value == DeleteOp(Some(0), Some(stale)))
    && (s.deleteOp.None? ==> !s.pc.Answered?)
    && (s.pc.Deleting? ==> s.pc == Deleting(0, Some(stale)))
    && s.row.Some? && (s.row.value.deleted <==> s.kind == WRITE || s.pc.Answered?)
  }

  /** After an unlink inside the claim: the call is still open. */
  predicate StillOpen(s: State, etag: Etag) {
    && s.kind != CREATE && s.row == Some(Row(Some(0), Some(etag), true)) && s.remote == map[0 := etag] && etag < s.clock
    && s.deleteOp == Some(DeleteOp(Some(0), Some(etag)))
    && s.pc in {LookedUp, Claimed} && s.op != Some(Pending) && (s.pc == LookedUp ==> s.op.None?)
  }

  /** The call has taken effect since the clock stood at `start`, or it has not. */
  predicate Decided(s: State, etag: Etag, start: nat) {
    if s.clock == start then StillOpen(s, etag) || WillHit(s) else s.clock > start && WillMiss(s, etag)
  }

  lemma DecidedStep(s: State, c: Choice, etag: Etag, start: nat)
    requires Decided(s, etag, start) && c != Unlink
    ensures Decided(Step(s, c), etag, start)
  {
    assert s.op.Some? ==> s.op.value.Pending? || s.op.value.InProgress?;
  }

  lemma {:induction false} DecidedRun(s: State, choices: seq<Choice>, etag: Etag, start: nat)
    requires Decided(s, etag, start) && Unlink !in choices
    ensures Decided(Run(s, choices), etag, start)
    decreases |choices|
  {
    if choices != [] {
      DecidedStep(s, choices[0], etag, start);
      DecidedRun(Step(s, choices[0]), choices[1..], etag, start);
    }
  }

  lemma SyncedStep(s: State, c: Choice)
    requires SyncedInv(s) && c != Unlink
    ensures SyncedInv(Step(s, c))
  {
    assert s.op.Some? ==> s.op.value.Pending? || s.op.value.InProgress?;
  }

  lemma WillHitStep(s: State, c: Choice)
    requires WillHit(s)
    ensures WillHit(Step(s, c))
  {
    assert s.op.Some? ==> s.op.value.Pending? || s.op.value.InProgress?;
  }

  lemma WillMissStep(s: State, c: Choice, stale: Etag)
    requires WillMiss(s, stale) && (s.Visible() ==> c != Unlink)
    ensures WillMiss(Step(s, c), stale)
  {
    assert s.op.Some? ==> s.op.value.Pending? || s.op.value.InProgress?;
  }

  lemma {:induction false} SyncedRun(s: State, choices: seq<Choice>)
    requires SyncedInv(s) && Unlink !in choices
    ensures SyncedInv(Run(s, choices))
    decreases |choices|
  {
    if choices != [] {
      SyncedStep(s, choices[0]);
      SyncedRun(Step(s, choices[0]), choices[1..]);
    }
  }

  lemma {:induction false} WillHitRun(s: State, choices: seq<Choice>)
    requires WillHit(s)
    ensures WillHit(Run(s, choices))
    decreases |choices|
  {
    if choices != [] {
      WillHitStep(s, choices[0]);
      WillHitRun(Step(s, choices[0]), choices[1..]);
    }
  }

  lemma {:induction false} WillMissRun(s: State, choices: seq<Choice>, stale: Etag)
    requires WillMiss(s, stale) && Unlink !in choices
    ensures WillMiss(Run(s, choices), stale)
    decreases |choices|
  {
    if choices != [] {
      WillMissStep(s, choices[0], stale);
      WillMissRun(Step(s, choices[0]), choices[1..], stale);
    }
  }

  lemma {:induction false} WillHitClock(s: State, choices: seq<Choice>)
    requires WillHit(s)
    ensures Run(s, choices).clock == s.clock
    decreases |choices|
  {
    if choices != [] {
      WillHitStep(s, choices[0]);
      WillHitClock(Step(s, choices[0]), choices[1..]);
    }
  }

  /** What was in flight when the unlink came, or went out after it. */
  predicate CallCrossed(u: State, end: State) { u.pc.Answered? || end.clock > u.clock }

  /** A synced file with a write or rename queued, one unlink anywhere, any schedule
      around it that leaves no op behind. The file is gone from the drive if and only if
      no call was waiting for its confirmation at the unlink and none took effect after
      it. The row is visible again if and only if such a call was a rename. */
  lemma UnlinkOfSynced(kind: Kind, before: seq<Choice>, after: seq<Choice>)
    requires kind != CREATE && Unlink !in before && Unlink !in after
    ensures var u := Run(SyncedItem(kind), before);
      var end := Run(Step(u, Unlink), after);
      end.op.None? && end.deleteOp.None? ==>
        && (end.remote == map[] <==> !CallCrossed(u, end))
        && (end.Visible() <==> kind == RENAME && CallCrossed(u, end))
  {
    var s := SyncedItem(kind);
    SyncedRun(s, before);
    KindStays(s, before);
    var u := Run(s, before);
    assert u.op.Some? ==> u.op.value.Pending? || u.op.value.InProgress?;
    var v := Step(u, Unlink);
    KindStays(v, after);
    if u.pc.Answered? {
      WillMissRun(v, after, u.row.value.etag.value);
    } else if u.pc in {LookedUp, Claimed} {
      assert u.remote == map[0 := u.remote[0]];
      DecidedRun(v, after, u.remote[0], u.clock);
    } else {
      WillHitRun(v, after);
      WillHitClock(v, after);
    }
  }

  lemma {:induction false} KindStays(s: State, choices: seq<Choice>)
    ensures Run(s, choices).kind == s.kind
    decreases |choices|
  {
    if choices != [] {
      KindStays(Step(s, choices[0]), choices[1..]);
    }
  }

  // ---- nothing stays queued ----

  /** A claim that is not running has been given back, and a call can always be answered. */
  predicate Workable(s: State) {
    && (s.op == Some(InProgress) ==> CreateRunning(s)) && (CreateRunning(s) ==> s.op != Some(Pending))
    && (s.kind != CREATE ==>
          && s.row.Some? && s.row.value.remoteId == Some(0) && (s.pc.Answered? ==> s.pc.id == 0)
          && (s.pc in {LookedUp, Claimed} ==> 0 in s.remote)
          && (s.op.Some? && s.Visible() && !s.pc.Answered? && s.pc != Confirmed ==>
                0 in s.remote && s.deleteOp.None? && !s.pc.Deleting? && s.pc != DeleteAnswered))
  }

  lemma StepKeepsWorkable(s: State, c: Choice)
    requires Workable(s)
    ensures Workable(Step(s, c))
  {
    assert s.op.Some? ==> s.op.value.Pending? || s.op.value.InProgress?;
  }

  lemma {:induction false} RunKeepsWorkable(s: State, choices: seq<Choice>)
    requires Workable(s)
    ensures Workable(Run(s, choices))
    decreases |choices|
  {
    if choices != [] {
      StepKeepsWorkable(s, choices[0]);
      RunKeepsWorkable(Step(s, choices[0]), choices[1..]);
    }
  }

  const END_DELETE: seq<Choice> := [DeleteSucceeds, DropDelete]
  const END_CALL: seq<Choice> := [Mark, CallSucceeds, Confirm, DropOp]

  /** The worker left to itself: it ends what it is at, then works off the op and the delete. */
  const UNDISTURBED: seq<Choice> := END_DELETE + (END_CALL + ([LookUp] + (END_CALL + ([StartDelete] + END_DELETE))))

  lemma {:induction false} RunConcat(s: State, first: seq<Choice>, rest: seq<Choice>)
    ensures Run(s, first + rest) == Run(Run(s, first), rest)
    decreases |first|
  {
    if first == [] {
      assert first + rest == rest;
    } else {
      assert (first + rest)[1..] == first[1..] + rest;
      RunConcat(Step(s, first[0]), first[1..], rest);
    }
  }

  lemma RunOne(s: State, c: Choice)
    ensures Run(s, [c]) == Step(s, c)
  {
    assert [c][1..] == [];
  }

  lemma EndsDelete(s: State)
    requires Workable(s)
    ensures var t := Run(s, END_DELETE);
      Workable(t) && !t.pc.Deleting? && t.pc != DeleteAnswered
      && (s.pc.Deleting? || s.pc == DeleteAnswered ==> t.deleteOp.None? && t.pc == Idle)
      && (!s.pc.Deleting? && s.pc != DeleteAnswered ==> t == s) && t.op == s.op
  {
    RunKeepsWorkable(s, END_DELETE);
    RunTwo(s, DeleteSucceeds, DropDelete, []);
    assert [DeleteSucceeds, DropDelete] + [] == END_DELETE;
  }

  lemma EndsCall(s: State)
    requires Workable(s) && !s.pc.Deleting? && s.pc != DeleteAnswered
    ensures var t := Run(s, END_CALL);
      Workable(t) && t.pc == Idle && (s.pc != Idle ==> t.op.None?) && (s.pc == Idle ==> t == s)
  {
    RunKeepsWorkable(s, END_CALL);
    RunTwo(s, Mark, CallSucceeds, [Confirm, DropOp]);
    RunTwo(Step(Step(s, Mark), CallSucceeds), Confirm, DropOp, []);
    assert [Mark, CallSucceeds] + [Confirm, DropOp] == END_CALL && [Confirm, DropOp] + [] == [Confirm, DropOp];
  }

  lemma TakesOp(s: State)
    requires Workable(s) && s.pc == Idle
    ensures var t := Step(s, LookUp); Workable(t) && (t.pc == Idle ==> t.op.None?) && !t.pc.Deleting? && t.pc != DeleteAnswered
  {
    StepKeepsWorkable(s, LookUp);
    match s.op
    case None =>
    case Some(Pending) =>
    case Some(InProgress) =>
  }

  lemma TakesDelete(s: State)
    requires Workable(s) && s.pc == Idle && s.op.None?
    ensures var t := Step(s, StartDelete);
      Workable(t) && t.op.None? && (if t.pc == Idle then t.deleteOp.None? else t.pc.Deleting?)
  {
    StepKeepsWorkable(s, StartDelete);
  }

  lemma UndisturbedEmpties(s: State)
    requires Workable(s)
    ensures var end := Run(s, UNDISTURBED); end.op.None? && end.deleteOp.None? && end.pc == Idle
  {
    var last := [StartDelete] + END_DELETE;
    var op := [LookUp] + (END_CALL + last);
    RunConcat(s, END_DELETE, END_CALL + op);
    var s1 := Run(s, END_DELETE);
    EndsDelete(s);
    RunConcat(s1, END_CALL, op);
    var s2 := Run(s1, END_CALL);
    EndsCall(s1);
    RunConcat(s2, [LookUp], END_CALL + last);
    RunOne(s2, LookUp);
    TakesOp(s2);
    var s3 := Step(s2, LookUp);
    RunConcat(s3, END_CALL, last);
    EndsCall(s3);
    var s4 := Run(s3, END_CALL);
    RunConcat(s4, [StartDelete], END_DELETE);
    RunOne(s4, StartDelete);
    TakesDelete(s4);
    EndsDelete(Step(s4, StartDelete));
  }

  /** Whatever the schedule of steps, failures and unlinks has been, nothing stays queued:
      the worker left to itself works off the op and the delete in at most thirteen steps. */
  lemma NothingStaysQueued(clock: nat, kind: Kind, choices: seq<Choice>)
    ensures var start := if kind == CREATE then NewItem(clock) else SyncedItem(kind);
      var end := Run(Run(start, choices), UNDISTURBED); end.op.None? && end.deleteOp.None?
  {
    var start := if kind == CREATE then NewItem(clock) else SyncedItem(kind);
    RunKeepsWorkable(start, choices);
    UndisturbedEmpties(Run(start, choices));
  }
}
