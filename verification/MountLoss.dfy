/** Without the guard: `mv D/T T; rmdir D; mv T/f f; rmdir T`, offline, loses `f` on
    the drive for good. Removing `T` cancels its queued move, so the delete of `D`,
    which comes first, still takes `T` and `f` along. */
module MountLoss {
  import opened Basics
  import opened MountModel
  import opened MountInvariant
  import opened MountQueue
  import opened MountDrain
  import opened MountExec
  import opened MountHistory

  const D: Id := 1
  const T: Id := 2
  const F: Id := 3

  function Folder(r: RemoteId, parent: Id, name: string): Row { Row(Some(r), parent, name, true, Some(r), false) }

  /** Root, `D`, `D/T` and `D/T/f`, all synced. */
  function Start(): State {
    State(
      map[ROOT := Folder(0, 0, ""), D := Folder(1, ROOT, "D"), T := Folder(2, D, "T"),
          F := Row(Some(3), T, "f", false, Some(3), false)],
      map[F := [7]],
      map[], [], 4, 0,
      map[0 := Node([], "", true, [], 0), 1 := Node([0], "D", true, [], 1), 2 := Node([0, 1], "T", true, [], 2),
          3 := Node([0, 1, 2], "f", false, [7], 3)],
      4, false)
  }

  function Rank(): map<Id, nat> { map[ROOT := 0, D := 1, T := 2, F := 3] }

  const STEPS: seq<Step> := [
    Fuse(EvRename(T, ROOT, "T")), Fuse(EvRmdir(D)), Fuse(EvRename(F, ROOT, "f")), Fuse(EvRmdir(T))]

  lemma StartsSynced()
    ensures FullySynced(Start(), Rank())
  {
    StartsWithRows();
    StartsWithNodes();
    StartsWithNames();
    StartsUnique();
    StartsWithBytes();
  }

  lemma StartsUnique()
    ensures RootOk(Start()) && NamesUnique(Start()) && RemoteIdsUnique(Start())
  {
    var rows := Start().rows;
    assert forall x :: x in rows ==> rows[x].remoteId == Some(x);
    assert forall x :: x in rows && x != ROOT ==> rows[x].parent == x - 1;
  }

  lemma StartsWithBytes()
    ensures forall x :: HandleOk(Start(), x) && BytesOk(Start(), x)
  {
  }

  lemma StartsWithRows()
    ensures forall x :: RowOk(Start(), Rank(), x)
  {
    var s := Start();
    assert Placed(s, D) && Placed(s, T) && Placed(s, F);
    forall x ensures RowOk(s, Rank(), x) {}
  }

  lemma StartsWithNodes()
    ensures forall r :: NodeOk(Start(), r)
  {
    var s := Start();
    forall r ensures NodeOk(s, r) {
      assert Owned(s, ROOT, 0) && Owned(s, D, 1) && Owned(s, T, 2) && Owned(s, F, 3);
    }
  }

  lemma StartsWithNames()
    ensures forall x :: NameOpen(Start(), x)
  {
    forall x ensures NameOpen(Start(), x) {}
  }

  const MOVE_T: Op := Op(0, RENAME, T, None, None)
  const DELETE_D: Op := Op(1, DELETE, D, Some(1), Some(1))
  const MOVE_F: Op := Op(2, RENAME, F, None, None)
  const DELETE_T: Op := Op(3, DELETE, T, Some(2), Some(2))

  function AfterMoveT(): State {
    Start().(rows := Start().rows[T := Folder(2, ROOT, "T")], ops := [MOVE_T], nextNumber := 1)
  }

  function AfterRmdirD(): State {
    AfterMoveT().(rows := AfterMoveT().rows[D := Folder(1, ROOT, "D").(deleted := true)], ops := [MOVE_T, DELETE_D], nextNumber := 2)
  }

  function AfterMoveF(): State {
    AfterRmdirD().(rows := AfterRmdirD().rows[F := Row(Some(3), ROOT, "f", false, Some(3), false)],
                   ops := [MOVE_T, DELETE_D, MOVE_F], nextNumber := 3)
  }

  function End(): State {
    AfterMoveF().(rows := AfterMoveF().rows[T := Folder(2, ROOT, "T").(deleted := true)],
                  ops := [DELETE_D, MOVE_F, DELETE_T], nextNumber := 4)
  }

  lemma MovesT()
    ensures Possible(Start(), STEPS[0]) && Next(Start(), STEPS[0]) == AfterMoveT()
  {
  }

  lemma RemovesD()
    ensures Possible(AfterMoveT(), STEPS[1]) && Next(AfterMoveT(), STEPS[1]) == AfterRmdirD()
  {
    var s := AfterMoveT();
    assert Keep([], (o: Op) => o.item != D) == [];
    assert WithoutItem(s.ops, D) == [MOVE_T];
  }

  lemma MovesF()
    ensures Possible(AfterRmdirD(), STEPS[2]) && Next(AfterRmdirD(), STEPS[2]) == AfterMoveF()
  {
  }

  lemma MoveOfTIsCancelled()
    ensures WithoutItem([MOVE_T, DELETE_D, MOVE_F], T) == [DELETE_D, MOVE_F]
  {
    var stays := (o: Op) => o.item != T;
    assert Keep([], stays) == [];
    assert Keep([MOVE_F], stays) == [MOVE_F] by { assert [MOVE_F][1..] == []; }
    assert Keep([DELETE_D, MOVE_F], stays) == [DELETE_D, MOVE_F] by { assert [DELETE_D, MOVE_F][1..] == [MOVE_F]; }
    assert [MOVE_T, DELETE_D, MOVE_F][1..] == [DELETE_D, MOVE_F];
    assert WithoutItem([MOVE_T, DELETE_D, MOVE_F], T) == Keep([MOVE_T, DELETE_D, MOVE_F], stays);
  }

  lemma RemovesT()
    ensures Possible(AfterMoveF(), STEPS[3]) && Next(AfterMoveF(), STEPS[3]) == End()
  {
    MoveOfTIsCancelled();
  }

  /** Every handler call was allowed, the queue is as above, and no number of passes
      ever empties it: the move of `f` is refused for good. */
  lemma MovedOutThenRemovedNeverDrains()
    ensures FullySynced(Start(), Rank()) && Feasible(Start(), STEPS) && Run(Start(), STEPS) == End()
    ensures forall n: nat :: Drain(End(), n).ops != []
  {
    StartsSynced();
    EndIsReached();
    EndIsUnsafe();
    HistoryThenDrain(Start(), Rank(), STEPS);
  }

  lemma EndIsReached()
    ensures Feasible(Start(), STEPS) && Run(Start(), STEPS) == End()
  {
    MovesT();
    RemovesD();
    MovesF();
    RemovesT();
    Then(AfterMoveF(), STEPS[3], []);
    Then(AfterRmdirD(), STEPS[2], [STEPS[3]]);
    Then(AfterMoveT(), STEPS[1], [STEPS[2], STEPS[3]]);
    Then(Start(), STEPS[0], [STEPS[1], STEPS[2], STEPS[3]]);
    assert [STEPS[3]] + [] == [STEPS[3]] && [STEPS[2]] + [STEPS[3]] == [STEPS[2], STEPS[3]];
    assert [STEPS[1]] + [STEPS[2], STEPS[3]] == [STEPS[1], STEPS[2], STEPS[3]];
    assert [STEPS[0]] + [STEPS[1], STEPS[2], STEPS[3]] == STEPS;
  }

  lemma EndIsUnsafe()
    ensures !PassSafe(End(), End().ops) && Clean(End())
  {
    assert End().Synced(F) && End().Rid(F) in End().nodes && 1 in End().nodes[3].ancestors;
    assert !SafeDelete(End(), DELETE_D);
  }
}
