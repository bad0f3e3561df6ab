/** A file left behind: an upload takes bytes a handle has not flushed, the user writes
    the flushed bytes back, and the flush finds nothing changed. */
module MountStale {
  import opened Basics
  import opened MountModel
  import opened MountInvariant
  import opened MountBytes
  import opened MountHistory

  const F: Id := 1

  function FileRow(etag: Etag): Row { Row(Some(1), ROOT, "f", false, Some(etag), false) }

  function At(bytes: Content, handle: Option<Handle>, queued: bool, number: nat, onDrive: Content, etag: Etag): State {
    State(
      map[ROOT := Row(Some(0), 0, "", true, Some(0), false), F := FileRow(etag)],
      map[F := bytes],
      if handle.Some? then map[F := handle.value] else map[],
      if queued then [Op(0, WRITE, F, None, None)] else [], 2, number,
      map[0 := Node([], "", true, [], 0), 1 := Node([0], "f", false, onDrive, etag)],
      etag + 1, false)
  }

  /** A root and one file, synced. */
  function Start(): State { At([7], None, false, 0, [7], 1) }

  function Rank(): map<Id, nat> { map[ROOT := 0, F := 1] }

  lemma StartsSynced()
    ensures FullySynced(Start(), Rank())
  {
    var s := Start();
    assert Placed(s, F);
    forall x ensures RowOk(s, Rank(), x) {}
    forall r ensures NodeOk(s, r) {
      assert Owned(s, ROOT, 0) && Owned(s, F, 1);
    }
    forall x ensures NameOpen(s, x) {}
  }

  const UPLOAD: Op := Op(0, WRITE, F, None, None)

  const EDIT: seq<Step> := [Fuse(EvOpen(F, false)), Fuse(EvWrite(F, [8])), Fuse(EvFlush(F)), Fuse(EvWrite(F, [9]))]
  const REVERT: seq<Step> := [Work(UPLOAD), Fuse(EvWrite(F, [8])), Fuse(EvFlush(F))]

  lemma {:induction false} RunTwoParts(s: State, a: seq<Step>, b: seq<Step>)
    ensures Run(s, a + b) == Run(Run(s, a), b)
    ensures Feasible(s, a + b) <==> Feasible(s, a) && Feasible(Run(s, a), b)
    decreases |a|
  {
    if a == [] {
      assert a + b == b;
    } else {
      assert (a + b)[1..] == a[1..] + b;
      RunTwoParts(Next(s, a[0]), a[1..], b);
    }
  }

  function JustOpened(): State { At([7], Some(Handle(false, [7])), false, 0, [7], 1) }
  function Written(): State { At([8], Some(Handle(true, [7])), false, 0, [7], 1) }
  function Flushed(): State { At([8], Some(Handle(false, [8])), true, 1, [7], 1) }
  function WrittenOn(): State { At([9], Some(Handle(true, [8])), true, 1, [7], 1) }
  function Uploaded(): State { At([9], Some(Handle(true, [8])), false, 1, [9], 2) }
  function WrittenBack(): State { At([8], Some(Handle(true, [8])), false, 1, [9], 2) }
  function End(): State { At([8], Some(Handle(false, [8])), false, 1, [9], 2) }

  lemma EditSteps()
    ensures Possible(Start(), EDIT[0]) && Next(Start(), EDIT[0]) == JustOpened()
    ensures Possible(JustOpened(), EDIT[1]) && Next(JustOpened(), EDIT[1]) == Written()
    ensures Possible(Flushed(), EDIT[3]) && Next(Flushed(), EDIT[3]) == WrittenOn()
  {
  }

  lemma FlushQueues()
    ensures Possible(Written(), EDIT[2]) && Next(Written(), EDIT[2]) == Flushed()
  {
  }

  lemma UploadTakesLiveBytes()
    ensures Possible(WrittenOn(), REVERT[0]) && Next(WrittenOn(), REVERT[0]) == Uploaded()
  {
    assert UPLOAD in WrittenOn().ops;
    assert WithoutOp([UPLOAD], 0) == [] by { assert [UPLOAD][1..] == []; }
  }

  lemma RevertSteps()
    ensures Possible(Uploaded(), REVERT[1]) && Next(Uploaded(), REVERT[1]) == WrittenBack()
    ensures Possible(WrittenBack(), REVERT[2]) && Next(WrittenBack(), REVERT[2]) == End()
  {
  }

  lemma Edited()
    ensures Feasible(Start(), EDIT) && Run(Start(), EDIT) == WrittenOn()
  {
    EditSteps();
    FlushQueues();
    Then(Flushed(), EDIT[3], []);
    Then(Written(), EDIT[2], [EDIT[3]]);
    Then(JustOpened(), EDIT[1], [EDIT[2], EDIT[3]]);
    Then(Start(), EDIT[0], [EDIT[1], EDIT[2], EDIT[3]]);
    assert [EDIT[3]] + [] == [EDIT[3]] && [EDIT[2]] + [EDIT[3]] == [EDIT[2], EDIT[3]];
    assert [EDIT[1]] + [EDIT[2], EDIT[3]] == [EDIT[1], EDIT[2], EDIT[3]];
    assert [EDIT[0]] + [EDIT[1], EDIT[2], EDIT[3]] == EDIT;
  }

  lemma Reverted()
    ensures Feasible(WrittenOn(), REVERT) && Run(WrittenOn(), REVERT) == End()
  {
    UploadTakesLiveBytes();
    RevertSteps();
    Then(WrittenBack(), REVERT[2], []);
    Then(Uploaded(), REVERT[1], [REVERT[2]]);
    Then(WrittenOn(), REVERT[0], [REVERT[1], REVERT[2]]);
    assert [REVERT[2]] + [] == [REVERT[2]] && [REVERT[1]] + [REVERT[2]] == [REVERT[1], REVERT[2]];
    assert [REVERT[0]] + [REVERT[1], REVERT[2]] == REVERT;
  }

  /** Every step is allowed, the queue ends empty with no dirty handle, and the drive has
      bytes the mount does not. */
  lemma UnflushedUploadIsNeverRepaired()
    ensures FullySynced(Start(), Rank()) && Feasible(Start(), EDIT + REVERT) && Run(Start(), EDIT + REVERT) == End()
    ensures End().ops == [] && Clean(End()) && !Mirrored(End())
    ensures Get(End().staged, F) == Some([8]) && End().nodes[1].content == [9]
    ensures Behind(Start(), EDIT + REVERT, {}) != {}
  {
    StartsSynced();
    Edited();
    Reverted();
    RunTwoParts(Start(), EDIT, REVERT);
    assert End().LiveFile(F) && !SameBytes(End(), F);
    EmptyQueueMirrorsIff(Start(), Rank(), EDIT + REVERT);
  }
}
