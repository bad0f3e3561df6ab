/** Draining the queue: every pass makes progress, and an empty queue means the drive
    mirrors the mount. */
module MountDrain {
  import opened Basics
  import opened MountModel
  import opened MountInvariant
  import opened MountQueue
  import opened MountEvents
  import opened MountExec
  import opened MountExec2
  import opened MountMove

  /** A worker step either finishes and drops its op, or changes nothing. */
  lemma ExecKeepsInv(s: State, rank: map<Id, nat>, op: Op)
    requires Inv(s, rank) && op in s.ops && InTurn(s, op)
    ensures Inv(Exec(s, op).0, rank)
    ensures Exec(s, op).1 in {Finished, Waiting, Failed}
    ensures Exec(s, op).1 == Finished ==> forall o :: o in Exec(s, op).0.ops <==> o in s.ops && o != op
    ensures Exec(s, op).1 == Finished ==> |Exec(s, op).0.ops| < |s.ops|
    ensures Exec(s, op).1 != Finished ==> Exec(s, op).0 == s
    ensures op.kind == DELETE ==> Exec(s, op).1 == Finished
    ensures Exec(s, op).0.handles == s.handles && Exec(s, op).0.staged == s.staged
    ensures Clean(s) ==> Clean(Exec(s, op).0)
  {
    assert OpOk(s, op);
    DropFacts(s, op);
    if op.kind == DELETE {
      NodesFormATree(s);
      DeleteRemoves(s, op);
      DeletedKeepsInv(s, rank, op);
    } else if op.kind == WRITE {
      WriteUploads(s, rank, op);
      if !s.Live(op.item) { DroppedKeepsInv(s, rank, op); }
      else if Exec(s, op).1 == Finished { WrittenKeepsInv(s, rank, op); }
    } else if op.kind == RENAME {
      RenameMoves(s, rank, op);
      if Exec(s, op).1 == Finished { RenamedKeepsInv(s, rank, op); }
    } else {
      CreateStepKeepsInv(s, rank, op);
    }
  }

  lemma CreateStepKeepsInv(s: State, rank: map<Id, nat>, op: Op)
    requires Inv(s, rank) && op in s.ops && op.kind in {CREATE_FILE, CREATE_DIR} && InTurn(s, op)
    ensures s.Live(op.item) && op.item != ROOT
    ensures if !s.Synced(s.rows[op.item].parent) then Exec(s, op) == (s, Waiting)
      else if Missing(s, s.rows[op.item].parent) then Exec(s, op) == (s, Failed)
      else CreateReady(s, op) && Exec(s, op) == (Created(s, op), Finished) && Inv(Created(s, op), rank)
  {
    assert OpOk(s, op) && RowOk(s, rank, op.item);
    if s.Synced(s.rows[op.item].parent) && !Missing(s, s.rows[op.item].parent) {
      assert RowOk(s, rank, s.rows[op.item].parent);
      CreateMakesNew(s, rank, op);
      CreatedKeepsInv(s, rank, op);
    }
  }

  lemma WorkKeepsAccounts(s: State, op: Op)
    requires Accounted(s) && op in s.ops && InTurn(s, op)
    ensures Accounted(Exec(s, op).0)
  {
    var rank :| Inv(s, rank);
    ExecKeepsInv(s, rank, op);
  }

  lemma PassKeepsAccounts(s: State)
    requires Accounted(s)
    ensures Accounted(Pass(s, s.ops))
  {
    var rank :| Inv(s, rank);
    PassKeepsInv(s, rank, s.ops);
  }

  // ---- live items that are gone ----

  /** No live item is gone from the drive. */
  ghost predicate Whole(s: State) { forall x :: !Missing(s, x) }

  lemma MissingStays(s: State, rank: map<Id, nat>, op: Op, x: Id)
    requires Inv(s, rank) && op in s.ops && InTurn(s, op) && Missing(s, x)
    ensures Missing(Exec(s, op).0, x)
  {
    assert OpOk(s, op) && RowOk(s, rank, x);
    if op.kind == DELETE {
      MissingStaysDeleted(s, op, x);
    } else if op.kind == RENAME {
      RenameMoves(s, rank, op);
    } else if op.kind == WRITE {
      WriteUploads(s, rank, op);
    } else {
      CreateStepKeepsInv(s, rank, op);
    }
  }

  lemma MissingStaysDeleted(s: State, op: Op, x: Id)
    requires op.kind == DELETE && Missing(s, x)
    ensures Missing(Exec(s, op).0, x)
  {
  }

  /** Exactly an unsafe delete takes live items along. */
  lemma GoesMissingIff(s: State, rank: map<Id, nat>, op: Op)
    requires Inv(s, rank) && op in s.ops && InTurn(s, op) && Whole(s)
    ensures Whole(Exec(s, op).0) <==> SafeDelete(s, op)
  {
    assert OpOk(s, op);
    if op.kind == DELETE {
      NodesFormATree(s);
      DeleteRemoves(s, op);
      DeleteTakesIff(s, op);
    } else {
      forall x ensures !Missing(Exec(s, op).0, x) {
        StaysOnDrive(s, rank, op, x);
      }
    }
  }

  lemma DeleteTakesIff(s: State, op: Op)
    requires op.kind == DELETE && OpOk(s, op) && RemoteIdsUnique(s) && Whole(s)
    ensures Whole(Deleted(s, op)) <==> SafeDelete(s, op)
  {
    var t := Deleted(s, op);
    if SafeDelete(s, op) {
      forall y ensures !Missing(t, y) {
        assert !Missing(s, y) && (s.Synced(y) ==> op.target != Some(s.Rid(y)));
      }
    } else {
      var y :| s.Synced(y) && s.Rid(y) in s.nodes && op.target.value in s.nodes[s.Rid(y)].ancestors;
      assert Missing(t, y);
    }
  }

  lemma StaysOnDrive(s: State, rank: map<Id, nat>, op: Op, x: Id)
    requires Inv(s, rank) && op in s.ops && InTurn(s, op) && op.kind != DELETE && !Missing(s, x)
    ensures !Missing(Exec(s, op).0, x)
  {
    assert OpOk(s, op);
    if op.kind == RENAME { RenameMoves(s, rank, op); }
    else if op.kind == WRITE { WriteUploads(s, rank, op); }
    else { CreateStepKeepsInv(s, rank, op); }
  }

  // ---- someone can always go ahead ----

  /** The row waits for a create or a rename of its own. */
  ghost predicate Displaced(s: State, x: Id) {
    s.Live(x) && x != ROOT && (s.rows[x].remoteId.None? || HasOp(s, RENAME, x))
  }

  /** Every live row above `x` is in its place on the drive. */
  ghost predicate Settled(s: State, x: Id) {
    !Displaced(s, x) && s.Live(x)
  }

  /** `x` and everything above it are settled. */
  ghost predicate SettledAbove(s: State, x: Id) {
    exists n: nat :: SettledTo(s, x, n)
  }

  ghost predicate SettledTo(s: State, x: Id, n: nat)
    decreases n
  {
    Settled(s, x) && (x == ROOT || (n > 0 && SettledTo(s, s.rows[x].parent, n - 1)))
  }

  /** A displaced row strictly above `p`, or none. */
  lemma HighestDisplaced(s: State, rank: map<Id, nat>, p: Id) returns (d: Option<Id>)
    requires (forall z :: RowOk(s, rank, z)) && RootOk(s) && Settled(s, p) && p in rank
    ensures d.Some? ==> Displaced(s, d.value) && d.value in rank && rank[d.value] < rank[p]
    ensures d.None? ==> SettledAbove(s, p)
    decreases rank[p]
  {
    if p == ROOT {
      assert SettledTo(s, p, 0);
      d := None;
    } else {
      assert RowOk(s, rank, p);
      var q := s.rows[p].parent;
      if Displaced(s, q) {
        d := Some(q);
      } else {
        d := HighestDisplaced(s, rank, q);
        if d.None? {
          var n: nat :| SettledTo(s, q, n);
          assert SettledTo(s, p, n + 1);
        }
      }
    }
  }

  /** A displaced row all of whose ancestors are settled. */
  lemma TopmostDisplaced(s: State, rank: map<Id, nat>, x: Id) returns (y: Id)
    requires (forall z :: RowOk(s, rank, z)) && RootOk(s) && Displaced(s, x) && x in rank
    ensures Displaced(s, y) && SettledAbove(s, s.rows[y].parent)
    decreases rank[x]
  {
    assert RowOk(s, rank, x);
    var p := s.rows[x].parent;
    if Displaced(s, p) {
      y := TopmostDisplaced(s, rank, p);
    } else {
      var d := HighestDisplaced(s, rank, p);
      match d {
        case Some(z) => y := TopmostDisplaced(s, rank, z);
        case None => y := x;
      }
    }
  }

  /** Above a settled row the drive and the local tree agree, step by step. */
  lemma SettledAncestors(s: State, rank: map<Id, nat>, p: Id, n: nat, x: Id)
    requires (forall z :: RowOk(s, rank, z)) && RootOk(s) && SettledTo(s, p, n) && Tree(s.nodes) && NodeOk(s, ROOT_REMOTE)
    requires Whole(s)
    requires s.Synced(x) && RemoteIdsUnique(s) && x in rank && p in rank && rank[p] < rank[x]
    ensures s.Synced(p) && s.Rid(p) in s.nodes && s.Rid(x) != s.Rid(p) && s.Rid(x) !in s.nodes[s.Rid(p)].ancestors
    decreases n
  {
    assert RowOk(s, rank, p) && RowOk(s, rank, ROOT);
    assert s.Synced(p) && !Missing(s, p);
    if p != ROOT {
      assert Placed(s, p);
      SettledAncestors(s, rank, s.rows[p].parent, n - 1, x);
      assert InTree(s.nodes, s.Rid(p));
    }
  }

  /** The op of a topmost displaced row goes through. */
  lemma TopmostGoesAhead(s: State, rank: map<Id, nat>, y: Id) returns (op: Op)
    requires Inv(s, rank) && Displaced(s, y) && SettledAbove(s, s.rows[y].parent)
    requires Whole(s) && forall o :: o in s.ops ==> o.kind != DELETE
    ensures op in s.ops && op.kind != DELETE && Exec(s, op).1 == Finished
  {
    assert RowOk(s, rank, y);
    var p := s.rows[y].parent;
    var n: nat :| SettledTo(s, p, n);
    assert RowOk(s, rank, p) && !Missing(s, p) && !Missing(s, y);
    if s.rows[y].remoteId.None? {
      op :| op in s.ops && op.kind == CreateKind(s.rows[y].isFolder) && op.item == y;
      CreateStepKeepsInv(s, rank, op);
    } else {
      op :| op in s.ops && op.kind == RENAME && op.item == y;
      NodesFormATree(s);
      assert NodeOk(s, ROOT_REMOTE);
      SettledAncestors(s, rank, p, n, y);
      RenameMoves(s, rank, op);
    }
  }

  /** In a non-empty queue some op goes through, as long as no live item is gone. */
  lemma SomeOpGoesAhead(s: State, rank: map<Id, nat>) returns (op: Op)
    requires Inv(s, rank) && s.ops != [] && Whole(s)
    ensures op in s.ops && Exec(s, op).1 == Finished
  {
    if o :| o in s.ops && o.kind == DELETE {
      op := o;
      return;
    }
    op := s.ops[0];
    assert OpOk(s, op);
    if op.kind == WRITE {
      assert !Missing(s, op.item);
      WriteUploads(s, rank, op);
    } else {
      assert RowOk(s, rank, op.item);
      assert op.kind == RENAME ==> HasOp(s, RENAME, op.item);
      assert RowOk(s, rank, ROOT);
      assert Displaced(s, op.item);
      var y := TopmostDisplaced(s, rank, op.item);
      op := TopmostGoesAhead(s, rank, y);
    }
  }

  // ---- a pass over the queue ----

  /** Every delete of the pass finds no live row's item below it. */
  ghost predicate PassSafe(s: State, todo: seq<Op>)
    decreases |todo|
  {
    todo == [] || (SafeDelete(s, todo[0]) && PassSafe(Exec(s, todo[0]).0, todo[1..]))
  }

  /** The ops a pass still has to run are queued, each once, every queued delete among
      them. */
  ghost predicate Queued(s: State, todo: seq<Op>) {
    && OpsOrdered(todo) && (forall o :: o in todo ==> o in s.ops)
    && forall o :: o in s.ops && o.kind == DELETE ==> o in todo
  }

  lemma FirstIsInTurn(s: State, todo: seq<Op>)
    requires Queued(s, todo) && todo != []
    ensures InTurn(s, todo[0])
  {
    forall o | o in s.ops && o.kind == DELETE && IsCreate(todo[0].kind) ensures todo[0].number < o.number {
      var i :| 0 <= i < |todo| && todo[i] == o;
    }
  }

  lemma StillQueued(s: State, t: State, todo: seq<Op>)
    requires Queued(s, todo) && todo != []
    requires forall o :: o in s.ops && o != todo[0] ==> o in t.ops
    requires forall o :: o in t.ops ==> o in s.ops && (o == todo[0] ==> o.kind != DELETE)
    ensures Queued(t, todo[1..])
  {
    forall o | o in todo[1..] ensures o in t.ops {
      var i :| 0 <= i < |todo[1..]| && todo[1..][i] == o;
      assert todo[i + 1] == o && todo[0].number < todo[i + 1].number;
    }
  }

  lemma PassKeepsInv(s: State, rank: map<Id, nat>, todo: seq<Op>)
    requires Inv(s, rank) && Queued(s, todo)
    ensures Inv(Pass(s, todo), rank) && Pass(s, todo).handles == s.handles && Pass(s, todo).staged == s.staged
    ensures Clean(s) ==> Clean(Pass(s, todo))
    ensures forall o :: o in Pass(s, todo).ops ==> o in s.ops
    ensures forall x :: Missing(s, x) ==> Missing(Pass(s, todo), x)
    decreases |todo|
  {
    if todo != [] {
      var op := todo[0];
      FirstIsInTurn(s, todo);
      ExecKeepsInv(s, rank, op);
      var t := Exec(s, op).0;
      StillQueued(s, t, todo);
      PassKeepsInv(t, rank, todo[1..]);
      forall x | Missing(s, x) ensures Missing(t, x) { MissingStays(s, rank, op, x); }
    }
  }

  /** A safe pass never grows the queue, leaves no delete of its list behind, and
      shrinks the queue if any of its ops could go ahead. */
  lemma {:induction false} PassProgress(s: State, rank: map<Id, nat>, todo: seq<Op>, go: Option<Op>)
    requires Inv(s, rank) && Whole(s) && Queued(s, todo) && PassSafe(s, todo)
    requires go.Some? ==> go.value in todo && Exec(s, go.value).1 == Finished
    ensures Whole(Pass(s, todo)) && |Pass(s, todo).ops| <= |s.ops|
    ensures go.Some? ==> |Pass(s, todo).ops| < |s.ops|
    ensures forall o :: o in Pass(s, todo).ops ==> o in s.ops && (o in todo ==> o.kind != DELETE)
    decreases |todo|
  {
    if todo != [] {
      var op := todo[0];
      FirstIsInTurn(s, todo);
      assert op in s.ops;
      ExecKeepsInv(s, rank, op);
      GoesMissingIff(s, rank, op);
      var t := Exec(s, op).0;
      StillQueued(s, t, todo);
      var rest: Option<Op> := if go.Some? && Exec(s, op).1 != Finished then go else None;
      PassProgress(t, rank, todo[1..], rest);
      assert forall o :: o in todo ==> o == op || o in todo[1..];
    }
  }

  // ---- drain ----

  lemma {:induction false} NoDeletesIsSafe(s: State, rank: map<Id, nat>, todo: seq<Op>)
    requires Inv(s, rank) && Queued(s, todo) && forall o :: o in todo ==> o.kind != DELETE
    ensures PassSafe(s, todo)
    decreases |todo|
  {
    if todo != [] {
      var op := todo[0];
      FirstIsInTurn(s, todo);
      assert op in s.ops && op.kind != DELETE;
      ExecKeepsInv(s, rank, op);
      var t := Exec(s, op).0;
      StillQueued(s, t, todo);
      assert forall o :: o in todo[1..] ==> o in todo;
      NoDeletesIsSafe(t, rank, todo[1..]);
    }
  }

  /** A safe pass over a non-empty queue removes at least one op. */
  lemma PassShrinks(s: State, rank: map<Id, nat>)
    requires Inv(s, rank) && Whole(s) && PassSafe(s, s.ops)
    ensures Inv(Pass(s, s.ops), rank) && Whole(Pass(s, s.ops))
    ensures s.ops != [] ==> |Pass(s, s.ops).ops| < |s.ops|
    ensures PassSafe(Pass(s, s.ops), Pass(s, s.ops).ops)
  {
    var go: Option<Op> := None;
    if s.ops != [] {
      var op := SomeOpGoesAhead(s, rank);
      go := Some(op);
    }
    PassKeepsInv(s, rank, s.ops);
    PassProgress(s, rank, s.ops, go);
    var t := Pass(s, s.ops);
    NoDeletesIsSafe(t, rank, t.ops);
  }

  /** If nothing is gone and the deletes are safe, the queue empties within as many
      passes as it has ops. */
  lemma {:induction false} DrainEmpties(s: State, rank: map<Id, nat>, n: nat)
    requires Inv(s, rank) && Whole(s) && PassSafe(s, s.ops) && n >= |s.ops|
    ensures Drain(s, n).ops == []
    decreases n
  {
    if n > 0 {
      PassShrinks(s, rank);
      DrainEmpties(Pass(s, s.ops), rank, n - 1);
    }
  }

  lemma {:induction false} DrainKeepsInv(s: State, rank: map<Id, nat>, n: nat)
    requires Inv(s, rank)
    ensures Inv(Drain(s, n), rank) && Drain(s, n).handles == s.handles && Drain(s, n).staged == s.staged
    ensures Clean(s) ==> Clean(Drain(s, n))
    ensures forall x :: Missing(s, x) ==> Missing(Drain(s, n), x)
    decreases n
  {
    if n > 0 {
      PassKeepsInv(s, rank, s.ops);
      DrainKeepsInv(Pass(s, s.ops), rank, n - 1);
    }
  }

  // ---- and only then ----

  /** An unsafe pass leaves a live item gone. */
  lemma {:induction false} UnsafePassLoses(s: State, rank: map<Id, nat>, todo: seq<Op>)
    requires Inv(s, rank) && Queued(s, todo) && Whole(s) && !PassSafe(s, todo)
    ensures !Whole(Pass(s, todo))
    decreases |todo|
  {
    var op := todo[0];
    FirstIsInTurn(s, todo);
    assert op in s.ops;
    ExecKeepsInv(s, rank, op);
    GoesMissingIff(s, rank, op);
    var t := Exec(s, op).0;
    StillQueued(s, t, todo);
    if SafeDelete(s, op) {
      UnsafePassLoses(t, rank, todo[1..]);
    } else {
      var x :| Missing(t, x);
      PassKeepsInv(t, rank, todo[1..]);
    }
  }

  /** The queue ever empties if and only if no live item is gone and each delete, when
      its turn comes in the first pass, finds no live item below it. */
  lemma DrainEmptiesIff(s: State, rank: map<Id, nat>)
    requires Inv(s, rank)
    ensures (exists n: nat :: Drain(s, n).ops == []) <==> Whole(s) && PassSafe(s, s.ops)
  {
    if Whole(s) && PassSafe(s, s.ops) {
      DrainEmpties(s, rank, |s.ops|);
    } else {
      forall n: nat ensures Drain(s, n).ops != [] {
        NeverEmpties(s, rank, n);
      }
    }
  }

  lemma NeverEmpties(s: State, rank: map<Id, nat>, n: nat)
    requires Inv(s, rank) && !(Whole(s) && PassSafe(s, s.ops))
    ensures Drain(s, n).ops != []
  {
    if !Whole(s) {
      MissingNeverEmpties(s, rank, n);
    } else if n > 0 && s.ops != [] {
      UnsafeNeverEmpties(s, rank, n - 1);
    }
  }

  lemma UnsafeNeverEmpties(s: State, rank: map<Id, nat>, n: nat)
    requires Inv(s, rank) && Whole(s) && !PassSafe(s, s.ops)
    ensures Drain(Pass(s, s.ops), n).ops != []
  {
    UnsafePassLoses(s, rank, s.ops);
    PassKeepsInv(s, rank, s.ops);
    MissingNeverEmpties(Pass(s, s.ops), rank, n);
  }

  lemma MissingNeverEmpties(s: State, rank: map<Id, nat>, n: nat)
    requires Inv(s, rank) && !Whole(s)
    ensures Drain(s, n).ops != []
  {
    DrainKeepsInv(s, rank, n);
    if Drain(s, n).ops == [] {
      var x :| Missing(s, x);
      NothingMissing(Drain(s, n), rank, x);
    }
  }
}
