/** Facts about the queue itself. */
module MountQueue {
  import opened Basics
  import opened MountModel
  import opened MountInvariant

  lemma {:induction false} KeepKeepsOrder(ops: seq<Op>, stays: Op -> bool)
    requires OpsOrdered(ops)
    ensures OpsOrdered(Keep(ops, stays))
  {
    if ops != [] {
      KeepKeepsOrder(ops[1..], stays);
      var rest := Keep(ops[1..], stays);
      forall j | 0 <= j < |rest| ensures ops[0].number < rest[j].number {
        assert rest[j] in rest;
        var i :| 0 <= i < |ops[1..]| && ops[1..][i] == rest[j];
        assert ops[i + 1] == rest[j];
      }
    }
  }

  /** Dropping something shortens the queue. */
  lemma {:induction false} KeepShortens(ops: seq<Op>, stays: Op -> bool, o: Op)
    requires o in ops && !stays(o)
    ensures |Keep(ops, stays)| < |ops|
  {
    if stays(ops[0]) {
      assert o in ops[1..];
      KeepShortens(ops[1..], stays, o);
    }
  }

  lemma Appended(ops: seq<Op>, o: Op)
    ensures forall q :: q in ops + [o] <==> q in ops || q == o
  {
  }

  lemma AppendedNonUpload(ops: seq<Op>, o: Op)
    requires OpsOrdered(ops) && OneUpload(ops) && !IsUpload(o.kind)
    requires forall q :: q in ops ==> q.number < o.number
    ensures OpsOrdered(ops + [o]) && OneUpload(ops + [o])
  {
    Appended(ops, o);
    assert forall i :: 0 <= i < |ops| ==> ops[i] in ops;
  }

  /** Ops are told apart by their numbers. */
  lemma NumbersIdentify(ops: seq<Op>, a: Op, b: Op)
    requires OpsOrdered(ops) && a in ops && b in ops && a.number == b.number
    ensures a == b
  {
    var i :| 0 <= i < |ops| && ops[i] == a;
    var j :| 0 <= j < |ops| && ops[j] == b;
  }

  /** What enqueueing does to the queue. */
  lemma EnqueueFacts(s: State, kind: OpKind, x: Id)
    requires forall o :: o in s.ops ==> o.number < s.nextNumber
    requires OpsOrdered(s.ops) && OneUpload(s.ops)
    requires kind in {CREATE_FILE, CREATE_DIR} ==> !HasUpload(s.ops, x)
    ensures var t := Enqueue(s, kind, x);
      && OpsOrdered(t.ops) && OneUpload(t.ops) && s.nextNumber <= t.nextNumber
      && (forall o :: o in s.ops ==> o in t.ops)
      && (forall o :: o in t.ops ==> o in s.ops || (o == Op(s.nextNumber, kind, x, None, None) && t.nextNumber > s.nextNumber))
    ensures kind != WRITE ==> Op(s.nextNumber, kind, x, None, None) in Enqueue(s, kind, x).ops
  {
    var t := Enqueue(s, kind, x);
    if t.ops != s.ops {
      Appended(s.ops, Op(s.nextNumber, kind, x, None, None));
      assert forall i :: 0 <= i < |s.ops| ==> s.ops[i] in s.ops;
    }
  }

  /** After enqueueing a write some upload of the item is queued. */
  lemma EnqueuedWrite(s: State, x: Id)
    ensures HasUpload(Enqueue(s, WRITE, x).ops, x)
  {
    var t := Enqueue(s, WRITE, x);
    if !HasUpload(s.ops, x) {
      assert Op(s.nextNumber, WRITE, x, None, None) in t.ops;
    }
  }
}
