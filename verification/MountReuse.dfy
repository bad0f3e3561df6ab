/** A name freed by a delete that is still queued: harmless when the delete is queued
    first, the loss of a folder when the create is. */
module MountReuse {
  import opened Basics
  import opened MountModel
  import opened MountInvariant
  import opened MountQueue
  import opened MountEvents
  import opened MountExec
  import opened MountExec2
  import opened MountDrain

  /** `c` creates the live row `x` under a name that only the item `r` has on the drive;
      `o` is the queued delete of `r`. */
  ghost predicate Contested(s: State, c: Op, o: Op, r: RemoteId) {
    && c in s.ops && o in s.ops && OpsOrdered(s.ops) && IsCreate(c.kind) && o.kind == DELETE
    && s.Live(c.item) && s.Synced(s.rows[c.item].parent) && s.rows[c.item].parent != c.item
    && r in s.nodes && r < s.clock && s.nodes[r].etag < s.clock && s.nodes[r].isFolder == (c.kind == CREATE_DIR)
    && o.target == Some(r) && o.targetEtag == Some(s.nodes[r].etag)
    && HoldsName(s, s.Rid(s.rows[c.item].parent), s.rows[c.item].name, r)
  }

  /** In the folder `p`, `r` has the name and nobody else. */
  ghost predicate HoldsName(s: State, p: RemoteId, name: string, r: RemoteId) {
    && p in s.nodes && s.nodes[p].isFolder && p != r && r !in s.nodes[p].ancestors && p < s.clock
    && forall q: RemoteId :: ChildNamed(s.nodes, p, name, q) <==> q == r
  }

  function Both(s: State, first: Op, second: Op): State { Exec(Exec(s, first).0, second).0 }

  /** The new item ends up on the drive if and only if the delete goes first or the item
      is a file, whose new bytes the delete's etag no longer matches. */
  lemma OrderDecides(s: State, c: Op, o: Op, r: RemoteId, deleteFirst: bool)
    requires Contested(s, c, o, r)
    ensures var t := if deleteFirst then Both(s, o, c) else Both(s, c, o);
      t.Synced(c.item) && (t.Rid(c.item) in t.nodes <==> deleteFirst || c.kind == CREATE_FILE)
  {
    var p := s.Rid(s.rows[c.item].parent);
    if deleteFirst {
      DeleteFirst(s, c, o, r);
    } else {
      CreateFirst(s, c, o, r);
    }
  }

  lemma DeleteFirst(s: State, c: Op, o: Op, r: RemoteId)
    requires Contested(s, c, o, r)
    ensures var t := Both(s, o, c); t.Synced(c.item) && t.Rid(c.item) in t.nodes
  {
    var p, name := s.Rid(s.rows[c.item].parent), s.rows[c.item].name;
    var u := Exec(s, o).0;
    assert forall q: RemoteId :: ChildNamed(u.nodes, p, name, q) ==> ChildNamed(s.nodes, p, name, q);
    assert FindChild(u.nodes, p, name, u.clock).None?;
  }

  lemma CreateFirst(s: State, c: Op, o: Op, r: RemoteId)
    requires Contested(s, c, o, r)
    ensures var t := Both(s, c, o); t.Synced(c.item) && (t.Rid(c.item) in t.nodes <==> c.kind == CREATE_FILE)
  {
    var p, name := s.Rid(s.rows[c.item].parent), s.rows[c.item].name;
    assert ChildNamed(s.nodes, p, name, r);
    assert FindChild(s.nodes, p, name, s.clock) == Some(r);
    var u := Exec(s, c).0;
    assert u.rows[c.item].remoteId == Some(r) && r in u.nodes && u.Live(c.item);
    assert u.nodes[r].etag == s.nodes[r].etag <==> c.kind == CREATE_DIR;
  }

  // ---- the smallest such history ----

  const A: Id := 1
  const X: Id := 2

  /** The root and an empty folder `A`, synced. */
  function Start(): State {
    State(map[ROOT := Row(Some(0), 0, "", true, Some(0), false), A := Row(Some(1), ROOT, "A", true, Some(1), false)],
      map[], map[], [], X, 0, map[0 := Node([], "", true, [], 0), 1 := Node([0], "A", true, [], 1)], 2, false)
  }

  const CREATE_X: Op := Op(0, CREATE_DIR, X, None, None)
  const DELETE_A: Op := Op(1, DELETE, A, Some(1), Some(1))

  /** `mkdir X; rmdir A; mv X A`, offline. */
  function Renamed(): State {
    var s := Mkdir(Start(), ROOT, "X");
    var t := DeleteOffline(s, A);
    Rename(t, X, ROOT, "A")
  }

  lemma QueueOfRenamed()
    ensures Renamed().ops == [CREATE_X, DELETE_A]
    ensures Renamed() == Start().(
      rows := map[ROOT := Start().rows[ROOT], A := Start().rows[A].(deleted := true), X := Row(None, ROOT, "A", true, None, false)],
      ops := [CREATE_X, DELETE_A], nextId := 3, nextNumber := 2)
  {
    assert WithoutItem([CREATE_X], A) == [CREATE_X] by { assert [CREATE_X][1..] == []; }
  }

  /** One pass empties the queue, and the drive has lost the folder: the create adopts the
      old `A`, the delete then removes it. */
  lemma RecreatedFolderIsLost()
    ensures var end := Drain(Renamed(), 1);
      end.ops == [] && end.Synced(X) && end.Rid(X) !in end.nodes
  {
    var s := Renamed();
    QueueOfRenamed();
    assert ChildNamed(s.nodes, 0, "A", 1);
    OrderDecides(s, CREATE_X, DELETE_A, 1, false);
    assert s.ops[1..] == [DELETE_A] && [DELETE_A][1..] == [];
    var u := Exec(s, CREATE_X).0;
    assert u.ops == [DELETE_A] by { assert WithoutOp(s.ops, 0) == [DELETE_A] by { assert [DELETE_A][1..] == []; } }
    assert Exec(u, DELETE_A).0.ops == [] by { assert WithoutOp([DELETE_A], 1) == []; }
    assert Pass(s, s.ops) == Pass(u, [DELETE_A]) == Pass(Exec(u, DELETE_A).0, []);
    assert Drain(s, 1) == Drain(Pass(s, s.ops), 0);
  }
}
