/** A create that took effect on the drive while its reply was lost: the retry finds its
    own item by name. */
module MountRetry {
  import opened Basics
  import opened MountModel
  import opened MountInvariant
  import opened MountQueue
  import opened MountEvents
  import opened MountExec
  import opened MountDrain

  /** The item is on the drive; the row and the queue know nothing of it. */
  function ReplyLost(s: State, op: Op): State
    requires s.Live(op.item) && s.Synced(s.rows[op.item].parent) && s.Rid(s.rows[op.item].parent) in s.nodes
  {
    s.(nodes := Created(s, op).nodes, clock := Created(s, op).clock)
  }

  /** Until the retry the user may have renamed the item. */
  function RenamedSince(s: State, x: Id, parent: Id, name: string): State
    requires x in s.rows
  {
    s.(rows := s.rows[x := s.rows[x].(parent := parent, name := name)])
  }

  ghost predicate Vacant(s: State, parent: Id, name: string)
    requires s.Synced(parent)
  {
    && s.Rid(parent) in s.nodes && s.nodes[s.Rid(parent)].isFolder
    && forall q: RemoteId :: !ChildNamed(s.nodes, s.Rid(parent), name, q)
  }

  lemma OnlyTheLostItem(s: State, rank: map<Id, nat>, op: Op, parent: Id, name: string)
    requires Inv(s, rank) && CreateReady(s, op)
    requires s.Synced(parent) && Vacant(s, parent, name)
    ensures forall q: RemoteId ::
      ChildNamed(ReplyLost(s, op).nodes, s.Rid(parent), name, q)
      <==> q == s.clock && parent == s.rows[op.item].parent && name == s.rows[op.item].name
  {
    ServerIdsBelowClock(s, rank);
    var t := ReplyLost(s, op);
    forall q: RemoteId | q != s.clock ensures !ChildNamed(t.nodes, s.Rid(parent), name, q) {
      assert !ChildNamed(s.nodes, s.Rid(parent), name, q);
    }
  }

  predicate Unmoved(s: State, x: Id, parent: Id, name: string)
    requires x in s.rows
  {
    parent == s.rows[x].parent && name == s.rows[x].name
  }

  /** The retry adopts the item its lost call made, and makes no second one, if and only if
      the item was not renamed in between. */
  lemma RetryAdoptsIff(s: State, rank: map<Id, nat>, op: Op, parent: Id, name: string)
    requires Inv(s, rank) && CreateReady(s, op)
    requires s.Synced(parent) && Vacant(s, parent, name)
    ensures var t := RenamedSince(ReplyLost(s, op), op.item, parent, name);
      var (end, outcome) := Exec(t, op);
      && outcome == Finished && op !in end.ops && end.Synced(op.item)
      && end.Rid(op.item) == (if Unmoved(s, op.item, parent, name) then s.clock else s.clock + 1)
      && end.nodes.Keys == s.nodes.Keys + (if Unmoved(s, op.item, parent, name) then {s.clock} else {s.clock, s.clock + 1})
  {
    assert OpOk(s, op) && op.item != parent;
    DropFacts(s, op);
    if Unmoved(s, op.item, parent, name) {
      assert RenamedSince(ReplyLost(s, op), op.item, parent, name) == ReplyLost(s, op);
      RetryAdopts(s, rank, op);
    } else {
      RetryMakesSecond(s, rank, op, parent, name);
    }
  }

  lemma RetryAdopts(s: State, rank: map<Id, nat>, op: Op)
    requires Inv(s, rank) && CreateReady(s, op)
    requires Vacant(s, s.rows[op.item].parent, s.rows[op.item].name)
    ensures var (end, outcome) := Exec(ReplyLost(s, op), op);
      outcome == Finished && end.Synced(op.item) && end.ops == WithoutOp(s.ops, op.number)
      && end.Rid(op.item) == s.clock && end.nodes.Keys == s.nodes.Keys + {s.clock}
  {
    var t, x := ReplyLost(s, op), op.item;
    OnlyTheLostItem(s, rank, op, s.rows[x].parent, s.rows[x].name);
    ServerIdsBelowClock(s, rank);
    assert ChildNamed(t.nodes, s.Rid(s.rows[x].parent), s.rows[x].name, s.clock);
    assert FindChild(t.nodes, s.Rid(s.rows[x].parent), s.rows[x].name, t.clock) == Some(s.clock);
  }

  lemma NoChildNoFind(nodes: map<RemoteId, Node>, p: RemoteId, name: string, limit: nat)
    requires forall q: RemoteId :: !ChildNamed(nodes, p, name, q)
    ensures FindChild(nodes, p, name, limit) == None
  {
  }

  lemma RetryMakesSecond(s: State, rank: map<Id, nat>, op: Op, parent: Id, name: string)
    requires Inv(s, rank) && CreateReady(s, op) && op.item != parent
    requires s.Synced(parent) && Vacant(s, parent, name) && !Unmoved(s, op.item, parent, name)
    ensures var (end, outcome) := Exec(RenamedSince(ReplyLost(s, op), op.item, parent, name), op);
      outcome == Finished && end.Synced(op.item) && end.ops == WithoutOp(s.ops, op.number)
      && end.Rid(op.item) == s.clock + 1 && end.nodes.Keys == s.nodes.Keys + {s.clock, s.clock + 1}
  {
    var t := RenamedSince(ReplyLost(s, op), op.item, parent, name);
    OnlyTheLostItem(s, rank, op, parent, name);
    ServerIdsBelowClock(s, rank);
    NoChildNoFind(t.nodes, s.Rid(parent), name, t.clock);
    assert t.Synced(parent) && t.Rid(parent) == s.Rid(parent);
    assert t.nodes[s.Rid(parent)] == s.nodes[s.Rid(parent)];
  }
}
