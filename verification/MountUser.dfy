/** What the user finds through the mount is what the user did last, whatever the worker
    does in between. */
module MountUser {
  import opened Basics
  import opened MountModel
  import opened MountInvariant
  import opened MountQueue
  import opened MountEvents
  import opened MountExec
  import opened MountExec2
  import opened MountMove
  import opened MountDrain
  import opened MountHistory

  /** An item as the user sees it: where it is, under which name, what a file reads as, and
      the state of its open handle. */
  datatype Sight = Gone | There(parent: Id, name: string, bytes: Content, handle: Option<Handle>)

  /** What a call makes of it: a write gives it the bytes written, truncation none, a rename
      its new place; an unlink or rmdir makes it disappear. Its handle is dirty from a write
      or truncation to the next flush, and keeps the bytes it was opened on or flushed with. */
  function AfterCall(e: Event, x: Id, sight: Sight): Sight {
    if sight.Gone? then Gone
    else
      match e
      case EvOpen(y, truncate) =>
        if y == x then sight.(bytes := if truncate then [] else sight.bytes, handle := Some(Handle(truncate, sight.bytes)))
        else sight
      case EvWrite(y, bytes) =>
        if y == x && sight.handle.Some? then sight.(bytes := bytes, handle := Some(Handle(true, sight.handle.value.original))) else sight
      case EvFlush(y) => if y == x then sight.(handle := Some(Handle(false, sight.bytes))) else sight
      case EvRelease(y) => if y == x then sight.(handle := None) else sight
      case EvRename(y, parent, name) => if y == x then sight.(parent := parent, name := name) else sight
      case EvUnlink(y) => if y == x then Gone else sight
      case EvRmdir(y) => if y == x then Gone else sight
      case _ => sight
  }

  function LastDone(steps: seq<Step>, x: Id, sight: Sight): Sight
    decreases |steps|
  {
    if steps == [] then sight
    else LastDone(steps[1..], x, match steps[0] case Fuse(e) => AfterCall(e, x, sight) case Work(_) => sight)
  }

  /** The state shows the item like that; a folder reads as nothing. */
  predicate Shows(s: State, x: Id, sight: Sight) {
    match sight
    case Gone => !s.Live(x)
    case There(parent, name, bytes, handle) =>
      && Get(s.handles, x) == handle && s.Live(x) && s.rows[x].parent == parent && s.rows[x].name == name
      && (!s.rows[x].isFolder ==> Get(s.staged, x) == Some(bytes))
  }

  lemma CallShows(s: State, rank: map<Id, nat>, e: Event, x: Id, sight: Sight)
    requires Inv(s, rank) && Possible(s, Fuse(e)) && x < s.nextId && Shows(s, x, sight)
    ensures Shows(Next(s, Fuse(e)), x, AfterCall(e, x, sight)) && x < Next(s, Fuse(e)).nextId
  {
    if e.EvCreate? || e.EvMkdir? {
      NewItemIsApart(s, e, x, sight);
    } else {
      assert HandleOk(s, e.x) && RowOk(s, rank, e.x);
      if e.EvRename? || e.EvUnlink? || e.EvRmdir? {
        PlaceShows(s, e, x, sight);
      } else {
        BytesShow(s, e, x, sight);
      }
    }
  }

  lemma NewItemIsApart(s: State, e: Event, x: Id, sight: Sight)
    requires (e.EvCreate? || e.EvMkdir?) && x < s.nextId && Shows(s, x, sight)
    ensures Shows(Next(s, Fuse(e)), x, sight) && x < Next(s, Fuse(e)).nextId
  {
  }

  lemma PlaceShows(s: State, e: Event, x: Id, sight: Sight)
    requires (e.EvRename? || e.EvUnlink? || e.EvRmdir?) && s.Live(e.x) && Shows(s, x, sight)
    ensures Shows(Next(s, Fuse(e)), x, AfterCall(e, x, sight)) && Next(s, Fuse(e)).nextId == s.nextId
  {
  }

  lemma BytesShow(s: State, e: Event, x: Id, sight: Sight)
    requires e.EvOpen? || e.EvWrite? || e.EvFlush? || e.EvRelease?
    requires Shows(s, x, sight) && Possible(s, Fuse(e)) && (e.EvOpen? ==> e.x in s.staged) && HandleOk(s, e.x)
    ensures Shows(Next(s, Fuse(e)), x, AfterCall(e, x, sight)) && Next(s, Fuse(e)).nextId == s.nextId
  {
  }

  /** No worker step moves, renames or removes a row, or touches the staged bytes. */
  predicate SameSight(s: State, t: State) {
    && t.staged == s.staged && t.handles == s.handles && t.nextId == s.nextId && t.rows.Keys == s.rows.Keys
    && forall y :: y in s.rows ==>
         t.rows[y] == s.rows[y].(remoteId := t.rows[y].remoteId, etag := t.rows[y].etag)
  }

  lemma WorkKeepsSight(s: State, op: Op)
    ensures SameSight(s, Exec(s, op).0)
  {
    if op.kind == DELETE || !s.Live(op.item) {
    } else if op.kind == WRITE {
      WriteKeepsSight(s, op);
    } else if op.kind == RENAME {
      MoveKeepsSight(s, op);
    } else {
      CreateKeepsSight(s, op);
    }
  }

  lemma WriteKeepsSight(s: State, op: Op)
    requires s.Live(op.item)
    ensures SameSight(s, ExecWrite(s, op).0)
  {
  }

  lemma MoveKeepsSight(s: State, op: Op)
    requires s.Live(op.item)
    ensures SameSight(s, ExecRename(s, op).0)
  {
  }

  lemma CreateKeepsSight(s: State, op: Op)
    requires s.Live(op.item)
    ensures SameSight(s, ExecCreate(s, op).0)
  {
    var t := ExecCreate(s, op).0;
    assert t.staged == s.staged && t.handles == s.handles && t.nextId == s.nextId;
    if t.rows != s.rows { ConfirmKeepsSight(s, t, op.item, t.rows[op.item].remoteId, t.rows[op.item].etag); }
  }

  lemma ConfirmKeepsSight(s: State, t: State, x: Id, r: Option<RemoteId>, etag: Option<Etag>)
    requires x in s.rows && t.rows == s.rows[x := s.rows[x].(remoteId := r, etag := etag)]
    requires t.staged == s.staged && t.handles == s.handles && t.nextId == s.nextId
    ensures SameSight(s, t)
  {
  }

  /** Over any interleaving of calls and worker steps every item is where the last rename put
      it, reads as the last write left it, has its handle dirty if and only if it was written
      or truncated since the last flush, and is gone from its unlink or rmdir on. */
  lemma {:induction false} RunShowsWhatWasDone(s: State, rank: map<Id, nat>, steps: seq<Step>, x: Id, sight: Sight)
    requires Inv(s, rank) && Feasible(s, steps) && x < s.nextId && Shows(s, x, sight)
    ensures Shows(Run(s, steps), x, LastDone(steps, x, sight))
    decreases |steps|
  {
    if steps != [] {
      var r := StepKeepsInv(s, rank, steps[0]);
      var next := match steps[0] case Fuse(e) => AfterCall(e, x, sight) case Work(_) => sight;
      match steps[0] {
        case Fuse(e) => CallShows(s, rank, e, x, sight);
        case Work(op) => WorkKeepsSight(s, op);
      }
      RunShowsWhatWasDone(Next(s, steps[0]), r, steps[1..], x, next);
    }
  }

  /** A new item is shown where it was made, a folder or an empty file with a dirty handle. */
  lemma NewItemShows(s: State, rank: map<Id, nat>, parent: Id, name: string, isFolder: bool)
    requires Inv(s, rank)
    requires Possible(s, Fuse(if isFolder then EvMkdir(parent, name) else EvCreate(parent, name)))
    ensures var t := Next(s, Fuse(if isFolder then EvMkdir(parent, name) else EvCreate(parent, name)));
      && s.nextId !in s.rows && s.nextId < t.nextId
      && Shows(t, s.nextId, There(parent, name, [], if isFolder then None else Some(Handle(true, []))))
      && t.rows[s.nextId].isFolder == isFolder
  {
    assert RowOk(s, rank, s.nextId) && HandleOk(s, s.nextId);
  }
}
