/** Worker steps on a drive that somebody else has edited: what each op does to an item
    whose etag is not the one the queue knows. Nothing is assumed of the state. */
module MountForeign {
  import opened Basics
  import opened MountModel
  import opened MountQueue
  import opened MountExec
  import MountConflict

  /** The file's current version is the one the row knows, or the row knows none. */
  predicate Known(s: State, x: Id)
    requires s.Synced(x) && s.Rid(x) in s.nodes
  {
    s.rows[x].etag.None? || s.rows[x].etag == Some(s.nodes[s.Rid(x)].etag)
  }

  /** A queued write against a drive file: a version the row does not know stays as it is,
      and the op stays queued for keep-both; any other is replaced by the staged bytes, and
      the row knows the new one. */
  lemma WriteMeetsVersion(s: State, op: Op)
    requires op.kind == WRITE && op in s.ops && s.Synced(op.item) && op.item in s.staged
    requires s.Rid(op.item) in s.nodes && !s.nodes[s.Rid(op.item)].isFolder
    ensures var (t, outcome) := Exec(s, op); var x, r := op.item, s.Rid(op.item);
      if Known(s, x) then
        && outcome == Finished && op !in t.ops && r in t.nodes && t.nodes[r].content == s.staged[x]
        && t.rows[x].etag == Some(t.nodes[r].etag) && t.nodes[r].etag == s.clock
        && (forall q :: q != r ==> Get(t.nodes, q) == Get(s.nodes, q))
      else outcome == KeepBoth && t == s
  {
  }

  /** A queued delete: the item goes, with everything below it, if and only if its etag is
      the one from the unlink, or none was known then; the op is done either way. */
  lemma DeleteMeetsVersion(s: State, op: Op, r: RemoteId)
    requires op.kind == DELETE && op.target.Some? && op.target.value in s.nodes && r in s.nodes
    ensures var (t, outcome) := Exec(s, op); var d := op.target.value;
      && outcome == Finished && op !in t.ops
      && (r !in t.nodes
          <==> (r == d || d in s.nodes[r].ancestors) && (op.targetEtag.None? || op.targetEtag == Some(s.nodes[d].etag)))
      && (r in t.nodes ==> t.nodes[r] == s.nodes[r])
  {
  }

  /** A queued rename: whatever version the drive has, the item gets the row's name and the
      live parent's folder, its bytes stay, and the row knows the new etag. */
  lemma RenameMeetsVersion(s: State, op: Op, p: RemoteId)
    requires op.kind == RENAME && op in s.ops && s.Synced(op.item) && s.Synced(s.rows[op.item].parent)
    requires s.Rid(op.item) in s.nodes && p == s.Rid(s.rows[op.item].parent) && p in s.nodes
    requires s.Rid(op.item) != p && s.Rid(op.item) !in s.nodes[p].ancestors
    requires !NameTaken(s.nodes, p, s.rows[op.item].name, Some(s.Rid(op.item)))
    ensures var (t, outcome) := Exec(s, op); var x, r := op.item, s.Rid(op.item);
      && outcome == Finished && op !in t.ops && t.nodes.Keys == s.nodes.Keys
      && ChildNamed(t.nodes, p, s.rows[x].name, r) && t.nodes[r].content == s.nodes[r].content
      && t.nodes[r].etag == s.clock && t.rows[x].etag == Some(s.clock)
      && forall q :: q in s.nodes && q != r ==> t.nodes[q].(ancestors := s.nodes[q].ancestors) == s.nodes[q]
  {
  }

  /** A queued create under a name the folder already has: a folder is adopted as it is, a
      file's bytes are replaced, a folder in a file's place is left alone. */
  lemma CreateMeetsNamesake(s: State, op: Op, p: RemoteId, r: RemoteId)
    requires IsCreate(op.kind) && op in s.ops && s.Live(op.item) && s.Synced(s.rows[op.item].parent)
    requires p == s.Rid(s.rows[op.item].parent) && p in s.nodes && s.nodes[p].isFolder
    requires r < s.clock && forall q: RemoteId :: ChildNamed(s.nodes, p, s.rows[op.item].name, q) <==> q == r
    requires s.rows[op.item].parent != op.item
    ensures r in s.nodes
    ensures var (t, outcome) := Exec(s, op); var x := op.item;
      && t.nodes.Keys == s.nodes.Keys
      && (if op.kind == CREATE_DIR then
            outcome == Finished && t.nodes == s.nodes && t.rows[x].remoteId == Some(r) && t.rows[x].etag == Some(s.nodes[r].etag)
          else if s.nodes[r].isFolder then outcome == Failed && t == s
          else
            && outcome == Finished && t.rows[x].remoteId == Some(r) && t.rows[x].etag == Some(t.nodes[r].etag)
            && t.nodes[r].content == (if x in s.staged then s.staged[x] else []))
  {
    assert ChildNamed(s.nodes, p, s.rows[op.item].name, r);
    assert FindChild(s.nodes, p, s.rows[op.item].name, s.clock) == Some(r);
  }

  // ---- the same write, micro-step by micro-step ----

  /** The file as the keep-both protocol sees it when its op's turn comes. */
  function AsFile(s: State, x: Id, op: Option<MountConflict.Status>, files: map<string, Content>, known: set<string>)
    : MountConflict.State
    requires s.Synced(x) && s.Rid(x) in s.nodes && x in s.staged && s.rows[x].etag.Some?
  {
    var v := MountConflict.Version(s.nodes[s.Rid(x)].content, s.nodes[s.Rid(x)].etag);
    MountConflict.State(s.staged[x], s.rows[x].etag.value, v, files, known, true, op, MountConflict.Idle, s.clock,
                        s.staged[x], false, s.rows[x].etag.value, v)
  }

  /** The atomic step and the undisturbed micro-steps agree: where the step finishes they
      leave the same bytes, etags and queue, and where it diverts they copy the staged bytes
      under a free name and take the drive's version. */
  lemma StepIsUninterrupted(
    s: State, op: Op, files: map<string, Content>, known: set<string>, tag: MountConflict.Label, n: nat)
    requires op.kind == WRITE && op in s.ops && s.Synced(op.item) && op.item in s.staged
    requires s.Rid(op.item) in s.nodes && !s.nodes[s.Rid(op.item)].isFolder && s.rows[op.item].etag.Some?
    requires MountConflict.NameFor(known, tag, n)
    ensures var (t, outcome) := Exec(s, op); var x := op.item;
      var end := MountConflict.Uninterrupted(AsFile(s, x, Some(MountConflict.Pending), files, known), tag, n);
      if outcome == Finished then
        && t.Synced(x) && t.Rid(x) in t.nodes && x in t.staged && t.rows[x].etag.Some?
        && end.staged == t.staged[x] && end.base == t.rows[x].etag.value && end.op == None
        && end.remote == MountConflict.Version(t.nodes[t.Rid(x)].content, t.nodes[t.Rid(x)].etag)
      else
        && outcome == KeepBoth && t == s && end.op == None
        && end.remote == MountConflict.Version(s.nodes[s.Rid(x)].content, s.nodes[s.Rid(x)].etag)
        && end.staged == end.remote.content && end.base == end.remote.etag
        && end.files == files[MountConflict.CopyName(tag, n) := s.staged[x]]
  {
  }
}
