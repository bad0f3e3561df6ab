/** A remote file that somebody else edits between a pass's diff and its own action. */
module PairForeign {
  import opened Basics
  import opened Paths
  import opened Reconcile
  import opened PairWorld
  import opened PairFrame
  import opened PairSweeps

  /** The drive has another version of the same file than the pass's map. */
  predicate EditedSince(v: World, pass: Pass, p: Path) {
    && p in v.remote && !v.remote[p].entry.isFolder && p in pass.snapshot
    && pass.snapshot[p].itemId == v.remote[p].entry.itemId
    && pass.snapshot[p].etag !in {"", v.remote[p].entry.etag}
  }

  /** The action was planned from the pass's map, and everything else is in its place. */
  predicate FromMap(v: World, pass: Pass, env: Env, a: Action) {
    var p := a.path;
    && p in pass.snapshot && a.kind in {UPLOAD, DOWNLOAD, DELETE_REMOTE, CONFLICT}
    && (a.kind != CONFLICT ==> a.itemId == Some(pass.snapshot[p].itemId))
    && (a.kind == UPLOAD ==>
          a.etag == Some(pass.snapshot[p].etag) && pass.Parent(p).Some? && p in v.local && !v.local[p].entry.isFolder)
    && (a.kind == CONFLICT ==> CopyTarget(pass, env.copyName(p)) != p)
  }

  /** Files up to this size go through the call that ignores `If-Match`. */
  predicate Small(c: Content) { |c| <= SIMPLE_UPLOAD_MAX_BYTES }

  lemma {:induction false} StoppedAtOnce(v: World, pass: Pass, env: Env, a: Action, n: nat)
    requires Write(v, pass, env, a, 1) == Stopped(v) && n >= 1
    ensures Writes(v, pass, env, a, n) == Stopped(v)
  {
    if n == 1 { assert Writes(v, pass, env, a, 0) == Done(v); } else { StoppedAtOnce(v, pass, env, a, n - 1); }
  }

  /** The delete is refused, and its baseline stays. */
  lemma DeleteIsRefused(v: World, pass: Pass, env: Env, a: Action)
    requires EditedSince(v, pass, a.path) && FromMap(v, pass, env, a) && a.kind == DELETE_REMOTE
    ensures Writes(v, pass, env, a, STEPS).w == v
  {
    StoppedAtOnce(v, pass, env, a, STEPS);
  }

  lemma LargeUploadIsRefused(v: World, pass: Pass, env: Env, a: Action)
    requires EditedSince(v, pass, a.path) && FromMap(v, pass, env, a) && a.kind == UPLOAD && !Small(v.local[a.path].content)
    ensures Writes(v, pass, env, a, STEPS).w == v
  {
    StoppedAtOnce(v, pass, env, a, STEPS);
  }

  lemma SmallUploadGoesThrough(v: World, pass: Pass, env: Env, a: Action)
    requires EditedSince(v, pass, a.path) && FromMap(v, pass, env, a) && a.kind == UPLOAD && Small(v.local[a.path].content)
    ensures var r := Writes(v, pass, env, a, STEPS).w.remote; a.path in r && r[a.path].content == v.local[a.path].content
  {
    var p := a.path;
    var v1 := UploadWrite(v, pass, env, a, 1).w;
    assert Writes(v, pass, env, a, 0) == Done(v);
    assert Writes(v, pass, env, a, 1) == Done(v1) && v1.remote[p].content == v.local[p].content;
    UploadedStays(v, pass, env, a, STEPS);
  }

  lemma {:induction false} UploadedStays(v: World, pass: Pass, env: Env, a: Action, n: nat)
    requires a.kind == UPLOAD && n >= 1
    ensures Writes(v, pass, env, a, n).w.remote == Writes(v, pass, env, a, 1).w.remote
  {
    if n > 1 { UploadedStays(v, pass, env, a, n - 1); }
  }

  /** Whatever the pass does to the file, the foreign edit stays on the drive, if and only
      if it does not upload a small file over it. */
  lemma ForeignEditStaysIff(v: World, pass: Pass, env: Env, a: Action)
    requires EditedSince(v, pass, a.path) && FromMap(v, pass, env, a)
    requires a.kind == UPLOAD ==> v.local[a.path].content != v.remote[a.path].content
    ensures var r := Writes(v, pass, env, a, STEPS).w.remote; var p := a.path;
      p in r && (r[p].content == v.remote[p].content <==> !(a.kind == UPLOAD && Small(v.local[p].content)))
  {
    if a.kind == DELETE_REMOTE {
      DeleteIsRefused(v, pass, env, a);
    } else if a.kind != UPLOAD {
      PartLeaves(v, pass, env, a, STEPS, a.path);
      assert Get(Writes(v, pass, env, a, STEPS).w.remote, a.path) == Some(v.remote[a.path]);
    } else if Small(v.local[a.path].content) {
      SmallUploadGoesThrough(v, pass, env, a);
    } else {
      LargeUploadIsRefused(v, pass, env, a);
    }
  }

  /** The next diff sees that the file on the drive is not the recorded one. */
  predicate Unrecorded(v: World, p: Path) {
    p in v.remote && (p in v.synced ==> RemotelyEdited(v.remote[p].entry, Some(v.synced[p])))
  }

  lemma WriteKeepsUnrecorded(u: World, pass: Pass, env: Env, a: Action, n: nat)
    requires Unrecorded(u, a.path) && a.kind in {DOWNLOAD, CONFLICT}
    requires a.kind == CONFLICT ==> env.copyName(a.path) != a.path && CopyTarget(pass, env.copyName(a.path)) != a.path
    requires a.path in pass.snapshot && pass.snapshot[a.path].etag != u.remote[a.path].entry.etag
    ensures var w := Write(u, pass, env, a, n).w; Unrecorded(w, a.path) && w.remote[a.path] == u.remote[a.path]
  {
    if a.kind == DOWNLOAD {
      assert DownloadWrite(u, pass, env, a, n).w.remote == u.remote;
    } else {
      assert Get(ConflictWrite(u, pass, env, a.path, n).w.remote, a.path) == Get(u.remote, a.path);
    }
  }

  lemma {:induction false} WritesKeepUnrecorded(v: World, pass: Pass, env: Env, a: Action, n: nat)
    requires EditedSince(v, pass, a.path) && Unrecorded(v, a.path) && a.kind in {DOWNLOAD, CONFLICT}
    requires a.kind == CONFLICT ==> env.copyName(a.path) != a.path && CopyTarget(pass, env.copyName(a.path)) != a.path
    ensures var w := Writes(v, pass, env, a, n).w; Unrecorded(w, a.path) && w.remote[a.path] == v.remote[a.path]
  {
    if n > 0 {
      WritesKeepUnrecorded(v, pass, env, a, n - 1);
      WriteKeepsUnrecorded(Writes(v, pass, env, a, n - 1).w, pass, env, a, n);
    }
  }

  /** An edit that stays is seen by the next diff, wherever the action ends: no baseline
      claims its version. */
  lemma ForeignEditIsSeenNext(v: World, pass: Pass, env: Env, a: Action, n: nat)
    requires EditedSince(v, pass, a.path) && FromMap(v, pass, env, a) && Unrecorded(v, a.path)
    requires a.kind == CONFLICT ==> env.copyName(a.path) != a.path
    requires a.kind == UPLOAD ==> !Small(v.local[a.path].content)
    ensures Unrecorded(Writes(v, pass, env, a, n).w, a.path)
  {
    if a.kind in {DOWNLOAD, CONFLICT} {
      WritesKeepUnrecorded(v, pass, env, a, n);
    } else if n > 0 {
      StoppedAtOnce(v, pass, env, a, n);
    }
  }

  // ---- a concrete edit ----

  const UPLOAD_F: Action := Action("f", UPLOAD, false, Some("F"), Some("e1"))

  /** `f` was edited locally to `[2]`, and to `[3]` on the drive after the diff. */
  function Edited(): World {
    World(
      map["f" := LocalNode(LocalEntry(false, 1, "t2", None), [2])],
      map["f" := RemoteNode(RemoteEntry(false, 1, "e2", "F", None), [3])],
      map["f" := SyncedEntry(Some("F"), Some("e1"), Some("t1"), Some(1), false)])
  }

  function Diffed(): World {
    Edited().(remote := map["f" := RemoteNode(RemoteEntry(false, 1, "e1", "F", None), [1])])
  }

  /** The diff plans an upload, and the upload replaces the edit nobody has seen. */
  lemma EditAfterTheDiffIsOverwritten(env: Env)
    ensures Diffed().ActionAt("f", false) == Some(UPLOAD_F) && EditedSince(Edited(), StartPass(Diffed()), "f")
    ensures var end := Writes(Edited(), StartPass(Diffed()), env, UPLOAD_F, STEPS).w;
      "f" in end.remote && end.remote["f"].content == [2] && Edited().remote["f"].content == [3]
  {
    assert LastSlash("f") == -1;
    assert Dirname("f") == "";
    SmallUploadGoesThrough(Edited(), StartPass(Diffed()), env, UPLOAD_F);
  }
}
