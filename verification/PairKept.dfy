/** A remote file that no doomed remote folder is above keeps its bytes, over passes
    stopped or failing anywhere. */
module PairKept {
  import opened Basics
  import opened Paths
  import opened Reconcile
  import opened PairWorld
  import opened PairSafety
  import opened PairEffect
  import opened PairPass
  import opened PairFrame
  import opened PairConverge
  import opened PairSwept
  import opened PairFault

  predicate HasBytes(v: World, q: Path, c: Content) {
    q in v.local && !v.local[q].entry.isFolder && v.local[q].content == c
  }

  /** A remote folder that is not doomed. */
  predicate SafeFolder(v: World, d: Path) {
    d in v.remote && v.remote[d].entry.isFolder && (d in v.local || d !in v.synced)
  }

  predicate SafeFile(v: World, q: Path, c: Content) {
    && q in v.remote && !v.remote[q].entry.isFolder && v.remote[q].content == c
    && (q in v.local ==> !v.local[q].entry.isFolder) && (q in v.synced ==> !v.synced[q].isFolder)
    && (RemoteUnchanged(v, q) ==> HasBytes(v, q, c))
  }

  /** Remote at `q` with bytes `c`; if the baseline says so too, then also local. */
  ghost predicate Safe(v: World, q: Path, c: Content) {
    SafeFile(v, q, c) && forall d :: d != "" && Below(q, d) ==> SafeFolder(v, d)
  }

  /** What a planned action may do near `q`. */
  predicate Spares(pass: Pass, env: Env, a: Action, q: Path) {
    && (a.path == q ==> a.kind in {UPLOAD, DOWNLOAD, CONFLICT})
    && a.path != "" && (Below(q, a.path) ==> a.kind == CREATE_LOCAL_DIR)
    && (a.kind in {CREATE_LOCAL_DIR, DOWNLOAD, CONFLICT} ==> !Below(a.path, q))
    && (a.kind == CONFLICT ==>
          var copy := env.copyName(a.path);
          copy != "" && CopyTarget(pass, copy) == copy && copy != q && !Below(q, copy))
  }

  lemma PlannedSpares(w: World, env: Env, a: Action, bootstrap: bool, q: Path, c: Content)
    requires RemoteRooted(w) && FreshCopies(w, env, bootstrap) && Safe(w, q, c) && w.ActionAt(a.path, bootstrap) == Some(a)
    requires a.path != ""
    ensures Spares(StartPass(w), env, a, q)
    ensures a.path == q ==> Stage(w, a, 0, q, c)
  {
    if Below(q, a.path) { assert SafeFolder(w, a.path); }
    if a.kind in {CREATE_LOCAL_DIR, DOWNLOAD, CONFLICT} && Below(a.path, q) { RemoteAncestors(w, a.path, q); }
    if a.kind == CONFLICT {
      CopyInRooted(w, env, a, bootstrap);
      var copy := env.copyName(a.path);
      assert Below(q, copy) ==> SafeFolder(w, copy);
    }
  }

  /** What holds of `q` after `n` writes of the action at `q`, and of a new folder. */
  predicate Stage(v: World, a: Action, n: nat, q: Path, c: Content) {
    && (a.kind == CREATE_LOCAL_DIR && n >= 1 ==> a.path in v.local)
    && (a.path == q && a.kind == UPLOAD ==> HasBytes(v, q, c))
    && (a.path == q && a.kind == DOWNLOAD && n >= 2 ==> HasBytes(v, q, c))
    && (a.path == q && a.kind == CONFLICT && n >= 5 ==> HasBytes(v, q, c))
    && (a.path == q && a.kind == CONFLICT && n < 6 ==> !RemoteUnchanged(v, q))
  }

  // ---- one write ----

  lemma MkdirSpares(v: World, d: Path, q: Path)
    requires d != q && !Below(d, q)
    ensures Get(MakeLocalFolder(v, d).w.local, q) == Get(v.local, q)
  {
    MakeDirsKeeps(v.local, d);
  }

  /** Somebody else's write leaves the file as it is on both sides. */
  lemma OthersLeaveFile(v: World, pass: Pass, env: Env, a: Action, n: nat, q: Path)
    requires Spares(pass, env, a, q) && a.path != q && q in v.remote && q != ""
    ensures var x := Write(v, pass, env, a, n).w;
      Get(x.remote, q) == Get(v.remote, q) && Get(x.local, q) == Get(v.local, q) && Get(x.synced, q) == Get(v.synced, q)
  {
    RemoteEffect(v, pass, env, a, n, q);
    WriteLeavesBaselines(v, pass, env, a, n, q);
    OthersLeaveLocal(v, pass, env, a, n, q);
  }

  lemma OthersLeaveLocal(v: World, pass: Pass, env: Env, a: Action, n: nat, q: Path)
    requires Spares(pass, env, a, q) && a.path != q && q != ""
    ensures Get(Write(v, pass, env, a, n).w.local, q) == Get(v.local, q)
  {
    var d := Dirname(a.path);
    if d != "" {
      DirnameIsOneUp(a.path);
      if Below(d, q) { BelowTransitive(a.path, d, q); }
    }
    match a.kind
    case CREATE_LOCAL_DIR => MkdirSpares(v, a.path, q);
    case DOWNLOAD => if d != "" { MkdirSpares(v, d, q); }
    case CONFLICT => if d != "" { MkdirSpares(v, d, q); }
    case _ =>
  }

  /** The write of any action leaves the folders above `q` safe. */
  lemma FolderStaysSafe(v: World, pass: Pass, env: Env, a: Action, n: nat, q: Path, d: Path)
    requires Spares(pass, env, a, q) && d != "" && Below(q, d) && SafeFolder(v, d)
    requires n >= 1 && (a.kind == CREATE_LOCAL_DIR && n >= 2 ==> a.path in v.local)
    ensures SafeFolder(Write(v, pass, env, a, n).w, d)
  {
    var x := Write(v, pass, env, a, n).w;
    RemoteEffect(v, pass, env, a, n, d);
    if a.kind == DELETE_REMOTE && Below(d, a.path) { BelowTransitive(q, d, a.path); }
    if a.path != d {
      WriteLeavesBaselines(v, pass, env, a, n, d);
      if d in v.local { WriteLeavesLocal(v, pass, env, a, n, d); }
      assert Get(x.synced, d) == Get(v.synced, d);
    } else {
      MakeDirsKeeps(v.local, d);
    }
  }

  lemma UploadAtFile(v: World, pass: Pass, env: Env, a: Action, n: nat, q: Path, c: Content)
    requires a.path == q && a.kind == UPLOAD && SafeFile(v, q, c) && HasBytes(v, q, c)
    ensures SafeFile(Write(v, pass, env, a, n).w, q, c) && HasBytes(Write(v, pass, env, a, n).w, q, c)
  {
  }

  lemma DownloadAtFile(v: World, pass: Pass, env: Env, a: Action, n: nat, q: Path, c: Content)
    requires a.path == q && q != "" && a.kind == DOWNLOAD && SafeFile(v, q, c) && n >= 1
    requires n >= 3 ==> HasBytes(v, q, c)
    ensures SafeFile(Write(v, pass, env, a, n).w, q, c)
    ensures n >= 2 && Write(v, pass, env, a, n).Done? ==> HasBytes(Write(v, pass, env, a, n).w, q, c)
  {
    var d := Dirname(q);
    if n == 1 && d != "" {
      DirnameIsOneUp(q);
      MkdirSpares(v, d, q);
    }
  }

  lemma ConflictAtFile(v: World, pass: Pass, env: Env, a: Action, n: nat, q: Path, c: Content)
    requires a.path == q && q != "" && a.kind == CONFLICT && SafeFile(v, q, c) && n >= 1 && Spares(pass, env, a, q)
    requires Stage(v, a, n - 1, q, c)
    ensures SafeFile(Write(v, pass, env, a, n).w, q, c)
    ensures Write(v, pass, env, a, n).Done? ==> Stage(Write(v, pass, env, a, n).w, a, n, q, c)
  {
    var d := Dirname(q);
    if n == 4 && d != "" {
      DirnameIsOneUp(q);
      MkdirSpares(v, d, q);
    }
  }

  lemma FolderArrives(v: World, pass: Pass, env: Env, a: Action, n: nat)
    requires a.kind == CREATE_LOCAL_DIR && a.path != "" && n >= 1 && (n >= 2 ==> a.path in v.local)
    ensures Write(v, pass, env, a, n).Done? ==> a.path in Write(v, pass, env, a, n).w.local
  {
    MakeDirsArrives(v.local, a.path);
  }

  lemma MakeDirsArrives(m: map<Path, LocalNode>, d: Path)
    requires d != ""
    ensures MakeDirs(m, d).Some? ==> d in MakeDirs(m, d).value
  {
  }

  lemma WriteKeepsFile(v: World, pass: Pass, env: Env, a: Action, n: nat, q: Path, c: Content)
    requires SafeFile(v, q, c) && q != "" && Spares(pass, env, a, q) && n >= 1 && Stage(v, a, n - 1, q, c)
    ensures var o := Write(v, pass, env, a, n); SafeFile(o.w, q, c) && (o.Done? ==> Stage(o.w, a, n, q, c))
  {
    if a.path != q {
      OthersLeaveFile(v, pass, env, a, n, q);
      if a.kind == CREATE_LOCAL_DIR { FolderArrives(v, pass, env, a, n); }
    } else if a.kind == UPLOAD {
      UploadAtFile(v, pass, env, a, n, q, c);
    } else if a.kind == DOWNLOAD {
      DownloadAtFile(v, pass, env, a, n, q, c);
    } else {
      ConflictAtFile(v, pass, env, a, n, q, c);
    }
  }

  // ---- one action, however far it gets ----

  lemma {:induction false} WritesKeepSafe(v: World, pass: Pass, env: Env, a: Action, n: nat, q: Path, c: Content)
    requires Safe(v, q, c) && q != "" && Spares(pass, env, a, q) && Stage(v, a, 0, q, c)
    ensures var o := Writes(v, pass, env, a, n); Safe(o.w, q, c) && (o.Done? ==> Stage(o.w, a, n, q, c))
  {
    if n > 0 {
      WritesKeepSafe(v, pass, env, a, n - 1, q, c);
      var o := Writes(v, pass, env, a, n - 1);
      if o.Done? {
        WriteKeepsFile(o.w, pass, env, a, n, q, c);
        forall d | d != "" && Below(q, d) ensures SafeFolder(Write(o.w, pass, env, a, n).w, d) {
          assert SafeFolder(o.w, d);
          FolderStaysSafe(o.w, pass, env, a, n, q, d);
        }
      }
    }
  }

  lemma {:induction false} OthersLeaveFileThroughout(v: World, pass: Pass, env: Env, a: Action, n: nat, q: Path)
    requires Spares(pass, env, a, q) && a.path != q && q in v.remote && q != ""
    ensures var x := Writes(v, pass, env, a, n).w;
      Get(x.remote, q) == Get(v.remote, q) && Get(x.local, q) == Get(v.local, q) && Get(x.synced, q) == Get(v.synced, q)
  {
    if n > 0 {
      OthersLeaveFileThroughout(v, pass, env, a, n - 1, q);
      var u := Writes(v, pass, env, a, n - 1).w;
      assert Get(u.remote, q) == Some(v.remote[q]);
      if Writes(v, pass, env, a, n - 1).Done? { OthersLeaveFile(u, pass, env, a, n, q); }
    }
  }

  // ---- passes, each action of which may fail ----

  /** Up to its own action the file is as the pass found it. */
  predicate AsFound(w: World, v: World, q: Path) {
    Get(v.remote, q) == Get(w.remote, q) && Get(v.local, q) == Get(w.local, q) && Get(v.synced, q) == Get(w.synced, q)
  }

  lemma AsFoundStage(w: World, v: World, a: Action, q: Path, c: Content)
    requires Stage(w, a, 0, q, c) && AsFound(w, v, q)
    ensures Stage(v, a, 0, q, c)
  {
    assert q in w.local <==> q in v.local;
    assert q in w.remote <==> q in v.remote;
    assert q in w.synced <==> q in v.synced;
  }

  predicate PlanSpares(w: World, env: Env, acts: seq<Action>, q: Path, c: Content) {
    forall i :: 0 <= i < |acts| ==> Spares(StartPass(w), env, acts[i], q) && (acts[i].path == q ==> Stage(w, acts[i], 0, q, c))
  }

  lemma {:induction false} RunKeepsSafe(w: World, env: Env, acts: seq<Action>, fates: seq<nat>, k: nat, q: Path, c: Content)
    requires k <= |acts| == |fates| && Safe(w, q, c) && q != "" && OnePerPath(acts) && PlanSpares(w, env, acts, q, c)
    ensures var v := FaultyRun(w, StartPass(w), env, acts, fates, k).0;
      && Safe(v, q, c)
      && ((forall i :: 0 <= i < k ==> acts[i].path != q) ==> AsFound(w, v, q))
  {
    if k > 0 {
      RunKeepsSafe(w, env, acts, fates, k - 1, q, c);
      var (v, pass) := FaultyRun(w, StartPass(w), env, acts, fates, k - 1);
      FaultySnapshot(w, StartPass(w), env, acts, fates, k - 1);
      var a := acts[k - 1];
      assert Spares(StartPass(w), env, a, q);
      SameSnapshotSpares(StartPass(w), pass, env, a, q);
      if a.path == q {
        AsFoundStage(w, v, a, q, c);
      } else {
        OthersLeaveFileThroughout(v, pass, env, a, fates[k - 1], q);
      }
      WritesKeepSafe(v, pass, env, a, fates[k - 1], q, c);
    }
  }

  lemma SameSnapshotSpares(p: Pass, p': Pass, env: Env, a: Action, q: Path)
    requires Spares(p, env, a, q) && p.snapshot == p'.snapshot
    ensures Spares(p', env, a, q)
  {
    assert CopyTarget(p', env.copyName(a.path)) == CopyTarget(p, env.copyName(a.path));
  }

  lemma PlanSparesSafe(w: World, env: Env, acts: seq<Action>, bootstrap: bool, q: Path, c: Content)
    requires RemoteRooted(w) && "" !in w.Known()
    requires FreshCopies(w, env, bootstrap) && PlanFor(acts, w, bootstrap) && Safe(w, q, c)
    ensures PlanSpares(w, env, acts, q, c)
  {
    forall i | 0 <= i < |acts|
      ensures Spares(StartPass(w), env, acts[i], q) && (acts[i].path == q ==> Stage(w, acts[i], 0, q, c))
    {
      Planned(acts, w, bootstrap, acts[i]);
      PlannedIsNamed(w, env, acts, bootstrap, i);
      PlannedSpares(w, env, acts[i], bootstrap, q, c);
    }
  }

  /** A remote file no doomed remote folder is above: it keeps its bytes through a pass,
      whatever fails in it, and may face the next pass the same way. */
  lemma PassKeepsSafe(w: World, env: Env, acts: seq<Action>, fates: seq<nat>, bootstrap: bool, q: Path, c: Content)
    requires RemoteRooted(w) && "" !in w.Known() && |acts| == |fates|
    requires FreshCopies(w, env, bootstrap) && PlanFor(acts, w, bootstrap) && Safe(w, q, c)
    ensures Safe(FaultyRun(w, StartPass(w), env, acts, fates, |acts|).0, q, c)
  {
    PlanSparesSafe(w, env, acts, bootstrap, q, c);
    RunKeepsSafe(w, env, acts, fates, |acts|, q, c);
  }

  lemma UnseenIsSafe(w: World, q: Path)
    requires Rooted(w) && q in w.remote && !w.remote[q].entry.isFolder && !RemoteUnchanged(w, q)
    requires forall d :: Below(q, d) ==> !(Doomed(w, d) && d in w.remote)
    ensures Safe(w, q, w.remote[q].content)
  {
    forall d | d != "" && Below(q, d) ensures SafeFolder(w, d) {
      RemoteAncestors(w, q, d);
      assert !(Doomed(w, d) && d in w.remote);
    }
  }

  // ---- any number of passes ----

  /** Without a doomed folder above it, no number of passes, failing wherever they may,
      takes an unseen remote file off the remote side. */
  lemma {:induction false} SafeForever(w: World, xs: seq<FaultyPass>, q: Path, c: Content)
    requires RemoteRooted(w) && "" !in w.Known() && Safe(w, q, c) && Passes(w, xs)
    requires forall x :: x in xs ==> |x.acts| == |x.fates|
    ensures Safe(AfterPasses(w, xs), q, c)
    decreases |xs|
  {
    if xs != [] {
      PassKeepsSafe(w, xs[0].env, xs[0].acts, xs[0].fates, xs[0].bootstrap, q, c);
      PassKeepsRooted(w, xs[0].env, xs[0].acts, xs[0].fates, xs[0].bootstrap);
      SafeForever(AfterPass(w, xs[0]), xs[1..], q, c);
    }
  }
}
