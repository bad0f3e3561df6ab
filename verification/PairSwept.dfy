/** Exactly which unseen remote files two passes destroy. */
module PairSwept {
  import opened Basics
  import opened Paths
  import opened Reconcile
  import opened PairWorld
  import opened PairSafety
  import opened PairEffect
  import opened PairPass
  import opened PairFrame
  import opened PairConverge
  import opened PairFault

  // ---- below a doomed remote folder: fetched, swept, then deleted ----

  /** Fetched and baselined. */
  predicate Fetched(v: World, q: Path, c: Content) {
    && q in v.local && !v.local[q].entry.isFolder && q in v.synced && !v.synced[q].isFolder && LocalUnchanged(v, q)
    && v.local[q].content == c
  }

  /** Everything but the remote deletes runs whole; some of these may be refused. */
  ghost predicate OnlyDeletesFail(acts: seq<Action>, fates: seq<nat>) {
    |acts| == |fates| && forall i :: 0 <= i < |acts| && acts[i].kind != DELETE_REMOTE ==> fates[i] == STEPS
  }

  lemma FetchIsBaselined(w: World, v: World, pass: Pass, env: Env, a: Action, q: Path)
    requires Reachable(w, v, q) && pass.snapshot == w.RemoteMap() && q != ""
    requires a.path == q && a.itemId == Some(w.remote[q].entry.itemId) && a.kind == DOWNLOAD && !w.remote[q].entry.isFolder
    ensures Fetched(Writes(v, pass, env, a, STEPS).w, q, w.remote[q].content)
  {
    var d := Dirname(q);
    if d != "" {
      DirnameIsOneUp(q);
      forall x | Below(d, x) ensures Below(q, x) { BelowTransitive(q, d, x); }
    }
    MakeDirsSucceeds(v.local, d);
    MakeDirsKeeps(v.local, d);
    assert d == "" ==> MakeDirs(v.local, d) == Some(v.local);
    var v1 := v.(local := MakeDirs(v.local, d).value);
    assert Writes(v, pass, env, a, 0) == Done(v);
    assert Writes(v, pass, env, a, 1) == Done(v1);
    assert q !in v1.local by { assert |d| < |q|; }
    var v2 := v1.(local := v1.local[q := Downloaded(env, q, v.remote[q].content)]);
    assert Writes(v, pass, env, a, 2) == Done(v2);
    var v3 := Writes(v, pass, env, a, 3).w;
    assert Writes(v, pass, env, a, 3) == Done(v3) && Fetched(v3, q, w.remote[q].content);
    assert Writes(v, pass, env, a, 4) == Done(v3);
    assert Writes(v, pass, env, a, 5) == Done(v3);
    assert Writes(v, pass, env, a, STEPS) == Done(v3);
  }

  /** Actions that may not write to `q` leave what was fetched. */
  lemma {:induction false} StaysFetched(
    w: World, env: Env, acts: seq<Action>, fates: seq<nat>, i: nat, k: nat, q: Path, c: Content)
    requires i <= k <= |acts| == |fates| && Fetched(FaultyRun(w, StartPass(w), env, acts, fates, i).0, q, c)
    requires forall m :: i <= m < |acts| ==> !MayWrite(StartPass(w), env, acts[m], q)
    ensures Fetched(FaultyRun(w, StartPass(w), env, acts, fates, k).0, q, c)
  {
    if i < k {
      StaysFetched(w, env, acts, fates, i, k - 1, q, c);
      var (v, pass) := FaultyRun(w, StartPass(w), env, acts, fates, k - 1);
      FaultySnapshot(w, StartPass(w), env, acts, fates, k - 1);
      assert CopyTarget(pass, env.copyName(acts[k - 1].path)) == CopyTarget(StartPass(w), env.copyName(acts[k - 1].path));
      assert !MayWrite(pass, env, acts[k - 1], q);
      WritesLeaveOthers(v, pass, env, acts[k - 1], fates[k - 1], q);
      var x := Writes(v, pass, env, acts[k - 1], fates[k - 1]).w;
      assert q in v.synced && Get(x.synced, q) == Some(v.synced[q]);
    }
  }

  lemma OthersSpare(w: World, env: Env, acts: seq<Action>, i: nat, m: nat)
    requires Rooted(w) && FreshCopies(w, env, false) && PlanFor(acts, w, false) && i < |acts| && m < |acts| && i != m
    ensures !MayWrite(StartPass(w), env, acts[m], acts[i].path)
  {
    Planned(acts, w, false, acts[m]);
    Planned(acts, w, false, acts[i]);
    assert acts[i].path != acts[m].path;
    if acts[m].kind == CONFLICT { CopyLandsOnItsName(w, env, StartPass(w), acts[m]); }
  }

  lemma FetchedAtItsTurn(w: World, env: Env, acts: seq<Action>, i: nat, d: Path)
    requires Rooted(w) && FreshCopies(w, env, false) && PlanFor(acts, w, false)
    requires i < |acts| && Swept(w, acts[i].path, d) && !w.remote[acts[i].path].entry.isFolder
    ensures Fetched(Run(w, StartPass(w), env, acts, i + 1).0, acts[i].path, w.remote[acts[i].path].content)
  {
    FetchIsReady(w, env, acts, i, d);
    SnapshotStays(w, env, acts, i);
    var (v, pass) := Run(w, StartPass(w), env, acts, i);
    FetchIsBaselined(w, v, pass, env, acts[i], acts[i].path);
  }

  /** Nothing is deleted before the fetch. */
  lemma WholeUpToFetch(w: World, env: Env, acts: seq<Action>, fates: seq<nat>, i: nat)
    requires PlanFor(acts, w, false) && OnlyDeletesFail(acts, fates) && i < |acts| && !IsDelete(acts[i])
    ensures FaultyRun(w, StartPass(w), env, acts, fates, i + 1) == Run(w, StartPass(w), env, acts, i + 1)
  {
    forall m | 0 <= m < i + 1 ensures fates[m] == STEPS {
      if m < i { assert MayPrecede(acts[m], acts[i]); }
    }
    FaultlessRun(w, StartPass(w), env, acts, fates, i + 1);
  }

  /** Whatever deletes are refused, the first pass fetches the file. */
  lemma FirstPassFetches(w: World, env: Env, acts: seq<Action>, fates: seq<nat>, q: Path, d: Path)
    requires Rooted(w) && FreshCopies(w, env, false) && PlanFor(acts, w, false) && OnlyDeletesFail(acts, fates)
    requires Swept(w, q, d) && !w.remote[q].entry.isFolder
    ensures Fetched(FaultyRun(w, StartPass(w), env, acts, fates, |acts|).0, q, w.remote[q].content)
  {
    UnclassifiedIsOnBothSides(w, q);
    var i := PlannedAt(w, acts, q);
    FetchedEarly(w, env, acts, fates, i, d);
    FetchedLater(w, env, acts, fates, i, w.remote[q].content);
  }

  lemma FetchedEarly(w: World, env: Env, acts: seq<Action>, fates: seq<nat>, i: nat, d: Path)
    requires Rooted(w) && FreshCopies(w, env, false) && PlanFor(acts, w, false) && OnlyDeletesFail(acts, fates)
    requires i < |acts| && Swept(w, acts[i].path, d) && !w.remote[acts[i].path].entry.isFolder
    ensures Fetched(FaultyRun(w, StartPass(w), env, acts, fates, i + 1).0, acts[i].path, w.remote[acts[i].path].content)
  {
    FetchIsReady(w, env, acts, i, d);
    FetchedAtItsTurn(w, env, acts, i, d);
    WholeUpToFetch(w, env, acts, fates, i);
  }

  lemma FetchedLater(w: World, env: Env, acts: seq<Action>, fates: seq<nat>, i: nat, c: Content)
    requires Rooted(w) && FreshCopies(w, env, false) && PlanFor(acts, w, false) && i < |acts| == |fates|
    requires Fetched(FaultyRun(w, StartPass(w), env, acts, fates, i + 1).0, acts[i].path, c)
    ensures Fetched(FaultyRun(w, StartPass(w), env, acts, fates, |acts|).0, acts[i].path, c)
  {
    LaterOnesSpare(w, env, acts, i);
    StaysFetched(w, env, acts, fates, i + 1, |acts|, acts[i].path, c);
  }

  lemma LaterOnesSpare(w: World, env: Env, acts: seq<Action>, i: nat)
    requires Rooted(w) && FreshCopies(w, env, false) && PlanFor(acts, w, false) && i < |acts|
    ensures forall m :: i + 1 <= m < |acts| ==> !MayWrite(StartPass(w), env, acts[m], acts[i].path)
  {
    forall m | i + 1 <= m < |acts| ensures !MayWrite(StartPass(w), env, acts[m], acts[i].path) {
      OthersSpare(w, env, acts, i, m);
    }
  }

  /** The fetch's own turn. */
  lemma FetchIsReady(w: World, env: Env, acts: seq<Action>, i: nat, d: Path)
    requires Rooted(w) && FreshCopies(w, env, false) && PlanFor(acts, w, false)
    requires i < |acts| && Swept(w, acts[i].path, d) && !w.remote[acts[i].path].entry.isFolder
    ensures acts[i].path != "" && acts[i].kind == DOWNLOAD
    ensures acts[i].itemId == Some(w.remote[acts[i].path].entry.itemId)
    ensures Reachable(w, Run(w, StartPass(w), env, acts, i).0, acts[i].path)
  {
    var q := acts[i].path;
    StartsReachable(w, q, d);
    forall k | 0 <= k < i ensures PassesBy(w, env, acts[k], q) {
      EarlierPassesBy(w, env, acts, i, k, d);
    }
    RunKeepsReachable(w, env, acts, i, q);
    Planned(acts, w, false, acts[i]);
    SweptActions(w, q, d, acts[i]);
  }

  // ---- the second pass ----

  /** Remote entries stay in remote folders, whatever an action does. */
  lemma WriteKeepsRemoteRooted(v: World, pass: Pass, env: Env, a: Action, n: nat)
    requires RemoteRooted(v) && a.path != "" && (a.kind == CONFLICT ==> CopyTarget(pass, env.copyName(a.path)) != "")
    ensures RemoteRooted(Write(v, pass, env, a, n).w)
  {
    var x := Write(v, pass, env, a, n).w;
    forall q | q in x.remote ensures q != "" && HasRemoteFolder(x, q) {
      RemoteFolderKept(v, pass, env, a, n, q);
    }
  }

  lemma RemoteFolderKept(v: World, pass: Pass, env: Env, a: Action, n: nat, q: Path)
    requires RemoteRooted(v) && a.path != "" && (a.kind == CONFLICT ==> CopyTarget(pass, env.copyName(a.path)) != "")
    requires q in Write(v, pass, env, a, n).w.remote
    ensures q != "" && HasRemoteFolder(Write(v, pass, env, a, n).w, q)
  {
    var d := Dirname(q);
    if q !in v.remote { NewRemoteHasFolder(v, pass, env, a, n, q); }
    assert HasRemoteFolder(v, q);
    if d != "" {
      DirnameIsOneUp(q);
      if a.kind == DELETE_REMOTE && Below(d, a.path) { BelowTransitive(q, d, a.path); }
      FolderKept(v, pass, env, a, n, q, d);
    }
  }

  lemma NewRemoteHasFolder(v: World, pass: Pass, env: Env, a: Action, n: nat, q: Path)
    requires a.path != "" && (a.kind == CONFLICT ==> CopyTarget(pass, env.copyName(a.path)) != "")
    requires q !in v.remote && q in Write(v, pass, env, a, n).w.remote
    ensures q != "" && HasRemoteFolder(v, q)
  {
  }

  lemma FolderKept(v: World, pass: Pass, env: Env, a: Action, n: nat, q: Path, d: Path)
    requires d in v.remote && v.remote[d].entry.isFolder && Below(q, d)
    requires a.kind == DELETE_REMOTE && Below(d, a.path) ==> Below(q, a.path)
    requires q in Write(v, pass, env, a, n).w.remote
    ensures d in Write(v, pass, env, a, n).w.remote && Write(v, pass, env, a, n).w.remote[d].entry.isFolder
  {
    if a.kind == CONFLICT {
      ConflictKeepsFolder(v, pass, env, a, n, d);
    } else if a.kind == UPLOAD {
      UploadKeepsFolder(v, pass, env, a, n, d);
    } else if a.kind == CREATE_REMOTE_DIR {
      CreateKeepsFolder(v, pass, env, a, n, d);
    } else {
      RemoteEffect(v, pass, env, a, n, d);
    }
  }

  lemma ConflictKeepsFolder(v: World, pass: Pass, env: Env, a: Action, n: nat, d: Path)
    requires d in v.remote && v.remote[d].entry.isFolder && a.kind == CONFLICT
    ensures d in Write(v, pass, env, a, n).w.remote && Write(v, pass, env, a, n).w.remote[d].entry.isFolder
  {
  }

  lemma CreateKeepsFolder(v: World, pass: Pass, env: Env, a: Action, n: nat, d: Path)
    requires d in v.remote && v.remote[d].entry.isFolder && a.kind == CREATE_REMOTE_DIR
    ensures d in Write(v, pass, env, a, n).w.remote && Write(v, pass, env, a, n).w.remote[d].entry.isFolder
  {
  }

  lemma UploadKeepsFolder(v: World, pass: Pass, env: Env, a: Action, n: nat, d: Path)
    requires d in v.remote && v.remote[d].entry.isFolder && a.kind == UPLOAD
    ensures d in Write(v, pass, env, a, n).w.remote && Write(v, pass, env, a, n).w.remote[d].entry.isFolder
  {
  }

  lemma CopyInRooted(v: World, env: Env, a: Action, bootstrap: bool)
    requires RemoteRooted(v) && FreshCopies(v, env, bootstrap) && v.ActionAt(a.path, bootstrap) == Some(a) && a.kind == CONFLICT
    ensures CopyTarget(StartPass(v), env.copyName(a.path)) == env.copyName(a.path)
    ensures env.copyName(a.path) !in v.Known() && env.copyName(a.path) != ""
  {
    assert InConflict(v, a.path, bootstrap);
    assert a.path in v.remote;
    assert HasRemoteFolder(v, a.path);
  }

  predicate Named(w: World, env: Env, a: Action) {
    a.path != "" && (a.kind == CONFLICT ==>
      env.copyName(a.path) != "" && CopyTarget(StartPass(w), env.copyName(a.path)) != "")
  }

  lemma PlannedIsNamed(w: World, env: Env, acts: seq<Action>, bootstrap: bool, k: nat)
    requires RemoteRooted(w) && "" !in w.Known()
    requires FreshCopies(w, env, bootstrap) && PlanFor(acts, w, bootstrap) && k < |acts|
    ensures Named(w, env, acts[k])
  {
    Planned(acts, w, bootstrap, acts[k]);
    if acts[k].kind == CONFLICT { CopyInRooted(w, env, acts[k], bootstrap); }
  }

  /** No entry gets the empty path. */
  lemma WriteKeepsNamed(v: World, pass: Pass, env: Env, a: Action, n: nat)
    requires "" !in v.Known() && a.path != ""
    requires a.kind == CONFLICT ==> env.copyName(a.path) != "" && CopyTarget(pass, env.copyName(a.path)) != ""
    ensures "" !in Write(v, pass, env, a, n).w.Known()
  {
    RemoteEffect(v, pass, env, a, n, "");
    WriteLeavesBaselines(v, pass, env, a, n, "");
    NoEmptyLocal(v, pass, env, a, n);
    var x := Write(v, pass, env, a, n).w;
    assert Get(x.synced, "") == Get(v.synced, "");
    assert "" !in x.remote;
  }

  lemma NoEmptyLocal(v: World, pass: Pass, env: Env, a: Action, n: nat)
    requires "" !in v.local && a.path != "" && (a.kind == CONFLICT ==> env.copyName(a.path) != "")
    ensures "" !in Write(v, pass, env, a, n).w.local
  {
    match a.kind
    case CREATE_LOCAL_DIR => MakeDirsKeeps(v.local, a.path);
    case DOWNLOAD => MakeDirsKeeps(v.local, Dirname(a.path));
    case CONFLICT => MakeDirsKeeps(v.local, Dirname(a.path));
    case _ =>
  }

  lemma {:induction false} WritesKeepRemoteRooted(v: World, pass: Pass, env: Env, a: Action, n: nat)
    requires RemoteRooted(v) && a.path != "" && (a.kind == CONFLICT ==> CopyTarget(pass, env.copyName(a.path)) != "")
    ensures RemoteRooted(Writes(v, pass, env, a, n).w)
  {
    if n > 0 {
      WritesKeepRemoteRooted(v, pass, env, a, n - 1);
      if Writes(v, pass, env, a, n - 1).Done? {
        WriteKeepsRemoteRooted(Writes(v, pass, env, a, n - 1).w, pass, env, a, n);
      }
    }
  }

  lemma {:induction false} WritesKeepNamed(v: World, pass: Pass, env: Env, a: Action, n: nat)
    requires "" !in v.Known() && a.path != ""
    requires a.kind == CONFLICT ==> env.copyName(a.path) != "" && CopyTarget(pass, env.copyName(a.path)) != ""
    ensures "" !in Writes(v, pass, env, a, n).w.Known()
  {
    if n > 0 {
      WritesKeepNamed(v, pass, env, a, n - 1);
      if Writes(v, pass, env, a, n - 1).Done? {
        WriteKeepsNamed(Writes(v, pass, env, a, n - 1).w, pass, env, a, n);
      }
    }
  }

  /** Whatever fails in a pass, the remote tree stays a tree. */
  lemma {:induction false} FaultyKeepsRooted(w: World, env: Env, acts: seq<Action>, fates: seq<nat>, k: nat)
    requires TreeOf(w) && k <= |acts| == |fates| && forall m :: 0 <= m < k ==> Named(w, env, acts[m])
    ensures TreeOf(FaultyRun(w, StartPass(w), env, acts, fates, k).0)
  {
    if k > 0 {
      FaultyKeepsRooted(w, env, acts, fates, k - 1);
      FaultySnapshot(w, StartPass(w), env, acts, fates, k - 1);
      var (v, pass) := FaultyRun(w, StartPass(w), env, acts, fates, k - 1);
      assert Named(w, env, acts[k - 1]);
      PartKeepsTree(w, v, pass, env, acts[k - 1], fates[k - 1]);
    }
  }

  ghost predicate TreeOf(v: World) { RemoteRooted(v) && "" !in v.Known() }

  lemma PartKeepsTree(w: World, v: World, pass: Pass, env: Env, a: Action, n: nat)
    requires TreeOf(v) && Named(w, env, a) && pass.snapshot == w.RemoteMap()
    ensures TreeOf(Writes(v, pass, env, a, n).w)
  {
    PartKeepsRooted(w, v, pass, env, a, n);
  }

  lemma PartKeepsRooted(w: World, v: World, pass: Pass, env: Env, a: Action, n: nat)
    requires Named(w, env, a) && pass.snapshot == w.RemoteMap() && RemoteRooted(v) && "" !in v.Known()
    ensures var u := Writes(v, pass, env, a, n).w; RemoteRooted(u) && "" !in u.Known()
  {
    assert CopyTarget(pass, env.copyName(a.path)) == CopyTarget(StartPass(w), env.copyName(a.path));
    WritesKeepRemoteRooted(v, pass, env, a, n);
    WritesKeepNamed(v, pass, env, a, n);
  }

  lemma PassKeepsRooted(w: World, env: Env, acts: seq<Action>, fates: seq<nat>, bootstrap: bool)
    requires RemoteRooted(w) && "" !in w.Known() && |acts| == |fates|
    requires FreshCopies(w, env, bootstrap) && PlanFor(acts, w, bootstrap)
    ensures var v := FaultyRun(w, StartPass(w), env, acts, fates, |acts|).0; RemoteRooted(v) && "" !in v.Known()
  {
    forall m | 0 <= m < |acts| ensures Named(w, env, acts[m]) { PlannedIsNamed(w, env, acts, bootstrap, m); }
    FaultyKeepsRooted(w, env, acts, fates, |acts|);
  }

  /** A local file without a remote counterpart, unchanged since it was fetched. */
  predicate Forsaken(v: World, q: Path, c: Content) { Fetched(v, q, c) && q !in v.remote }

  /** What the second pass makes of it, and what the other actions spare. */
  lemma ForsakenActions(v: World, env: Env, acts: seq<Action>, i: nat, k: nat, c: Content)
    requires RemoteRooted(v) && FreshCopies(v, env, false) && PlanFor(acts, v, false)
    requires i < |acts| && k < |acts| && Forsaken(v, acts[i].path, c)
    ensures acts[i].kind == DELETE_LOCAL
    ensures i != k ==> !MayWrite(StartPass(v), env, acts[k], acts[i].path)
    ensures i < k ==> IsDelete(acts[k])
  {
    Planned(acts, v, false, acts[i]);
    Planned(acts, v, false, acts[k]);
    if i < k { assert MayPrecede(acts[i], acts[k]); }
    if acts[k].kind == CONFLICT { CopyInRooted(v, env, acts[k], false); }
  }

  lemma {:induction false} StaysAbsent(v: World, pass: Pass, env: Env, a: Action, n: nat, q: Path)
    requires q !in v.remote && (a.path == q ==> a.kind == DELETE_LOCAL) && (a.path != q ==> !MayWrite(pass, env, a, q))
    ensures q !in Writes(v, pass, env, a, n).w.remote
  {
    if n > 0 {
      StaysAbsent(v, pass, env, a, n - 1, q);
      if Writes(v, pass, env, a, n - 1).Done? {
        WriteKeepsAbsent(Writes(v, pass, env, a, n - 1).w, pass, env, a, n, q);
      }
    }
  }

  lemma {:induction false} DeletesOnlyShrink(v: World, pass: Pass, env: Env, a: Action, n: nat, q: Path)
    requires IsDelete(a) && q !in v.local
    ensures q !in Writes(v, pass, env, a, n).w.local
  {
    if n > 0 { DeletesOnlyShrink(v, pass, env, a, n - 1, q); }
  }

  lemma DeleteRuns(v: World, pass: Pass, env: Env, a: Action)
    requires a.kind == DELETE_LOCAL && a.path in v.local && !v.local[a.path].entry.isFolder
    ensures a.path !in Writes(v, pass, env, a, STEPS).w.local
  {
    var v1 := v.(local := v.local - {a.path});
    assert Writes(v, pass, env, a, 0) == Done(v);
    assert Writes(v, pass, env, a, 1) == Done(v1);
    DeletesOnlyShrinkFrom(v, pass, env, a, 1, STEPS);
  }

  lemma {:induction false} DeletesOnlyShrinkFrom(v: World, pass: Pass, env: Env, a: Action, m: nat, n: nat)
    requires IsDelete(a) && m <= n && a.path !in Writes(v, pass, env, a, m).w.local
    ensures a.path !in Writes(v, pass, env, a, n).w.local
  {
    if m < n { DeletesOnlyShrinkFrom(v, pass, env, a, m, n - 1); }
  }

  /** Up to its turn the file waits; from its turn on it is on neither side. */
  predicate WaitsThenGoes(x: World, q: Path, c: Content, i: nat, k: nat) {
    q !in x.remote && (if k <= i then Fetched(x, q, c) else q !in x.local)
  }

  ghost predicate GoesBy(v: World, env: Env, acts: seq<Action>, fates: seq<nat>, i: nat, k: nat, c: Content)
    requires i < |acts| == |fates| && k <= |acts|
  {
    WaitsThenGoes(FaultyRun(v, StartPass(v), env, acts, fates, k).0, acts[i].path, c, i, k)
  }

  ghost predicate GoesNext(v: World, env: Env, acts: seq<Action>, fates: seq<nat>, i: nat, k: nat, c: Content)
    requires i < |acts| == |fates| && k < |acts|
  {
    GoesBy(v, env, acts, fates, i, k, c) ==> GoesBy(v, env, acts, fates, i, k + 1, c)
  }

  lemma GoesOneMore(v: World, env: Env, acts: seq<Action>, fates: seq<nat>, i: nat, k: nat, c: Content)
    requires RemoteRooted(v) && FreshCopies(v, env, false) && PlanFor(acts, v, false) && OnlyDeletesFail(acts, fates)
    requires i < |acts| && k < |acts| && Forsaken(v, acts[i].path, c) && GoesBy(v, env, acts, fates, i, k, c)
    ensures GoesBy(v, env, acts, fates, i, k + 1, c)
  {
    ForsakenActions(v, env, acts, i, k, c);
    var (x, pass) := FaultyRun(v, StartPass(v), env, acts, fates, k);
    FaultySnapshot(v, StartPass(v), env, acts, fates, k);
    assert CopyTarget(pass, env.copyName(acts[k].path)) == CopyTarget(StartPass(v), env.copyName(acts[k].path));
    GoesThroughAction(x, pass, env, acts[k], fates[k], acts[i].path, c, i, k);
  }

  lemma GoesThroughAction(x: World, pass: Pass, env: Env, a: Action, n: nat, q: Path, c: Content, i: nat, k: nat)
    requires WaitsThenGoes(x, q, c, i, k) && (i == k ==> a.path == q && a.kind == DELETE_LOCAL && n == STEPS)
    requires i != k ==> !MayWrite(pass, env, a, q)
    requires i < k ==> IsDelete(a)
    ensures WaitsThenGoes(Writes(x, pass, env, a, n).w, q, c, i, k + 1)
  {
    StaysAbsent(x, pass, env, a, n, q);
    if k < i {
      WritesLeaveOthers(x, pass, env, a, n, q);
      var y := Writes(x, pass, env, a, n).w;
      assert Get(y.synced, q) == Some(x.synced[q]);
    } else if k == i {
      DeleteRuns(x, pass, env, a);
    } else {
      DeletesOnlyShrink(x, pass, env, a, n, q);
    }
  }

  lemma {:induction false} GoesThroughout(v: World, env: Env, acts: seq<Action>, fates: seq<nat>, i: nat, k: nat, c: Content)
    requires i < |acts| == |fates| && k <= |acts| && Forsaken(v, acts[i].path, c)
    requires forall j :: 0 <= j < |acts| ==> GoesNext(v, env, acts, fates, i, j, c)
    ensures GoesBy(v, env, acts, fates, i, k, c)
  {
    if k > 0 {
      GoesThroughout(v, env, acts, fates, i, k - 1, c);
      assert GoesNext(v, env, acts, fates, i, k - 1, c);
    }
  }

  /** The next pass deletes a fetched file that is gone remotely. */
  lemma NextPassDeletes(v: World, env: Env, acts: seq<Action>, fates: seq<nat>, q: Path, c: Content)
    requires RemoteRooted(v) && FreshCopies(v, env, false) && PlanFor(acts, v, false) && OnlyDeletesFail(acts, fates)
    requires Forsaken(v, q, c)
    ensures var x := FaultyRun(v, StartPass(v), env, acts, fates, |acts|).0; q !in x.remote && q !in x.local
  {
    UnclassifiedIsOnBothSides(v, q);
    var i := PlannedAt(v, acts, q);
    forall j | 0 <= j < |acts| ensures GoesNext(v, env, acts, fates, i, j, c) {
      if GoesBy(v, env, acts, fates, i, j, c) { GoesOneMore(v, env, acts, fates, i, j, c); }
    }
    GoesThroughout(v, env, acts, fates, i, |acts|, c);
  }
}
