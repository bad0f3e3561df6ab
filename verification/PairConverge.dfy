/** A pass makes the two trees equal exactly when the deletions it starts from are
    closed downwards. */
module PairConverge {
  import opened Basics
  import opened Paths
  import opened Reconcile
  import opened PairWorld
  import opened PairSafety
  import opened PairEffect
  import opened PairPass
  import opened PairMerge
  import opened PairFrame

  ghost predicate Rooted(w: World) {
    KindsAgree(w) && LocalRooted(w) && RemoteRooted(w) && "" !in w.synced
  }

  ghost predicate TreesEqual(w: World) {
    forall p :: LocalView(w, p) == RemoteView(w, p)
  }

  lemma {:induction false} RemoteAncestors(w: World, q: Path, d: Path)
    requires RemoteRooted(w) && q in w.remote && Below(q, d) && d != ""
    ensures d in w.remote && w.remote[d].entry.isFolder
    decreases |q|
  {
    BelowThroughDirname(q, d);
    DirnameIsOneUp(q);
    assert HasRemoteFolder(w, q);
    if Dirname(q) != d { RemoteAncestors(w, Dirname(q), d); }
  }

  lemma {:induction false} LocalAncestors(w: World, q: Path, d: Path)
    requires LocalRooted(w) && q in w.local && Below(q, d) && d != ""
    ensures d in w.local && w.local[d].entry.isFolder
    decreases |q|
  {
    BelowThroughDirname(q, d);
    DirnameIsOneUp(q);
    assert HasLocalFolder(w, q);
    if Dirname(q) != d { LocalAncestors(w, Dirname(q), d); }
  }

  // ---- what a plan's actions cannot do ----

  /** A planned conflict copies beside an item that is remote, under an unused name. */
  lemma CopyLandsOnItsName(w: World, env: Env, pass: Pass, a: Action)
    requires Rooted(w) && FreshCopies(w, env, false) && pass.snapshot == w.RemoteMap()
    requires w.ActionAt(a.path, false) == Some(a) && a.kind == CONFLICT
    ensures CopyTarget(pass, env.copyName(a.path)) == env.copyName(a.path)
    ensures env.copyName(a.path) !in w.Known() && env.copyName(a.path) != ""
  {
    assert InConflict(w, a.path, false);
    ActionFacts(w, a, false);
    assert HasRemoteFolder(w, a.path);
  }

  // ---- a local folder slated for deletion, with something new in it ----

  /** `q` is to be created remotely, in a folder that is slated for local deletion. */
  ghost predicate Orphan(w: World, q: Path) {
    && q in w.local && q !in w.remote && !Vanishes(w, q)
    && Dirname(q) != "" && Doomed(w, Dirname(q)) && Dirname(q) in w.local
  }

  lemma {:induction false} FindOrphan(w: World, d: Path, q: Path) returns (r: Path)
    requires Rooted(w) && Doomed(w, d) && d in w.local && d != ""
    requires Below(q, d) && q in w.local && q !in w.remote && !Vanishes(w, q)
    ensures Orphan(w, r)
    decreases |q|
  {
    BelowThroughDirname(q, d);
    DirnameIsOneUp(q);
    var p := Dirname(q);
    assert HasLocalFolder(w, q);
    if p == d {
      r := q;
    } else if p in w.synced && p !in w.remote {
      r := q;
    } else {
      if p in w.remote { RemoteAncestors(w, p, d); }
      r := FindOrphan(w, d, p);
    }
  }

  /** While the orphan waits, it is local only and has no remote parent. */
  predicate Waiting(v: World, q: Path) {
    q in v.local && q !in v.remote && Dirname(q) !in v.remote
  }

  lemma OrphanActions(w: World, q: Path, a: Action)
    requires Rooted(w) && Orphan(w, q) && w.ActionAt(a.path, false) == Some(a)
    ensures a.path == q ==> a.kind in {UPLOAD, CREATE_REMOTE_DIR} && a.itemId == None
    ensures a.path == Dirname(q) ==> a.kind == DELETE_LOCAL
  {
    VanishesIsDelete(w, q, false);
    ActionFacts(w, a, false);
  }

  lemma WriteKeepsAbsent(v: World, pass: Pass, env: Env, a: Action, n: nat, x: Path)
    requires x !in v.remote
    requires a.path == x ==> a.kind == DELETE_LOCAL
    requires a.kind == CONFLICT ==> CopyTarget(pass, env.copyName(a.path)) != x
    ensures x !in Write(v, pass, env, a, n).w.remote
  {
    RemoteEffect(v, pass, env, a, n, x);
  }

  /** Without a remote parent neither create goes through. */
  lemma NoParentNoCreate(v: World, pass: Pass, env: Env, a: Action, n: nat)
    requires pass.Parent(a.path) == None && a.kind in {UPLOAD, CREATE_REMOTE_DIR} && a.itemId == None
    ensures Write(v, pass, env, a, n).w.remote == v.remote && Write(v, pass, env, a, n).w.local == v.local
  {
  }

  lemma WriteKeepsWaiting(v: World, pass: Pass, env: Env, a: Action, n: nat, q: Path)
    requires Waiting(v, q) && pass.Parent(q) == None
    requires a.path == q ==> a.kind in {UPLOAD, CREATE_REMOTE_DIR} && a.itemId == None
    requires a.path == Dirname(q) ==> a.kind == DELETE_LOCAL
    requires a.kind == CONFLICT ==>
      CopyTarget(pass, env.copyName(a.path)) == env.copyName(a.path) && env.copyName(a.path) !in {q, Dirname(q)}
    ensures Waiting(Write(v, pass, env, a, n).w, q)
  {
    if a.path == q {
      NoParentNoCreate(v, pass, env, a, n);
    } else {
      WriteKeepsLocal(v, pass, env, a, n, q);
      WriteKeepsAbsent(v, pass, env, a, n, q);
      WriteKeepsAbsent(v, pass, env, a, n, Dirname(q));
    }
  }

  lemma {:induction false} WritesKeepWaiting(w: World, v: World, pass: Pass, env: Env, a: Action, n: nat, q: Path)
    requires Rooted(w) && FreshCopies(w, env, false) && pass.snapshot == w.RemoteMap()
    requires Orphan(w, q) && w.ActionAt(a.path, false) == Some(a)
    requires Waiting(v, q) && Dirname(q) !in pass.created
    ensures Waiting(Writes(v, pass, env, a, n).w, q)
  {
    if n > 0 {
      WritesKeepWaiting(w, v, pass, env, a, n - 1, q);
      OrphanActions(w, q, a);
      if a.kind == CONFLICT { CopyLandsOnItsName(w, env, pass, a); }
      WriteKeepsWaiting(Writes(v, pass, env, a, n - 1).w, pass, env, a, n, q);
    }
  }

  lemma {:induction false} RunKeepsWaiting(w: World, env: Env, acts: seq<Action>, k: nat, q: Path)
    requires Rooted(w) && FreshCopies(w, env, false) && PlanFor(acts, w, false) && k <= |acts| && Orphan(w, q)
    ensures var (v, pass) := Run(w, StartPass(w), env, acts, k);
      Waiting(v, q) && Dirname(q) !in pass.created && pass.snapshot == w.RemoteMap()
  {
    if k > 0 {
      RunKeepsWaiting(w, env, acts, k - 1, q);
      var (v, pass) := Run(w, StartPass(w), env, acts, k - 1);
      Planned(acts, w, false, acts[k - 1]);
      OrphanActions(w, q, acts[k - 1]);
      WritesKeepWaiting(w, v, pass, env, acts[k - 1], STEPS, q);
    }
  }

  // ---- a remote folder slated for deletion, with something new in it ----

  /** `q` is to be fetched from below `d`, a remote folder slated for deletion. */
  ghost predicate Swept(w: World, q: Path, d: Path) {
    && q in w.remote && q !in w.local && !Vanishes(w, q)
    && Below(q, d) && d != "" && Doomed(w, d) && d in w.remote
  }

  lemma SweptActions(w: World, q: Path, d: Path, a: Action)
    requires Rooted(w) && Swept(w, q, d) && w.ActionAt(a.path, false) == Some(a)
    ensures a.path == q ==> a.kind == (if w.remote[q].entry.isFolder then CREATE_LOCAL_DIR else DOWNLOAD)
    ensures a.path == q ==> a.itemId == Some(w.remote[q].entry.itemId)
    ensures a.path == d ==> a.kind == DELETE_REMOTE && a.itemId == Some(w.remote[d].entry.itemId)
  {
    VanishesIsDelete(w, q, false);
    ActionFacts(w, a, false);
  }

  /** Before its fetch: still remote, absent locally or already a folder on the way
      to something else, and only folders above it. */
  ghost predicate Reachable(w: World, v: World, q: Path) {
    && q in v.remote && q in w.remote && v.remote[q] == w.remote[q]
    && (q in v.local ==> v.local[q].entry.isFolder && w.remote[q].entry.isFolder)
    && (forall x :: x in v.local && x != "" && Below(q, x) ==> v.local[x].entry.isFolder)
  }

  /** `mkdir -p` succeeds when no file stands on the way. */
  lemma {:induction false} MakeDirsSucceeds(m: map<Path, LocalNode>, d: Path)
    requires forall x :: x in m && x != "" && (x == d || Below(d, x)) ==> m[x].entry.isFolder
    ensures MakeDirs(m, d).Some?
    ensures d != "" ==> d in MakeDirs(m, d).value && MakeDirs(m, d).value[d].entry.isFolder
    decreases |d|
  {
    if d != "" && d !in m {
      if Dirname(d) != "" {
        DirnameIsOneUp(d);
        forall x | Below(Dirname(d), x) ensures Below(d, x) { BelowTransitive(d, Dirname(d), x); }
        MakeDirsSucceeds(m, Dirname(d));
      } else {
        assert MakeDirs(m, "") == Some(m);
      }
    }
  }

  /** The path of a fetch is in the way of `q` only as a folder. */
  ghost predicate OutOfTheWay(w: World, env: Env, a: Action, q: Path) {
    && !IsDelete(a) && a.path != q && q in w.remote
    && (a.kind in {CREATE_LOCAL_DIR, DOWNLOAD, CONFLICT} && Below(a.path, q) ==> w.remote[q].entry.isFolder)
    && (a.kind in {DOWNLOAD, CONFLICT} ==> !Below(q, a.path))
    && (a.kind == CONFLICT ==> env.copyName(a.path) != q && !Below(q, env.copyName(a.path)))
  }

  lemma OthersOutOfTheWay(w: World, env: Env, pass: Pass, a: Action, q: Path)
    requires Rooted(w) && FreshCopies(w, env, false) && pass.snapshot == w.RemoteMap() && q in w.remote
    requires w.ActionAt(a.path, false) == Some(a) && !IsDelete(a) && a.path != q
    ensures OutOfTheWay(w, env, a, q)
  {
    ActionFacts(w, a, false);
    var p := a.path;
    if a.kind in {CREATE_LOCAL_DIR, DOWNLOAD, CONFLICT} && Below(p, q) { RemoteAncestors(w, p, q); }
    if a.kind in {DOWNLOAD, CONFLICT} && Below(q, p) { RemoteAncestors(w, q, p); }
    if a.kind == CONFLICT {
      CopyLandsOnItsName(w, env, pass, a);
      if Below(q, env.copyName(p)) { RemoteAncestors(w, q, env.copyName(p)); }
    }
  }

  lemma MkdirKeepsReachable(w: World, v: World, q: Path, d: Path)
    requires Reachable(w, v, q) && (d == q || Below(d, q) ==> w.remote[q].entry.isFolder)
    ensures Reachable(w, MakeLocalFolder(v, d).w, q)
  {
    MakeDirsKeeps(v.local, d);
  }

  lemma WriteKeepsReachable(w: World, v: World, pass: Pass, env: Env, a: Action, n: nat, q: Path)
    requires Reachable(w, v, q) && OutOfTheWay(w, env, a, q)
    requires a.kind == CONFLICT ==> CopyTarget(pass, env.copyName(a.path)) == env.copyName(a.path)
    ensures Reachable(w, Write(v, pass, env, a, n).w, q)
  {
    if Dirname(a.path) != "" {
      DirnameIsOneUp(a.path);
      if Below(Dirname(a.path), q) { BelowTransitive(a.path, Dirname(a.path), q); }
    }
    match a.kind
    case CREATE_LOCAL_DIR => if n == 1 { MkdirKeepsReachable(w, v, q, a.path); }
    case DOWNLOAD => if n == 1 && Dirname(a.path) != "" { MkdirKeepsReachable(w, v, q, Dirname(a.path)); }
    case CONFLICT => ConflictKeepsReachable(w, v, pass, env, a, n, q);
    case _ =>
  }

  lemma ConflictKeepsReachable(w: World, v: World, pass: Pass, env: Env, a: Action, n: nat, q: Path)
    requires Reachable(w, v, q) && OutOfTheWay(w, env, a, q) && a.kind == CONFLICT
    requires CopyTarget(pass, env.copyName(a.path)) == env.copyName(a.path)
    ensures Reachable(w, Write(v, pass, env, a, n).w, q)
  {
    if n == 4 && Dirname(a.path) != "" {
      DirnameIsOneUp(a.path);
      if Below(Dirname(a.path), q) { BelowTransitive(a.path, Dirname(a.path), q); }
      MkdirKeepsReachable(w, v, q, Dirname(a.path));
    }
  }

  lemma {:induction false} WritesKeepReachable(
    w: World, v: World, pass: Pass, env: Env, a: Action, n: nat, q: Path)
    requires Reachable(w, v, q) && OutOfTheWay(w, env, a, q)
    requires a.kind == CONFLICT ==> CopyTarget(pass, env.copyName(a.path)) == env.copyName(a.path)
    ensures Reachable(w, Writes(v, pass, env, a, n).w, q)
  {
    if n > 0 {
      WritesKeepReachable(w, v, pass, env, a, n - 1, q);
      WriteKeepsReachable(w, Writes(v, pass, env, a, n - 1).w, pass, env, a, n, q);
    }
  }

  /** The fetch itself succeeds: afterwards the path exists locally. */
  lemma FetchArrives(w: World, v: World, pass: Pass, env: Env, a: Action, q: Path)
    requires Reachable(w, v, q) && pass.snapshot == w.RemoteMap() && q != ""
    requires a.path == q && a.itemId == Some(w.remote[q].entry.itemId)
    requires a.kind == (if w.remote[q].entry.isFolder then CREATE_LOCAL_DIR else DOWNLOAD)
    ensures q in Writes(v, pass, env, a, STEPS).w.local
  {
    var d := Dirname(q);
    if d != "" {
      DirnameIsOneUp(q);
      forall x | Below(d, x) ensures Below(q, x) { BelowTransitive(q, d, x); }
    }
    if a.kind == CREATE_LOCAL_DIR {
      MakeDirsSucceeds(v.local, q);
      assert q in Writes(v, pass, env, a, 1).w.local;
      assert q in Writes(v, pass, env, a, 2).w.local;
      FolderStays(v, pass, env, a, STEPS);
    } else {
      MakeDirsSucceeds(v.local, d);
      MakeDirsKeeps(v.local, d);
      var v1 := v.(local := MakeDirs(v.local, d).value);
      assert Writes(v, pass, env, a, 0) == Done(v);
      assert Writes(v, pass, env, a, 1) == Done(v1);
      assert d == "" ==> MakeDirs(v.local, d) == Some(v.local);
      assert q !in v1.local by { assert |d| < |q|; }
      assert q in Writes(v, pass, env, a, 2).w.local;
      FolderStays(v, pass, env, a, STEPS);
    }
  }

  /** From its second write on a fetch does not touch the local tree. */
  lemma {:induction false} FolderStays(v: World, pass: Pass, env: Env, a: Action, n: nat)
    requires a.kind in {CREATE_LOCAL_DIR, DOWNLOAD} && n >= 2
    ensures Writes(v, pass, env, a, n).w.local == Writes(v, pass, env, a, 2).w.local
  {
    if n > 2 { FolderStays(v, pass, env, a, n - 1); }
  }

  lemma StartsReachable(w: World, q: Path, d: Path)
    requires Rooted(w) && Swept(w, q, d)
    ensures Reachable(w, w, q)
  {
    forall x | x in w.local && x != "" && Below(q, x) ensures w.local[x].entry.isFolder {
      RemoteAncestors(w, q, x);
    }
  }

  /** The pass looks remote ids up in the map it started from. */
  lemma SnapshotStays(w: World, env: Env, acts: seq<Action>, k: nat)
    requires k <= |acts|
    ensures Run(w, StartPass(w), env, acts, k).1.snapshot == w.RemoteMap()
  {
    RunKeepsSnapshot(w, StartPass(w), env, acts, k);
  }

  /** Everything before a fetch leaves its way clear. */
  lemma {:induction false} RunKeepsReachable(w: World, env: Env, acts: seq<Action>, k: nat, q: Path)
    requires k <= |acts| && Reachable(w, w, q)
    requires forall i :: 0 <= i < k ==> PassesBy(w, env, acts[i], q)
    ensures Reachable(w, Run(w, StartPass(w), env, acts, k).0, q)
  {
    if k > 0 {
      RunKeepsReachable(w, env, acts, k - 1, q);
      var (v, pass) := Run(w, StartPass(w), env, acts, k - 1);
      SnapshotStays(w, env, acts, k - 1);
      assert PassesBy(w, env, acts[k - 1], q);
      WritesKeepReachable(w, v, pass, env, acts[k - 1], STEPS, q);
    }
  }

  ghost predicate PassesBy(w: World, env: Env, a: Action, q: Path) {
    && OutOfTheWay(w, env, a, q)
    && (a.kind == CONFLICT ==> CopyTarget(StartPass(w), env.copyName(a.path)) == env.copyName(a.path))
  }

  lemma EarlierPassesBy(w: World, env: Env, acts: seq<Action>, i: nat, k: nat, d: Path)
    requires Rooted(w) && FreshCopies(w, env, false) && PlanFor(acts, w, false)
    requires k < i < |acts| && Swept(w, acts[i].path, d)
    ensures PassesBy(w, env, acts[k], acts[i].path)
  {
    Planned(acts, w, false, acts[k]);
    Planned(acts, w, false, acts[i]);
    SweptActions(w, acts[i].path, d, acts[i]);
    assert MayPrecede(acts[k], acts[i]) && acts[k].path != acts[i].path;
    OthersOutOfTheWay(w, env, StartPass(w), acts[k], acts[i].path);
    if acts[k].kind == CONFLICT { CopyLandsOnItsName(w, env, StartPass(w), acts[k]); }
  }

  lemma WriteKeepsLocal(v: World, pass: Pass, env: Env, a: Action, n: nat, q: Path)
    requires q in v.local && a.path != q
    ensures q in Write(v, pass, env, a, n).w.local
  {
    match a.kind
    case CREATE_LOCAL_DIR => MakeDirsKeeps(v.local, a.path);
    case DOWNLOAD => MakeDirsKeeps(v.local, Dirname(a.path));
    case CONFLICT => MakeDirsKeeps(v.local, Dirname(a.path));
    case _ =>
  }

  lemma {:induction false} WritesKeepLocal(v: World, pass: Pass, env: Env, a: Action, n: nat, q: Path)
    requires q in v.local && a.path != q
    ensures q in Writes(v, pass, env, a, n).w.local
  {
    if n > 0 {
      WritesKeepLocal(v, pass, env, a, n - 1, q);
      WriteKeepsLocal(Writes(v, pass, env, a, n - 1).w, pass, env, a, n, q);
    }
  }

  /** From its fetch on the path exists locally. */
  lemma {:induction false} RunKeepsLocal(w: World, env: Env, acts: seq<Action>, i: nat, k: nat, q: Path)
    requires i <= k <= |acts| && q in Run(w, StartPass(w), env, acts, i).0.local
    requires forall m :: i <= m < |acts| ==> acts[m].path != q
    ensures q in Run(w, StartPass(w), env, acts, k).0.local
  {
    if i < k {
      RunKeepsLocal(w, env, acts, i, k - 1, q);
      var (v, pass) := Run(w, StartPass(w), env, acts, k - 1);
      WritesKeepLocal(v, pass, env, acts[k - 1], STEPS, q);
    }
  }

  lemma FetchRuns(w: World, env: Env, acts: seq<Action>, i: nat, d: Path)
    requires Rooted(w) && FreshCopies(w, env, false) && PlanFor(acts, w, false)
    requires i < |acts| && Swept(w, acts[i].path, d)
    ensures acts[i].path in Run(w, StartPass(w), env, acts, i + 1).0.local
  {
    var q := acts[i].path;
    StartsReachable(w, q, d);
    forall k | 0 <= k < i ensures PassesBy(w, env, acts[k], q) {
      EarlierPassesBy(w, env, acts, i, k, d);
    }
    RunKeepsReachable(w, env, acts, i, q);
    SnapshotStays(w, env, acts, i);
    Planned(acts, w, false, acts[i]);
    SweptActions(w, q, d, acts[i]);
    var (v, pass) := Run(w, StartPass(w), env, acts, i);
    FetchArrives(w, v, pass, env, acts[i], q);
  }

  /** `q` is remote only as long as the folder `d` above it is. */
  predicate UnderIntact(w: World, v: World, q: Path, d: Path) {
    q in v.remote ==> d in v.remote && d in w.remote && v.remote[d] == w.remote[d]
  }

  /** The action neither recreates `q` remotely nor touches `d` but to delete it. */
  ghost predicate SpareSwept(w: World, pass: Pass, env: Env, a: Action, q: Path, d: Path) {
    && (a.path == q ==> a.kind in {CREATE_LOCAL_DIR, DOWNLOAD})
    && (a.path == d ==> d in w.remote && a.kind == DELETE_REMOTE && a.itemId == Some(w.remote[d].entry.itemId))
    && (a.kind == CONFLICT ==>
          CopyTarget(pass, env.copyName(a.path)) == env.copyName(a.path) && env.copyName(a.path) !in {q, d})
  }

  lemma WriteKeepsUnder(w: World, v: World, pass: Pass, env: Env, a: Action, n: nat, q: Path, d: Path)
    requires UnderIntact(w, v, q, d) && Below(q, d) && SpareSwept(w, pass, env, a, q, d) && a.path != d
    ensures UnderIntact(w, Write(v, pass, env, a, n).w, q, d)
    ensures q !in v.remote ==> q !in Write(v, pass, env, a, n).w.remote
  {
    RemoteEffect(v, pass, env, a, n, q);
    RemoteEffect(v, pass, env, a, n, d);
    UnderFromEffect(w, v, pass, env, a, q, d, Write(v, pass, env, a, n).w);
  }

  lemma UnderFromEffect(w: World, v: World, pass: Pass, env: Env, a: Action, q: Path, d: Path, x: World)
    requires UnderIntact(w, v, q, d) && Below(q, d) && SpareSwept(w, pass, env, a, q, d) && a.path != d
    requires a.kind == DELETE_REMOTE ==>
      x.remote == v.remote || x.remote == map y | y in v.remote && y != a.path && !Below(y, a.path) :: v.remote[y]
    requires a.kind in {CREATE_LOCAL_DIR, DOWNLOAD, DELETE_LOCAL, PURGE_TOMBSTONE} ==> x.remote == v.remote
    requires a.kind in {UPLOAD, CREATE_REMOTE_DIR, CONFLICT} ==>
      Get(x.remote, q) == Get(v.remote, q) && Get(x.remote, d) == Get(v.remote, d)
    ensures UnderIntact(w, x, q, d) && (q !in v.remote ==> q !in x.remote)
  {
    if Below(d, a.path) { BelowTransitive(q, d, a.path); }
  }

  lemma {:induction false} WritesKeepUnder(w: World, v: World, pass: Pass, env: Env, a: Action, n: nat, q: Path, d: Path)
    requires UnderIntact(w, v, q, d) && Below(q, d) && SpareSwept(w, pass, env, a, q, d) && a.path != d
    ensures UnderIntact(w, Writes(v, pass, env, a, n).w, q, d)
    ensures q !in v.remote ==> q !in Writes(v, pass, env, a, n).w.remote
  {
    if n > 0 {
      WritesKeepUnder(w, v, pass, env, a, n - 1, q, d);
      WriteKeepsUnder(w, Writes(v, pass, env, a, n - 1).w, pass, env, a, n, q, d);
    }
  }

  /** The folder's delete takes everything below it along. */
  lemma {:induction false} FolderDeleteSweeps(w: World, v: World, pass: Pass, env: Env, a: Action, n: nat, q: Path, d: Path)
    requires UnderIntact(w, v, q, d) && Below(q, d) && d in w.remote && Get(pass.snapshot, d) == Some(w.remote[d].entry)
    requires a.path == d && a.kind == DELETE_REMOTE && a.itemId == Some(w.remote[d].entry.itemId) && n >= 1
    ensures q !in Writes(v, pass, env, a, n).w.remote
  {
    if n > 1 {
      FolderDeleteSweeps(w, v, pass, env, a, n - 1, q, d);
    } else {
      assert Writes(v, pass, env, a, 0) == Done(v);
    }
  }

  /** From the folder's delete on nothing of `q` is left remotely. */
  lemma {:induction false} RunSweeps(
    w: World, pass: Pass, env: Env, acts: seq<Action>, j: nat, k: nat, q: Path, d: Path)
    requires k <= |acts| && j < |acts| && acts[j].path == d && Below(q, d) && d in w.remote
    requires Get(pass.snapshot, d) == Some(w.remote[d].entry)
    requires forall i :: 0 <= i < |acts| ==> SpareSwept(w, pass, env, acts[i], q, d)
    ensures UnderIntact(w, Run(w, pass, env, acts, k).0, q, d)
    ensures j < k ==> q !in Run(w, pass, env, acts, k).0.remote
  {
    if k > 0 {
      RunSweeps(w, pass, env, acts, j, k - 1, q, d);
      var (v, ps) := Run(w, pass, env, acts, k - 1);
      RunKeepsSnapshot(w, pass, env, acts, k - 1);
      assert SpareSwept(w, pass, env, acts[k - 1], q, d);
      assert CopyTarget(ps, env.copyName(acts[k - 1].path)) == CopyTarget(pass, env.copyName(acts[k - 1].path));
      if acts[k - 1].path == d {
        FolderDeleteSweeps(w, v, ps, env, acts[k - 1], STEPS, q, d);
      } else {
        WritesKeepUnder(w, v, ps, env, acts[k - 1], STEPS, q, d);
      }
    }
  }

  lemma PlanSparesSwept(w: World, env: Env, acts: seq<Action>, a: Action, q: Path, d: Path)
    requires Rooted(w) && FreshCopies(w, env, false) && PlanFor(acts, w, false) && Swept(w, q, d) && a in acts
    ensures SpareSwept(w, StartPass(w), env, a, q, d)
  {
    Planned(acts, w, false, a);
    SweptActions(w, q, d, a);
    if a.kind == CONFLICT { CopyLandsOnItsName(w, env, StartPass(w), a); }
  }

  // ---- exactly when the trees end up equal ----

  lemma PlannedAt(w: World, acts: seq<Action>, p: Path) returns (i: nat)
    requires PlanFor(acts, w, false) && w.ActionAt(p, false).Some?
    ensures i < |acts| && acts[i].path == p
  {
    PlanFacts(acts, w, false);
    ClassifiedHere(w, false, p);
    i :| 0 <= i < |acts| && acts[i] == w.ActionAt(p, false).value;
  }

  lemma OrphanDiverges(w: World, env: Env, acts: seq<Action>, d: Path, q: Path)
    requires Rooted(w) && FreshCopies(w, env, false) && PlanFor(acts, w, false)
    requires Doomed(w, d) && d in w.local && q in w.Known() && Below(q, d) && !Vanishes(w, q)
    ensures !TreesEqual(Run(w, StartPass(w), env, acts, |acts|).0)
  {
    var end := Run(w, StartPass(w), env, acts, |acts|).0;
    if q in w.remote { RemoteAncestors(w, q, d); }
    var r := FindOrphan(w, d, q);
    RunKeepsWaiting(w, env, acts, |acts|, r);
    assert LocalView(end, r) != RemoteView(end, r);
  }

  lemma SweptDiverges(w: World, env: Env, acts: seq<Action>, q: Path, d: Path)
    requires Rooted(w) && FreshCopies(w, env, false) && PlanFor(acts, w, false) && Swept(w, q, d)
    ensures q in Run(w, StartPass(w), env, acts, |acts|).0.local
    ensures q !in Run(w, StartPass(w), env, acts, |acts|).0.remote
  {
    UnclassifiedIsOnBothSides(w, q);
    UnclassifiedIsOnBothSides(w, d);
    var i := PlannedAt(w, acts, q);
    var j := PlannedAt(w, acts, d);
    FetchRuns(w, env, acts, i, d);
    RunKeepsLocal(w, env, acts, i + 1, |acts|, q);
    forall k | 0 <= k < |acts| ensures SpareSwept(w, StartPass(w), env, acts[k], q, d) {
      PlanSparesSwept(w, env, acts, acts[k], q, d);
    }
    RunSweeps(w, StartPass(w), env, acts, j, |acts|, q, d);
  }

  lemma OpenDeletionDiverges(w: World, env: Env, acts: seq<Action>)
    requires Rooted(w) && FreshCopies(w, env, false) && PlanFor(acts, w, false) && !DeleteClosed(w)
    ensures !TreesEqual(Run(w, StartPass(w), env, acts, |acts|).0)
  {
    var d, q :| Doomed(w, d) && q in w.Known() && Below(q, d) && !Vanishes(w, q);
    if d in w.local {
      OrphanDiverges(w, env, acts, d, q);
    } else {
      if q in w.local { LocalAncestors(w, q, d); }
      SweptDiverges(w, env, acts, q, d);
      var end := Run(w, StartPass(w), env, acts, |acts|).0;
      assert LocalView(end, q) != RemoteView(end, q);
    }
  }

  lemma UnclassifiedIsOnBothSides(w: World, p: Path)
    ensures (p in w.local) != (p in w.remote) ==> w.ActionAt(p, false).Some?
  {
  }

  /** A completed pass leaves equal trees if and only if everything below a folder
      slated for deletion was itself slated for it. */
  lemma TreesEqualIffDeleteClosed(w: World, env: Env, acts: seq<Action>)
    requires Rooted(w) && BaselinesHonest(w) && FreshCopies(w, env, false) && PlanFor(acts, w, false)
    ensures TreesEqual(Run(w, StartPass(w), env, acts, |acts|).0) <==> DeleteClosed(w)
  {
    if DeleteClosed(w) {
      PassIsThreeWayMerge(w, env, acts);
      var end := Run(w, StartPass(w), env, acts, |acts|).0;
      forall p ensures LocalView(end, p) == RemoteView(end, p) {
        NothingPlanned(end, p);
        SettledIsMerged(end, p);
      }
    } else {
      OpenDeletionDiverges(w, env, acts);
    }
  }
}
