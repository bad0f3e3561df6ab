/** A local file with bytes of its own keeps them, on some side, over passes stopped or
    failing anywhere; nothing is asked of the deletions they start from. */
module PairLocal {
  import opened Basics
  import opened Paths
  import opened Reconcile
  import opened PairWorld
  import opened PairSafety
  import opened PairEffect
  import opened PairPass
  import opened PairFrame
  import opened PairConverge
  import opened PairFault
  import opened PairStaged
  import opened PairSwept
  import opened PairSweeps
  import opened PairRooted
  import opened PairCrash
  import opened PairDriftFault

  /** Local at `q` with bytes `c`; if the baseline says so too, then also remote. */
  predicate SafeLocal(v: World, q: Path, c: Content) {
    && KeptLocally(v, q, c)
    && (q in v.remote ==> !v.remote[q].entry.isFolder) && (q in v.synced ==> !v.synced[q].isFolder)
  }

  // ---- actions of others ----

  /** The action neither writes to `x` nor takes a folder above it. */
  predicate Clear(pass: Pass, env: Env, a: Action, x: Path) { !MayWrite(pass, env, a, x) && !Takes(a, x) }

  predicate SameThere(v: World, u: World, x: Path) {
    && Get(u.synced, x) == Get(v.synced, x) && Get(u.remote, x) == Get(v.remote, x)
    && (x in v.local ==> Get(u.local, x) == Get(v.local, x))
  }

  lemma PartIsClear(v: World, pass: Pass, env: Env, a: Action, n: nat, x: Path)
    requires Clear(pass, env, a, x)
    ensures SameThere(v, Writes(v, pass, env, a, n).w, x)
  {
    WritesLeaveOthers(v, pass, env, a, n, x);
    PartLeaves(v, pass, env, a, n, x);
  }

  lemma {:induction false} RunIsClear(w: World, pass: Pass, env: Env, acts: seq<Action>, fates: seq<nat>, i: nat, k: nat, x: Path)
    requires i <= k <= |acts| == |fates| && forall m :: i <= m < k ==> Clear(pass, env, acts[m], x)
    ensures SameThere(FaultyRun(w, pass, env, acts, fates, i).0, FaultyRun(w, pass, env, acts, fates, k).0, x)
  {
    if i < k {
      RunIsClear(w, pass, env, acts, fates, i, k - 1, x);
      NextIsClear(w, pass, env, acts, fates, k - 1, x);
    }
  }

  lemma NextIsClear(w: World, pass: Pass, env: Env, acts: seq<Action>, fates: seq<nat>, k: nat, x: Path)
    requires k < |acts| == |fates| && Clear(pass, env, acts[k], x)
    ensures SameThere(FaultyRun(w, pass, env, acts, fates, k).0, FaultyRun(w, pass, env, acts, fates, k + 1).0, x)
  {
    var (v, ps) := FaultyRun(w, pass, env, acts, fates, k);
    FaultySnapshot(w, pass, env, acts, fates, k);
    assert CopyTarget(ps, env.copyName(acts[k].path)) == CopyTarget(pass, env.copyName(acts[k].path));
    PartIsClear(v, ps, env, acts[k], fates[k], x);
  }

  lemma SafeStays(v: World, u: World, x: Path, c: Content)
    requires SameThere(v, u, x) && SafeLocal(v, x, c)
    ensures SafeLocal(u, x, c)
  {
    assert (x in v.local <==> x in u.local) && (x in v.remote <==> x in u.remote) && (x in v.synced <==> x in u.synced);
  }

  // ---- the file's own action ----

  lemma OwnAction(w: World, a: Action, bootstrap: bool, c: Content)
    requires w.ActionAt(a.path, bootstrap) == Some(a) && SafeLocal(w, a.path, c)
    ensures a.kind in {UPLOAD, CONFLICT} && !LocalUnchanged(w, a.path)
    ensures a.kind == CONFLICT ==> a.path in w.remote
  {
  }

  lemma UploadStep(v: World, pass: Pass, env: Env, a: Action, n: nat, c: Content)
    requires a.kind == UPLOAD && n >= 1 && SafeLocal(v, a.path, c) && (n <= 2 ==> !LocalUnchanged(v, a.path))
    ensures var o := Write(v, pass, env, a, n); SafeLocal(o.w, a.path, c) && (n == 1 ==> !LocalUnchanged(o.w, a.path))
  {
  }

  lemma {:induction false} UploadKeeps(v: World, pass: Pass, env: Env, a: Action, n: nat, c: Content)
    requires a.kind == UPLOAD && SafeLocal(v, a.path, c) && !LocalUnchanged(v, a.path)
    ensures var u := Writes(v, pass, env, a, n).w; SafeLocal(u, a.path, c) && (n <= 1 ==> !LocalUnchanged(u, a.path))
  {
    if n > 0 {
      UploadKeeps(v, pass, env, a, n - 1, c);
      if Writes(v, pass, env, a, n - 1).Done? { UploadStep(Writes(v, pass, env, a, n - 1).w, pass, env, a, n, c); }
    }
  }

  /** The rename takes the bytes to the copy's name, which nothing else has. */
  lemma ConflictMoves(v: World, pass: Pass, env: Env, a: Action, c: Content)
    requires a.kind == CONFLICT && SafeLocal(v, a.path, c) && env.copyName(a.path) != a.path
    requires env.copyName(a.path) !in v.remote && env.copyName(a.path) !in v.synced
    ensures var o := Write(v, pass, env, a, 1);
      if o.Done? then SafeLocal(o.w, env.copyName(a.path), c) && env.copyName(a.path) !in o.w.synced else o.w == v
  {
  }

  lemma ConflictStep(v: World, pass: Pass, env: Env, a: Action, n: nat, c: Content)
    requires a.kind == CONFLICT && n >= 2 && SafeLocal(v, env.copyName(a.path), c)
    requires env.copyName(a.path) != a.path && CopyTarget(pass, env.copyName(a.path)) == env.copyName(a.path)
    requires n <= 3 ==> env.copyName(a.path) !in v.synced
    ensures var u := Write(v, pass, env, a, n).w;
      SafeLocal(u, env.copyName(a.path), c) && (n == 2 ==> env.copyName(a.path) !in u.synced)
  {
    if n >= 4 {
      ConflictLater(v, pass, env, a, n);
      SafeStays(v, Write(v, pass, env, a, n).w, env.copyName(a.path), c);
    }
  }

  lemma ConflictLater(v: World, pass: Pass, env: Env, a: Action, n: nat)
    requires a.kind == CONFLICT && n >= 4 && env.copyName(a.path) != a.path
    ensures SameThere(v, Write(v, pass, env, a, n).w, env.copyName(a.path))
  {
    MakeDirsKeeps(v.local, Dirname(a.path));
  }

  /** However far the conflict gets: the bytes are at the original path or at the copy's. */
  lemma {:induction false} ConflictKeeps(v: World, pass: Pass, env: Env, a: Action, n: nat, c: Content)
    requires a.kind == CONFLICT && SafeLocal(v, a.path, c) && env.copyName(a.path) != a.path
    requires env.copyName(a.path) !in v.remote && env.copyName(a.path) !in v.synced
    requires CopyTarget(pass, env.copyName(a.path)) == env.copyName(a.path)
    ensures var o := Writes(v, pass, env, a, n); var copy := env.copyName(a.path);
      if n == 0 || !Write(v, pass, env, a, 1).Done? then o.w == v
      else SafeLocal(o.w, copy, c) && (n <= 2 ==> copy !in o.w.synced)
  {
    if n == 1 {
      assert Writes(v, pass, env, a, 0) == Done(v);
      ConflictMoves(v, pass, env, a, c);
    } else if n > 1 {
      ConflictKeeps(v, pass, env, a, n - 1, c);
      var o := Writes(v, pass, env, a, n - 1);
      if Write(v, pass, env, a, 1).Done? {
        if o.Done? { ConflictStep(o.w, pass, env, a, n, c); }
      } else {
        NeverStarts(v, pass, env, a, n);
      }
    }
  }

  lemma {:induction false} NeverStarts(v: World, pass: Pass, env: Env, a: Action, n: nat)
    requires !Write(v, pass, env, a, 1).Done? && n >= 1
    ensures Writes(v, pass, env, a, n) == Write(v, pass, env, a, 1)
  {
    if n == 1 { assert Writes(v, pass, env, a, 0) == Done(v); } else { NeverStarts(v, pass, env, a, n - 1); }
  }

  lemma OwnPart(w: World, v: World, pass: Pass, env: Env, a: Action, n: nat, bootstrap: bool, c: Content) returns (x: Path)
    requires w.ActionAt(a.path, bootstrap) == Some(a) && SafeLocal(w, a.path, c) && SameThere(w, v, a.path)
    requires a.kind == CONFLICT ==>
      var copy := env.copyName(a.path);
      copy !in w.Known() && CopyTarget(pass, copy) == copy && Get(v.remote, copy) == None && Get(v.synced, copy) == None
    ensures SafeLocal(Writes(v, pass, env, a, n).w, x, c) && x in Touched(env, a)
  {
    OwnAction(w, a, bootstrap, c);
    SafeStays(w, v, a.path, c);
    x := a.path;
    assert LocalUnchanged(v, a.path) == LocalUnchanged(w, a.path) by {
      assert (a.path in w.local <==> a.path in v.local) && (a.path in w.synced <==> a.path in v.synced);
    }
    if a.kind == UPLOAD {
      UploadKeeps(v, pass, env, a, n, c);
    } else {
      ConflictKeeps(v, pass, env, a, n, c);
      if n > 0 && Write(v, pass, env, a, 1).Done? { x := env.copyName(a.path); }
    }
  }

  // ---- a pass ----

  /** Folders above a local path exist locally: none is slated for remote deletion. */
  lemma NothingTakes(w: World, a: Action, bootstrap: bool, q: Path)
    requires LocalRooted(w) && q in w.local && w.ActionAt(a.path, bootstrap) == Some(a) && a.path != ""
    ensures Below(q, a.path) ==> !Takes(a, q)
  {
    if Below(q, a.path) { LocalAncestors(w, q, a.path); }
  }

  lemma OthersAreClear(w: World, env: Env, acts: seq<Action>, bootstrap: bool, i: nat, m: nat, x: Path)
    requires Trees(w) && FreshCopies(w, env, bootstrap) && PlanFor(acts, w, bootstrap)
    requires i < |acts| && m < |acts| && i != m && x in Touched(env, acts[i]) && acts[i].path in w.local
    ensures Clear(StartPass(w), env, acts[m], x)
  {
    ActionsAreApart(w, env, acts, bootstrap, StartPass(w), i, m);
    PlannedIsChosen(w, env, acts, bootstrap, i);
    PlannedIsChosen(w, env, acts, bootstrap, m);
    NothingTakes(w, acts[m], bootstrap, acts[i].path);
    if Below(x, acts[m].path) && x != acts[i].path { SiblingsShareAncestors(x, acts[i].path, acts[m].path); }
    assert acts[m].path != x;
  }

  /** Without an action of its own the file is left alone. */
  lemma UnplannedIsClear(w: World, env: Env, acts: seq<Action>, bootstrap: bool, q: Path, m: nat)
    requires Trees(w) && FreshCopies(w, env, bootstrap) && PlanFor(acts, w, bootstrap) && q in w.local && m < |acts|
    requires w.ActionAt(q, bootstrap).None?
    ensures Clear(StartPass(w), env, acts[m], q)
  {
    Planned(acts, w, bootstrap, acts[m]);
    PlannedIsChosen(w, env, acts, bootstrap, m);
    NothingTakes(w, acts[m], bootstrap, q);
    if acts[m].kind == CONFLICT { CopyInRooted(w, env, acts[m], bootstrap); }
  }

  /** The file has an action: before its turn nobody touches it, at its turn it stays safe
      or moves to its copy, and after it nobody touches that. */
  lemma PlannedKeepsLocal(w: World, env: Env, acts: seq<Action>, fates: seq<nat>, bootstrap: bool, i: nat, c: Content)
    returns (x: Path)
    requires Trees(w) && FreshCopies(w, env, bootstrap) && PlanFor(acts, w, bootstrap)
    requires i < |acts| == |fates| && SafeLocal(w, acts[i].path, c)
    ensures SafeLocal(FaultyRun(w, StartPass(w), env, acts, fates, |acts|).0, x, c)
  {
    var pass, a := StartPass(w), acts[i];
    var (v, ps) := FaultyRun(w, pass, env, acts, fates, i);
    FaultySnapshot(w, pass, env, acts, fates, i);
    BeforeItsTurn(w, env, acts, fates, bootstrap, i);
    Planned(acts, w, bootstrap, a);
    if a.kind == CONFLICT {
      CopyInRooted(w, env, a, bootstrap);
      assert CopyTarget(ps, env.copyName(a.path)) == CopyTarget(pass, env.copyName(a.path));
    }
    x := OwnPart(w, v, ps, env, a, fates[i], bootstrap, c);
    AfterItsTurn(w, env, acts, fates, bootstrap, i, x);
    SafeStays(FaultyRun(w, pass, env, acts, fates, i + 1).0, FaultyRun(w, pass, env, acts, fates, |acts|).0, x, c);
  }

  lemma BeforeItsTurn(w: World, env: Env, acts: seq<Action>, fates: seq<nat>, bootstrap: bool, i: nat)
    requires Trees(w) && FreshCopies(w, env, bootstrap) && PlanFor(acts, w, bootstrap)
    requires i < |acts| == |fates| && acts[i].path in w.local
    ensures var v := FaultyRun(w, StartPass(w), env, acts, fates, i).0; var copy := env.copyName(acts[i].path);
      && SameThere(w, v, acts[i].path)
      && (acts[i].kind == CONFLICT ==> Get(v.remote, copy) == Get(w.remote, copy) && Get(v.synced, copy) == Get(w.synced, copy))
  {
    AllClear(w, env, acts, bootstrap, i, acts[i].path);
    RunIsClear(w, StartPass(w), env, acts, fates, 0, i, acts[i].path);
    if acts[i].kind == CONFLICT {
      AllClear(w, env, acts, bootstrap, i, env.copyName(acts[i].path));
      RunIsClear(w, StartPass(w), env, acts, fates, 0, i, env.copyName(acts[i].path));
    }
  }

  lemma AfterItsTurn(w: World, env: Env, acts: seq<Action>, fates: seq<nat>, bootstrap: bool, i: nat, x: Path)
    requires Trees(w) && FreshCopies(w, env, bootstrap) && PlanFor(acts, w, bootstrap)
    requires i < |acts| == |fates| && x in Touched(env, acts[i]) && acts[i].path in w.local
    ensures SameThere(FaultyRun(w, StartPass(w), env, acts, fates, i + 1).0,
                      FaultyRun(w, StartPass(w), env, acts, fates, |acts|).0, x)
  {
    AllClear(w, env, acts, bootstrap, i, x);
    RunIsClear(w, StartPass(w), env, acts, fates, i + 1, |acts|, x);
  }

  lemma AllClear(w: World, env: Env, acts: seq<Action>, bootstrap: bool, i: nat, x: Path)
    requires Trees(w) && FreshCopies(w, env, bootstrap) && PlanFor(acts, w, bootstrap)
    requires i < |acts| && x in Touched(env, acts[i]) && acts[i].path in w.local
    ensures forall m :: 0 <= m < |acts| && m != i ==> Clear(StartPass(w), env, acts[m], x)
  {
    forall m | 0 <= m < |acts| && m != i ensures Clear(StartPass(w), env, acts[m], x) {
      OthersAreClear(w, env, acts, bootstrap, i, m, x);
    }
  }

  /** A pass any of whose actions may fail keeps the bytes, where they were or in a copy. */
  lemma PassKeepsLocal(w: World, x: FaultyPass, q: Path, c: Content) returns (r: Path)
    requires Trees(w) && |x.acts| == |x.fates| && SafeLocal(w, q, c)
    requires FreshCopies(w, x.env, x.bootstrap) && PlanFor(x.acts, w, x.bootstrap)
    ensures SafeLocal(AfterPass(w, x), r, c) && Trees(AfterPass(w, x))
  {
    LocalStaysRooted(w, x.env, x.acts, x.fates, x.bootstrap);
    PassKeepsRooted(w, x.env, x.acts, x.fates, x.bootstrap);
    if w.ActionAt(q, x.bootstrap).Some? {
      PlanFacts(x.acts, w, x.bootstrap);
      ClassifiedHere(w, x.bootstrap, q);
      var i :| 0 <= i < |x.acts| && x.acts[i] == w.ActionAt(q, x.bootstrap).value;
      r := PlannedKeepsLocal(w, x.env, x.acts, x.fates, x.bootstrap, i, c);
    } else {
      r := q;
      forall m | 0 <= m < |x.acts| ensures Clear(StartPass(w), x.env, x.acts[m], q) {
        UnplannedIsClear(w, x.env, x.acts, x.bootstrap, q, m);
      }
      RunIsClear(w, StartPass(w), x.env, x.acts, x.fates, 0, |x.acts|, q);
      SafeStays(w, AfterPass(w, x), q, c);
    }
  }

  /** A local version that is not the baseline's is safe. */
  lemma UnseenLocalIsSafe(w: World, q: Path)
    requires KindsAgree(w) && q in w.local && !w.local[q].entry.isFolder && !LocalUnchanged(w, q)
    ensures SafeLocal(w, q, w.local[q].content)
  {
  }

  /** No number of passes, failing wherever they may, loses such bytes, whatever folders
      above them are slated for deletion. */
  lemma {:induction false} LocalForever(w: World, xs: seq<FaultyPass>, q: Path, c: Content) returns (r: Path)
    requires Trees(w) && SafeLocal(w, q, c) && Passes(w, xs)
    requires forall x :: x in xs ==> |x.acts| == |x.fates|
    ensures SafeLocal(AfterPasses(w, xs), r, c)
    decreases |xs|
  {
    r := q;
    if xs != [] {
      var p := PassKeepsLocal(w, xs[0], q, c);
      r := LocalForever(AfterPass(w, xs[0]), xs[1..], p, c);
    }
  }

  /** Nor on the drifting server. */
  lemma LocalForeverThere(w: World, xs: seq<FaultyPass>, q: Path, c: Content) returns (r: Path)
    requires Trees(w) && SafeLocal(w, q, c) && DriftPasses(w, xs)
    requires forall x :: x in xs ==> |x.acts| == |x.fates|
    ensures SafeLocal(AfterDrifts(w, xs), r, c)
  {
    var ys := StillHistory(w, xs);
    r := LocalForever(w, ys, q, c);
  }
}
