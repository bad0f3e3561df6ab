/** Whatever fails in a pass, local entries stay in local folders. */
module PairRooted {
  import opened Basics
  import opened Paths
  import opened Reconcile
  import opened PairWorld
  import opened PairSafety
  import opened PairEffect
  import opened PairPass
  import opened PairFrame
  import opened PairConverge
  import opened PairFault
  import opened PairStaged
  import opened PairSwept

  // ---- planned actions keep apart ----

  /** Both trees hold every ancestor of their paths, as folders. */
  ghost predicate Trees(w: World) { LocalRooted(w) && TreeOf(w) }

  lemma PlannedIsChosen(w: World, env: Env, acts: seq<Action>, bootstrap: bool, i: nat)
    requires Trees(w) && FreshCopies(w, env, bootstrap) && PlanFor(acts, w, bootstrap) && i < |acts|
    ensures Chosen(w, env, acts[i], bootstrap)
  {
    Planned(acts, w, bootstrap, acts[i]);
    assert acts[i].kind == CONFLICT ==> InConflict(w, acts[i].path, bootstrap);
  }

  lemma ActionsAreApart(w: World, env: Env, acts: seq<Action>, bootstrap: bool, pass: Pass, i: nat, j: nat)
    requires Trees(w) && FreshCopies(w, env, bootstrap) && PlanFor(acts, w, bootstrap) && i < |acts| && j < |acts| && i != j
    requires pass.snapshot == w.RemoteMap()
    ensures forall x :: x in Touched(env, acts[i]) ==> !MayWrite(pass, env, acts[j], x)
  {
    var a, b := acts[i], acts[j];
    PlannedIsChosen(w, env, acts, bootstrap, i);
    PlannedIsChosen(w, env, acts, bootstrap, j);
    Planned(acts, w, bootstrap, a);
    Planned(acts, w, bootstrap, b);
    assert a.path != b.path;
    if a.kind == CONFLICT && b.kind == CONFLICT { assert InConflict(w, a.path, bootstrap) && InConflict(w, b.path, bootstrap); }
    if b.kind == CONFLICT {
      CopyInRooted(w, env, b, bootstrap);
      assert CopyTarget(pass, env.copyName(b.path)) == CopyTarget(StartPass(w), env.copyName(b.path));
    }
    ChosenAreApart(w, env, a, b, pass);
  }

  lemma ChosenAreApart(w: World, env: Env, a: Action, b: Action, pass: Pass)
    requires a.path in w.Known() && b.path in w.Known() && a.path != b.path
    requires a.kind == CONFLICT ==> env.copyName(a.path) !in w.Known()
    requires b.kind == CONFLICT ==> env.copyName(b.path) !in w.Known() && CopyTarget(pass, env.copyName(b.path)) == env.copyName(b.path)
    requires a.kind == CONFLICT && b.kind == CONFLICT ==> env.copyName(a.path) != env.copyName(b.path)
    ensures forall x :: x in Touched(env, a) ==> !MayWrite(pass, env, b, x)
  {
  }

  // ---- local entries stay in local folders ----

  predicate InFolder(m: map<Path, LocalNode>, x: Path) {
    x != "" && (Dirname(x) == "" || (Dirname(x) in m && m[Dirname(x)].entry.isFolder))
  }

  /** A conflict renames a file, never a folder with what is in it, and beside itself. */
  predicate MovesFile(v: World, env: Env, a: Action) {
    a.kind == CONFLICT && a.path in v.local ==> !v.local[a.path].entry.isFolder
  }

  predicate CopiesBeside(env: Env, a: Action) {
    a.path != "" && (a.kind == CONFLICT ==> env.copyName(a.path) != "" && Dirname(env.copyName(a.path)) == Dirname(a.path))
  }

  lemma {:induction false} MadeIsRooted(m: map<Path, LocalNode>, d: Path, x: Path)
    requires forall q :: q in m ==> InFolder(m, q)
    requires MakeDirs(m, d).Some? && x in MakeDirs(m, d).value
    ensures InFolder(MakeDirs(m, d).value, x)
    decreases |d|
  {
    MakeDirsKeeps(m, d);
    if d != "" && d !in m {
      if x != d { MadeIsRooted(m, Dirname(d), x); } else if Dirname(d) != "" { MakeDirsIsFolder(m, Dirname(d)); }
    } else {
      assert MakeDirs(m, d).value == m;
      assert InFolder(m, x);
    }
  }

  lemma MakeDirsIsFolder(m: map<Path, LocalNode>, d: Path)
    requires d != ""
    ensures MakeDirs(m, d).Some? ==> d in MakeDirs(m, d).value && MakeDirs(m, d).value[d].entry.isFolder
  {
  }

  lemma WriteKeepsInFolder(v: World, pass: Pass, env: Env, a: Action, n: nat, x: Path)
    requires forall q :: q in v.local ==> InFolder(v.local, q)
    requires CopiesBeside(env, a) && (n == 1 ==> MovesFile(v, env, a))
    requires x in Write(v, pass, env, a, n).w.local
    ensures InFolder(Write(v, pass, env, a, n).w.local, x)
  {
    if a.kind == CREATE_LOCAL_DIR {
      if n == 1 && MakeDirs(v.local, a.path).Some? { MadeIsRooted(v.local, a.path, x); }
    } else if a.kind == DOWNLOAD {
      DownloadKeepsInFolder(v, pass, env, a, n, x);
    } else if a.kind == CONFLICT {
      ConflictKeepsInFolder(v, pass, env, a, n, x);
    } else {
      RestKeepsInFolder(v, pass, env, a, n, x);
    }
  }

  lemma DownloadKeepsInFolder(v: World, pass: Pass, env: Env, a: Action, n: nat, x: Path)
    requires forall q :: q in v.local ==> InFolder(v.local, q)
    requires a.kind == DOWNLOAD && a.path != "" && x in Write(v, pass, env, a, n).w.local
    ensures InFolder(Write(v, pass, env, a, n).w.local, x)
  {
    if n == 1 && MakeDirs(v.local, Dirname(a.path)).Some? { MadeIsRooted(v.local, Dirname(a.path), x); }
  }

  lemma RestKeepsInFolder(v: World, pass: Pass, env: Env, a: Action, n: nat, x: Path)
    requires forall q :: q in v.local ==> InFolder(v.local, q)
    requires a.kind !in {CREATE_LOCAL_DIR, DOWNLOAD, CONFLICT} && x in Write(v, pass, env, a, n).w.local
    ensures InFolder(Write(v, pass, env, a, n).w.local, x)
  {
    if a.kind == DELETE_LOCAL { DeleteKeepsInFolder(v, a.path, n, x); } else { assert Write(v, pass, env, a, n).w.local == v.local; }
  }

  lemma DeleteKeepsInFolder(v: World, p: Path, n: nat, x: Path)
    requires x in v.local ==> InFolder(v.local, x)
    requires x in DeleteLocalWrite(v, p, n).w.local
    ensures InFolder(DeleteLocalWrite(v, p, n).w.local, x)
  {
    if Dirname(x) != "" { DirnameIsOneUp(x); }
    assert x in v.local;
  }

  lemma ConflictKeepsInFolder(v: World, pass: Pass, env: Env, a: Action, n: nat, x: Path)
    requires forall q :: q in v.local ==> InFolder(v.local, q)
    requires a.kind == CONFLICT && CopiesBeside(env, a) && (n == 1 ==> MovesFile(v, env, a))
    requires x in Write(v, pass, env, a, n).w.local
    ensures InFolder(Write(v, pass, env, a, n).w.local, x)
  {
    if n == 4 && MakeDirs(v.local, Dirname(a.path)).Some? { MadeIsRooted(v.local, Dirname(a.path), x); }
  }

  lemma {:induction false} WritesKeepLocalRooted(v: World, pass: Pass, env: Env, a: Action, n: nat)
    requires LocalRooted(v) && CopiesBeside(env, a) && MovesFile(v, env, a)
    ensures LocalRooted(Writes(v, pass, env, a, n).w)
  {
    if n > 0 {
      WritesKeepLocalRooted(v, pass, env, a, n - 1);
      var u := Writes(v, pass, env, a, n - 1).w;
      if Writes(v, pass, env, a, n - 1).Done? {
        var t := Write(u, pass, env, a, n).w;
        forall q | q in u.local ensures InFolder(u.local, q) { assert HasLocalFolder(u, q); }
        forall x | x in t.local ensures x != "" && HasLocalFolder(t, x) {
          WriteKeepsInFolder(u, pass, env, a, n, x);
        }
      }
    }
  }

  ghost predicate LocalThrough(w: World, env: Env, acts: seq<Action>, fates: seq<nat>, k: nat)
    requires k <= |acts| == |fates|
  {
    LocalRooted(FaultyRun(w, StartPass(w), env, acts, fates, k).0)
  }

  ghost predicate LocalNext(w: World, env: Env, acts: seq<Action>, fates: seq<nat>, k: nat)
    requires k < |acts| == |fates|
  {
    LocalThrough(w, env, acts, fates, k) ==> LocalThrough(w, env, acts, fates, k + 1)
  }

  /** A conflict's file is untouched until its turn. */
  lemma TurnMovesFile(w: World, env: Env, acts: seq<Action>, fates: seq<nat>, bootstrap: bool, k: nat)
    requires Trees(w) && FreshCopies(w, env, bootstrap) && PlanFor(acts, w, bootstrap) && k < |acts| == |fates|
    ensures MovesFile(FaultyRun(w, StartPass(w), env, acts, fates, k).0, env, acts[k])
  {
    var a := acts[k];
    Planned(acts, w, bootstrap, a);
    if a.kind == CONFLICT {
      forall i | 0 <= i < k ensures !MayWrite(StartPass(w), env, acts[i], a.path) {
        ActionsAreApart(w, env, acts, bootstrap, StartPass(w), k, i);
      }
      FaultyLeavesOthers(w, StartPass(w), env, acts, fates, k, a.path);
      assert !w.local[a.path].entry.isFolder;
    }
  }

  lemma OneMoreLocal(w: World, env: Env, acts: seq<Action>, fates: seq<nat>, bootstrap: bool, k: nat)
    requires Trees(w) && FreshCopies(w, env, bootstrap) && PlanFor(acts, w, bootstrap) && k < |acts| == |fates|
    ensures LocalNext(w, env, acts, fates, k)
  {
    var (v, pass) := FaultyRun(w, StartPass(w), env, acts, fates, k);
    PlannedIsChosen(w, env, acts, bootstrap, k);
    TurnMovesFile(w, env, acts, fates, bootstrap, k);
    if LocalRooted(v) { WritesKeepLocalRooted(v, pass, env, acts[k], fates[k]); }
  }

  lemma {:induction false} LocalThroughout(w: World, env: Env, acts: seq<Action>, fates: seq<nat>, k: nat)
    requires LocalRooted(w) && k <= |acts| == |fates| && forall j :: 0 <= j < |acts| ==> LocalNext(w, env, acts, fates, j)
    ensures LocalThrough(w, env, acts, fates, k)
  {
    if k > 0 {
      LocalThroughout(w, env, acts, fates, k - 1);
      assert LocalNext(w, env, acts, fates, k - 1);
    }
  }

  lemma LocalStaysRooted(w: World, env: Env, acts: seq<Action>, fates: seq<nat>, bootstrap: bool)
    requires Trees(w) && FreshCopies(w, env, bootstrap) && PlanFor(acts, w, bootstrap) && |acts| == |fates|
    ensures LocalRooted(FaultyRun(w, StartPass(w), env, acts, fates, |acts|).0)
  {
    forall j | 0 <= j < |acts| ensures LocalNext(w, env, acts, fates, j) {
      OneMoreLocal(w, env, acts, fates, bootstrap, j);
    }
    LocalThroughout(w, env, acts, fates, |acts|);
  }
}
