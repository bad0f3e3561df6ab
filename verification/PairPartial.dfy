/** A pass in which actions fail part-way leaves every path at a stage of its own
    action, and a world the next pass may start from. */
module PairPartial {
  import opened Basics
  import opened Paths
  import opened Reconcile
  import opened PairWorld
  import opened PairSafety
  import opened PairEffect
  import opened PairInvariant
  import opened PairPass
  import opened PairMerge
  import opened PairFrame
  import opened PairConverge
  import opened PairFault
  import opened PairSwept
  import opened PairStaged
  import opened PairRooted

  // ---- one action beside another ----

  /** The paths of `b` when `a` is at work. */
  ghost predicate BesideAll(v: World, u: World, env: Env, a: Action, b: Action) {
    forall x :: x in Touched(env, b) ==> Beside(v, u, a, x)
  }

  lemma StaysStaged(w: World, v: World, u: World, env: Env, a: Action, b: Action, bootstrap: bool, n: nat)
    requires Good(w) && Chosen(w, env, a, bootstrap) && Chosen(w, env, b, bootstrap) && BesideAll(v, u, env, a, b)
    requires StagedAs(w, env, b, v, n)
    ensures StagedAs(w, env, b, u, n) || (n == 0 && b.kind in {CREATE_LOCAL_DIR, DELETE_REMOTE} && StagedAs(w, env, b, u, 1))
  {
    assert Beside(v, u, a, b.path) && SameAt(After(w, env, b, n), v, b.path);
    if b.kind == CONFLICT {
      CopyIsSpared(w, v, u, env, a, b, bootstrap, n);
      StagedTwice(w, v, u, env, b, n);
    } else if SameAt(v, u, b.path) {
      StagedTwice(w, v, u, env, b, n);
    } else {
      PathIsSpared(w, v, u, env, a, b, bootstrap, n);
    }
  }

  lemma StagedTwice(w: World, v: World, u: World, env: Env, b: Action, n: nat)
    requires StagedAs(w, env, b, v, n) && SameAt(v, u, b.path)
    requires b.kind == CONFLICT ==> SameAt(v, u, env.copyName(b.path))
    ensures StagedAs(w, env, b, u, n)
  {
    forall x | x in Touched(env, b) ensures SameAt(After(w, env, b, n), u, x) {
      SameTwice(After(w, env, b, n), v, u, x);
    }
  }

  lemma SameTwice(w: World, v: World, u: World, x: Path)
    requires SameAt(w, v, x) && SameAt(v, u, x)
    ensures SameAt(w, u, x)
  {
  }

  lemma PathIsSpared(w: World, v: World, u: World, env: Env, a: Action, b: Action, bootstrap: bool, n: nat)
    requires Good(w) && Chosen(w, env, a, bootstrap) && Chosen(w, env, b, bootstrap)
    requires Beside(v, u, a, b.path) && SameAt(After(w, env, b, n), v, b.path) && !SameAt(v, u, b.path)
    ensures n == 0 && b.kind in {CREATE_LOCAL_DIR, DELETE_REMOTE} && SameAt(After(w, env, b, 1), u, b.path)
  {
    var x := b.path;
    ActionFacts(w, b, bootstrap);
    if Get(u.local, x) != Get(v.local, x) {
      MadeIsPlanned(w, env, a, bootstrap, x);
    } else {
      SweptIsPlanned(w, env, a, bootstrap, x);
    }
  }

  lemma CopyIsSpared(w: World, v: World, u: World, env: Env, a: Action, b: Action, bootstrap: bool, n: nat)
    requires Good(w) && Chosen(w, env, a, bootstrap) && Chosen(w, env, b, bootstrap) && b.kind == CONFLICT
    requires BesideAll(v, u, env, a, b)
    ensures SameAt(v, u, env.copyName(b.path)) && SameAt(v, u, b.path)
  {
    var copy := env.copyName(b.path);
    ActionFacts(w, b, bootstrap);
    assert Beside(v, u, a, b.path) && Beside(v, u, a, copy);
    if Get(u.local, copy) != Get(v.local, copy) { MadeIsPlanned(w, env, a, bootstrap, copy); }
    if Get(u.local, b.path) != Get(v.local, b.path) { MadeIsPlanned(w, env, a, bootstrap, b.path); }
    if a.kind == DELETE_REMOTE && Below(b.path, a.path) { SweptIsPlanned(w, env, a, bootstrap, b.path); }
    if a.kind == DELETE_REMOTE && Below(copy, a.path) { SiblingsShareAncestors(copy, b.path, a.path); }
  }

  // ---- the whole pass ----

  /** A pass of which the `i`-th action ends after `fates[i]` writes. */
  ghost predicate Faulty(w: World, env: Env, acts: seq<Action>, fates: seq<nat>, bootstrap: bool) {
    && Good(w) && FreshCopies(w, env, bootstrap) && PlanFor(acts, w, bootstrap)
    && |acts| == |fates|
  }

  /** Action `i` before and after its turn in a run of `k` actions. */
  ghost predicate Standing(w: World, env: Env, acts: seq<Action>, v: World, i: nat, k: nat)
    requires i < |acts|
  {
    if i < k then SomeStage(w, env, acts[i], v) else Unrun(w, env, acts[i], v)
  }

  lemma StandingKept(w: World, v: World, pass: Pass, env: Env, acts: seq<Action>, fates: seq<nat>, bootstrap: bool, i: nat, j: nat)
    requires Faulty(w, env, acts, fates, bootstrap) && i < |acts| && j < |acts| && pass.snapshot == w.RemoteMap()
    requires Standing(w, env, acts, v, i, j)
    ensures Standing(w, env, acts, Writes(v, pass, env, acts[j], fates[j]).w, i, j + 1)
  {
    PlannedIsChosen(w, env, acts, bootstrap, i);
    if i == j {
      OwnEffect(w, v, pass, env, acts[i], bootstrap, fates[i]);
    } else {
      var u := Writes(v, pass, env, acts[j], fates[j]).w;
      PlannedIsChosen(w, env, acts, bootstrap, j);
      ActionsAreApart(w, env, acts, bootstrap, pass, i, j);
      forall x | x in Touched(env, acts[i]) ensures Beside(v, u, acts[j], x) {
        WritesBeside(v, pass, env, acts[j], fates[j], x);
      }
      if i < j {
        var n: nat :| StagedAs(w, env, acts[i], v, n);
        StaysStaged(w, v, u, env, acts[j], acts[i], bootstrap, n);
      } else if StagedAs(w, env, acts[i], v, 0) {
        StaysStaged(w, v, u, env, acts[j], acts[i], bootstrap, 0);
      } else {
        StaysStaged(w, v, u, env, acts[j], acts[i], bootstrap, 1);
      }
    }
  }

  ghost predicate StandsAt(w: World, env: Env, acts: seq<Action>, fates: seq<nat>, i: nat, k: nat)
    requires i < |acts| == |fates| && k <= |acts|
  {
    Standing(w, env, acts, FaultyRun(w, StartPass(w), env, acts, fates, k).0, i, k)
  }

  lemma NoneStarted(w: World, env: Env, acts: seq<Action>, fates: seq<nat>, i: nat)
    requires i < |acts| == |fates|
    ensures StandsAt(w, env, acts, fates, i, 0)
  {
    assert After(w, env, acts[i], 0) == w;
  }

  lemma OneMoreStands(w: World, env: Env, acts: seq<Action>, fates: seq<nat>, bootstrap: bool, i: nat, k: nat)
    requires Faulty(w, env, acts, fates, bootstrap) && i < |acts| && k < |acts| && StandsAt(w, env, acts, fates, i, k)
    ensures StandsAt(w, env, acts, fates, i, k + 1)
  {
    var (v, pass) := FaultyRun(w, StartPass(w), env, acts, fates, k);
    FaultySnapshot(w, StartPass(w), env, acts, fates, k);
    StandingKept(w, v, pass, env, acts, fates, bootstrap, i, k);
    assert FaultyRun(w, StartPass(w), env, acts, fates, k + 1).0 == Writes(v, pass, env, acts[k], fates[k]).w;
  }

  ghost predicate StandsNext(w: World, env: Env, acts: seq<Action>, fates: seq<nat>, i: nat, k: nat)
    requires i < |acts| == |fates| && k < |acts|
  {
    StandsAt(w, env, acts, fates, i, k) ==> StandsAt(w, env, acts, fates, i, k + 1)
  }

  lemma {:induction false} StandsThroughout(w: World, env: Env, acts: seq<Action>, fates: seq<nat>, i: nat, k: nat)
    requires i < |acts| == |fates| && k <= |acts| && forall j :: 0 <= j < |acts| ==> StandsNext(w, env, acts, fates, i, j)
    ensures StandsAt(w, env, acts, fates, i, k)
  {
    if k == 0 {
      NoneStarted(w, env, acts, fates, i);
    } else {
      StandsThroughout(w, env, acts, fates, i, k - 1);
      assert StandsNext(w, env, acts, fates, i, k - 1);
    }
  }

  lemma RunStands(w: World, env: Env, acts: seq<Action>, fates: seq<nat>, bootstrap: bool, i: nat, k: nat)
    requires Faulty(w, env, acts, fates, bootstrap) && i < |acts| && k <= |acts|
    ensures StandsAt(w, env, acts, fates, i, k)
  {
    forall j | 0 <= j < |acts| ensures StandsNext(w, env, acts, fates, i, j) {
      if StandsAt(w, env, acts, fates, i, j) { OneMoreStands(w, env, acts, fates, bootstrap, i, j); }
    }
    StandsThroughout(w, env, acts, fates, i, k);
  }

  /** No action has this path or copies to it. */
  ghost predicate Nobodys(env: Env, acts: seq<Action>, x: Path) {
    forall i :: 0 <= i < |acts| ==> x !in Touched(env, acts[i])
  }

  lemma NobodysKept(w: World, v: World, pass: Pass, env: Env, acts: seq<Action>, fates: seq<nat>, bootstrap: bool, j: nat, x: Path)
    requires Faulty(w, env, acts, fates, bootstrap) && j < |acts| && pass.snapshot == w.RemoteMap()
    requires Nobodys(env, acts, x) && SameAt(w, v, x)
    ensures SameAt(w, Writes(v, pass, env, acts[j], fates[j]).w, x)
  {
    var a := acts[j];
    PlannedIsChosen(w, env, acts, bootstrap, j);
    assert x !in Touched(env, a);
    if a.kind == CONFLICT { CopyBeside(w, pass, env, a, bootstrap); }
    WritesBeside(v, pass, env, a, fates[j], x);
    if w.ActionAt(x, bootstrap).Some? { ActedPathsAreSomebodys(w, env, acts, bootstrap, x); }
    NobodyIsBeside(w, v, Writes(v, pass, env, a, fates[j]).w, env, a, bootstrap, x);
  }

  /** A path without an action is on nobody's way. */
  lemma NobodyIsBeside(w: World, v: World, u: World, env: Env, a: Action, bootstrap: bool, x: Path)
    requires Good(w) && Chosen(w, env, a, bootstrap) && w.ActionAt(x, bootstrap).None?
    requires SameAt(w, v, x) && Beside(v, u, a, x)
    ensures SameAt(w, u, x)
  {
    if Get(u.local, x) != Get(v.local, x) { MadeIsPlanned(w, env, a, bootstrap, x); }
    if Get(u.remote, x) != Get(v.remote, x) {
      assert x in v.remote;
      SweptIsPlanned(w, env, a, bootstrap, x);
    }
  }

  lemma ActedPathsAreSomebodys(w: World, env: Env, acts: seq<Action>, bootstrap: bool, x: Path)
    requires PlanFor(acts, w, bootstrap) && w.ActionAt(x, bootstrap).Some?
    ensures !Nobodys(env, acts, x)
  {
    PlanFacts(acts, w, bootstrap);
    ClassifiedHere(w, bootstrap, x);
    var a := w.ActionAt(x, bootstrap).value;
    var i :| 0 <= i < |acts| && acts[i] == a;
    assert x in Touched(env, acts[i]);
  }

  ghost predicate SameThrough(w: World, env: Env, acts: seq<Action>, fates: seq<nat>, x: Path, k: nat)
    requires k <= |acts| == |fates|
  {
    SameAt(w, FaultyRun(w, StartPass(w), env, acts, fates, k).0, x)
  }

  lemma OneMoreLeaves(w: World, env: Env, acts: seq<Action>, fates: seq<nat>, bootstrap: bool, k: nat, x: Path)
    requires Faulty(w, env, acts, fates, bootstrap) && k < |acts| && Nobodys(env, acts, x)
    requires SameThrough(w, env, acts, fates, x, k)
    ensures SameThrough(w, env, acts, fates, x, k + 1)
  {
    var (v, pass) := FaultyRun(w, StartPass(w), env, acts, fates, k);
    FaultySnapshot(w, StartPass(w), env, acts, fates, k);
    NobodysKept(w, v, pass, env, acts, fates, bootstrap, k, x);
  }

  ghost predicate SameNext(w: World, env: Env, acts: seq<Action>, fates: seq<nat>, x: Path, k: nat)
    requires k < |acts| == |fates|
  {
    SameThrough(w, env, acts, fates, x, k) ==> SameThrough(w, env, acts, fates, x, k + 1)
  }

  lemma {:induction false} SameThroughout(w: World, env: Env, acts: seq<Action>, fates: seq<nat>, x: Path, k: nat)
    requires k <= |acts| == |fates| && forall j :: 0 <= j < |acts| ==> SameNext(w, env, acts, fates, x, j)
    ensures SameThrough(w, env, acts, fates, x, k)
  {
    if k > 0 {
      SameThroughout(w, env, acts, fates, x, k - 1);
      assert SameNext(w, env, acts, fates, x, k - 1);
    }
  }

  lemma RunLeavesNobodys(w: World, env: Env, acts: seq<Action>, fates: seq<nat>, bootstrap: bool, x: Path)
    requires Faulty(w, env, acts, fates, bootstrap) && Nobodys(env, acts, x)
    ensures SameAt(w, FaultyRun(w, StartPass(w), env, acts, fates, |acts|).0, x)
  {
    forall j | 0 <= j < |acts| ensures SameNext(w, env, acts, fates, x, j) {
      if SameThrough(w, env, acts, fates, x, j) { OneMoreLeaves(w, env, acts, fates, bootstrap, j, x); }
    }
    SameThroughout(w, env, acts, fates, x, |acts|);
  }

  // ---- what the next pass starts from ----

  /** Where a path is after a pass: as before it, or at a stage of the action it belongs to. */
  ghost predicate PathStands(w: World, env: Env, bootstrap: bool, v: World, x: Path) {
    SameAt(w, v, x) || exists a, n: nat :: StageOf(w, env, a, bootstrap, n, v, x)
  }

  ghost predicate StageOf(w: World, env: Env, a: Action, bootstrap: bool, n: nat, v: World, x: Path) {
    Chosen(w, env, a, bootstrap) && x in Touched(env, a) && n >= 1 && SameAt(After(w, env, a, n), v, x)
  }

  lemma PassStands(w: World, env: Env, acts: seq<Action>, fates: seq<nat>, bootstrap: bool, x: Path)
    requires Faulty(w, env, acts, fates, bootstrap)
    ensures PathStands(w, env, bootstrap, FaultyRun(w, StartPass(w), env, acts, fates, |acts|).0, x)
  {
    if Nobodys(env, acts, x) {
      RunLeavesNobodys(w, env, acts, fates, bootstrap, x);
    } else {
      var i :| 0 <= i < |acts| && x in Touched(env, acts[i]);
      RunStands(w, env, acts, fates, bootstrap, i, |acts|);
      PlannedIsChosen(w, env, acts, bootstrap, i);
      SomeStageStands(w, env, acts[i], bootstrap, FaultyRun(w, StartPass(w), env, acts, fates, |acts|).0, x);
    }
  }

  lemma SomeStageStands(w: World, env: Env, a: Action, bootstrap: bool, v: World, x: Path)
    requires Chosen(w, env, a, bootstrap) && SomeStage(w, env, a, v) && x in Touched(env, a)
    ensures PathStands(w, env, bootstrap, v, x)
  {
    var n: nat :| StagedAs(w, env, a, v, n);
    if n == 0 { assert After(w, env, a, 0) == w; } else { assert StageOf(w, env, a, bootstrap, n, v, x); }
  }

  lemma SameFate(w: World, v: World, x: Path)
    requires SameAt(w, v, x)
    ensures KindsAgreeAt(w, x) == KindsAgreeAt(v, x)
    ensures Doomed(w, x) == Doomed(v, x) && Vanishes(w, x) == Vanishes(v, x) && (x in w.Known() <==> x in v.Known())
  {
    assert (x in w.local <==> x in v.local) && (x in w.remote <==> x in v.remote) && (x in w.synced <==> x in v.synced);
  }

  lemma KindsStand(w: World, env: Env, bootstrap: bool, v: World, x: Path)
    requires KindsAgree(w) && PathStands(w, env, bootstrap, v, x)
    ensures KindsAgreeAt(v, x)
  {
    if SameAt(w, v, x) {
      KindsAgreePointwise(w);
      SameFate(w, v, x);
    } else {
      var a, n: nat :| StageOf(w, env, a, bootstrap, n, v, x);
      KindsAgreeAtPath(w, env, a, bootstrap, n);
      if a.kind == CONFLICT { KindsAgreeAtCopy(w, env, a, bootstrap, n); }
      SameFate(After(w, env, a, n), v, x);
    }
  }

  /** A folder slated for deletion afterwards was slated before. */
  lemma DoomStands(w: World, env: Env, bootstrap: bool, v: World, d: Path)
    requires KindsAgree(w) && PathStands(w, env, bootstrap, v, d)
    ensures Doomed(v, d) ==> Doomed(w, d)
  {
    if SameAt(w, v, d) {
      SameFate(w, v, d);
    } else {
      var a, n: nat :| StageOf(w, env, a, bootstrap, n, v, d);
      NoDoomAtStage(w, env, a, bootstrap, n, d);
      SameFate(After(w, env, a, n), v, d);
    }
  }

  lemma NoDoomAtStage(w: World, env: Env, a: Action, bootstrap: bool, n: nat, d: Path)
    requires KindsAgree(w) && Chosen(w, env, a, bootstrap) && n >= 1 && d in Touched(env, a)
    ensures !Doomed(After(w, env, a, n), d)
  {
    PathAfter(w, env, a, bootstrap, n);
    CopyIsNoFolder(w, env, a, bootstrap, n);
  }

  lemma BelowDoomedIsDeleted(w: World, env: Env, a: Action, bootstrap: bool, d: Path, x: Path)
    requires Good(w) && Chosen(w, env, a, bootstrap) && x in Touched(env, a) && Doomed(w, d) && Below(x, d) && d != ""
    ensures IsDelete(a) && x == a.path
  {
    if x != a.path { SiblingsShareAncestors(x, a.path, d); }
    ActionFacts(w, a, bootstrap);
    VanishesIsDelete(w, a.path, bootstrap);
  }

  /** What was below it is still slated for deletion, or gone. */
  lemma InsideStands(w: World, env: Env, bootstrap: bool, v: World, d: Path, x: Path)
    requires Good(w) && PathStands(w, env, bootstrap, v, x) && Doomed(w, d) && Below(x, d) && d != ""
    ensures x in v.Known() ==> Vanishes(v, x)
  {
    if SameAt(w, v, x) {
      SameFate(w, v, x);
    } else {
      var a, n: nat :| StageOf(w, env, a, bootstrap, n, v, x);
      BelowDoomedIsDeleted(w, env, a, bootstrap, d, x);
      SameFate(After(w, env, a, n), v, x);
      PathAfter(w, env, a, bootstrap, n);
    }
  }

  lemma DeleteClosedStands(w: World, env: Env, acts: seq<Action>, fates: seq<nat>, bootstrap: bool)
    requires Faulty(w, env, acts, fates, bootstrap)
    ensures DeleteClosed(FaultyRun(w, StartPass(w), env, acts, fates, |acts|).0)
  {
    var v := FaultyRun(w, StartPass(w), env, acts, fates, |acts|).0;
    forall d, x | Doomed(v, d) && x in v.Known() && Below(x, d) ensures Vanishes(v, x) {
      PassStands(w, env, acts, fates, bootstrap, d);
      PassStands(w, env, acts, fates, bootstrap, x);
      DoomStands(w, env, bootstrap, v, d);
      assert d != "" by { RootsAreNamed(w); }
      InsideStands(w, env, bootstrap, v, d, x);
    }
  }

  lemma RootsAreNamed(w: World)
    requires Good(w)
    ensures "" !in w.Known()
  {
  }

  lemma KindsAllStand(w: World, env: Env, acts: seq<Action>, fates: seq<nat>, bootstrap: bool)
    requires Faulty(w, env, acts, fates, bootstrap)
    ensures KindsAgree(FaultyRun(w, StartPass(w), env, acts, fates, |acts|).0)
  {
    var v := FaultyRun(w, StartPass(w), env, acts, fates, |acts|).0;
    KindsAgreePointwise(v);
    forall x ensures KindsAgreeAt(v, x) {
      PassStands(w, env, acts, fates, bootstrap, x);
      KindsStand(w, env, bootstrap, v, x);
    }
  }

  lemma RemoteStands(w: World, env: Env, acts: seq<Action>, fates: seq<nat>, bootstrap: bool)
    requires Faulty(w, env, acts, fates, bootstrap)
    ensures var v := FaultyRun(w, StartPass(w), env, acts, fates, |acts|).0; RemoteRooted(v) && "" !in v.Known()
  {
    RootsAreNamed(w);
    forall m | 0 <= m < |acts| ensures Named(w, env, acts[m]) {
      PlannedIsChosen(w, env, acts, bootstrap, m);
      if acts[m].kind == CONFLICT { CopyBeside(w, StartPass(w), env, acts[m], bootstrap); }
    }
    FaultyKeepsRooted(w, env, acts, fates, |acts|);
  }

  /** Whatever fails in a pass, the next one may start from what it leaves. */
  lemma FaultyPassKeepsGood(w: World, env: Env, acts: seq<Action>, fates: seq<nat>, bootstrap: bool)
    requires Faulty(w, env, acts, fates, bootstrap)
    ensures Good(FaultyRun(w, StartPass(w), env, acts, fates, |acts|).0)
  {
    KindsAllStand(w, env, acts, fates, bootstrap);
    LocalStaysRooted(w, env, acts, fates, bootstrap);
    RemoteStands(w, env, acts, fates, bootstrap);
    DeleteClosedStands(w, env, acts, fates, bootstrap);
  }
}
