/** The first pass of a pair trusts same-size files; its baselines make the next,
    ordinary pass find nothing to do. */
module PairBootstrap {
  import opened Basics
  import opened Paths
  import opened Reconcile
  import opened PairWorld
  import opened PairSafety
  import opened PairEffect
  import opened PairInvariant
  import opened PairPass
  import opened PairMerge

  /** `_write_bootstrap_baselines`: files trusted without an action, then folders. */
  predicate GetsFileBaseline(m: Maps, acted: set<Path>, p: Path) {
    && p in m.local && p !in m.synced && p !in acted && !m.local[p].isFolder
    && p in m.remote && m.remote[p].size == m.local[p].size
  }

  predicate GetsFolderBaseline(m: Maps, p: Path) {
    p in m.local && m.local[p].isFolder && p in m.remote && p !in m.synced
  }

  function FileBaselines(m: Maps, acted: set<Path>): map<Path, SyncedEntry> {
    map p | p in m.local && GetsFileBaseline(m, acted, p) ::
      FileBaseline(m.remote[p].itemId, m.remote[p].etag, m.local[p])
  }

  function FolderBaselines(m: Maps): map<Path, SyncedEntry> {
    map p | p in m.local && GetsFolderBaseline(m, p) :: FolderBaseline(m.remote[p].itemId, m.remote[p].etag)
  }

  function BootstrapBaselines(m: Maps, acted: set<Path>): map<Path, SyncedEntry> {
    FileBaselines(m, acted) + FolderBaselines(m)
  }

  /** The paths of the first `k` actions. */
  function ActedPaths(acts: seq<Action>, k: nat): set<Path>
    requires k <= |acts|
  {
    if k == 0 then {} else ActedPaths(acts, k - 1) + {acts[k - 1].path}
  }

  /** The path is as the pass found it, or finished for good. */
  ghost predicate FoundOrFinishedAt(w: World, v: World, acted: set<Path>, p: Path) {
    if p !in acted && p in w.Known() then SameAt(w, v, p) else v.ActionAt(p, false) == None
  }

  lemma FoundOrFinishedOneMore(
    w: World, v: World, pass: Pass, env: Env, acted: set<Path>, a: Action, p: Path)
    requires FoundOrFinishedAt(w, v, acted, p) && KindsAgree(v) && Enabled(v, pass, env, a, true)
    requires a.path in w.Known()
    requires a.kind == CONFLICT ==> env.copyName(a.path) !in w.Known()
    ensures FoundOrFinishedAt(w, After(v, env, a, STEPS), acted + {a.path}, p)
  {
    if p in Touched(env, a) {
      ActionSettles(v, pass, env, a, true, false);
    } else {
      ElsewhereStays(w, v, env, acted, a, p);
    }
  }

  lemma ElsewhereStays(w: World, v: World, env: Env, acted: set<Path>, a: Action, p: Path)
    requires FoundOrFinishedAt(w, v, acted, p) && p !in Touched(env, a)
    ensures FoundOrFinishedAt(w, After(v, env, a, STEPS), acted + {a.path}, p)
  {
    var x := After(v, env, a, STEPS);
    TouchesOnlyItsPath(v, env, a, STEPS);
    SameEntriesSameAction(v, x, Touched(env, a), p, false);
    MergedElsewhere(v, x, Touched(env, a), p);
  }

  lemma {:induction false} ActedPathsAre(acts: seq<Action>, k: nat, p: Path)
    requires k <= |acts| && p in ActedPaths(acts, k)
    ensures exists i :: 0 <= i < k && acts[i].path == p
  {
    if acts[k - 1].path != p {
      ActedPathsAre(acts, k - 1, p);
    }
  }

  ghost predicate StandsAt(w: World, env: Env, acts: seq<Action>, k: nat, p: Path)
    requires k <= |acts|
  {
    FoundOrFinishedAt(w, Run(w, StartPass(w), env, acts, k).0, ActedPaths(acts, k), p)
  }

  ghost predicate StandsNext(w: World, env: Env, acts: seq<Action>, k: nat, p: Path)
    requires k < |acts|
  {
    StandsAt(w, env, acts, k, p) ==> StandsAt(w, env, acts, k + 1, p)
  }

  lemma {:induction false} StandsThroughout(w: World, env: Env, acts: seq<Action>, k: nat, p: Path)
    requires k <= |acts| && StandsAt(w, env, acts, 0, p)
    requires forall m :: 0 <= m < |acts| ==> StandsNext(w, env, acts, m, p)
    ensures StandsAt(w, env, acts, k, p)
  {
    if k > 0 {
      StandsThroughout(w, env, acts, k - 1, p);
      assert StandsNext(w, env, acts, k - 1, p);
    }
  }

  lemma BootstrapAlongThePass(w: World, env: Env, acts: seq<Action>, k: nat, p: Path)
    requires Good(w) && FreshCopies(w, env, true) && PlanFor(acts, w, true) && k <= |acts|
    ensures FoundOrFinishedAt(w, Run(w, StartPass(w), env, acts, k).0, ActedPaths(acts, k), p)
  {
    forall m | 0 <= m < |acts| ensures StandsNext(w, env, acts, m, p) {
      if StandsAt(w, env, acts, m, p) { BootstrapNext(w, env, acts, m, p); }
    }
    UnknownIsUnclassified(w, p, false);
    StandsThroughout(w, env, acts, k, p);
  }

  lemma BootstrapNext(w: World, env: Env, acts: seq<Action>, k: nat, p: Path)
    requires Good(w) && FreshCopies(w, env, true) && PlanFor(acts, w, true) && k < |acts|
    requires FoundOrFinishedAt(w, Run(w, StartPass(w), env, acts, k).0, ActedPaths(acts, k), p)
    ensures FoundOrFinishedAt(w, Run(w, StartPass(w), env, acts, k + 1).0, ActedPaths(acts, k + 1), p)
  {
    var v, pass, x := NthAction(w, env, acts, true, k);
    PlannedPathsAreKnown(w, env, acts, true, acts[k]);
    FoundOrFinishedOneMore(w, v, pass, env, ActedPaths(acts, k), acts[k], p);
  }

  /** The world with the baselines a completed bootstrap pass writes. */
  function WithBaselines(w: World, v: World, acted: set<Path>): World {
    v.(synced := v.synced + BootstrapBaselines(w.Maps(), acted))
  }

  /** An acted path is finished already, and gets no baseline that undoes it. */
  lemma ActedStaysSettled(w: World, v: World, acted: set<Path>, p: Path)
    requires FoundOrFinishedAt(w, v, acted, p) && (p in acted || p !in w.Known())
    requires p in acted ==> w.ActionAt(p, true).Some?
    ensures WithBaselines(w, v, acted).ActionAt(p, false) == None
  {
    var m := w.Maps();
    assert Get(m.local, p) == w.L(p) && Get(m.remote, p) == w.R(p) && Get(m.synced, p) == w.S(p);
    assert p !in BootstrapBaselines(m, acted);
  }

  /** A path left without an action gets its baseline. */
  lemma TrustedIsSettled(w: World, v: World, acted: set<Path>, p: Path)
    requires SameAt(w, v, p) && p !in acted && v.ActionAt(p, true) == None
    ensures WithBaselines(w, v, acted).ActionAt(p, false) == None
  {
    var m := w.Maps();
    assert Get(m.local, p) == w.L(p) && Get(m.remote, p) == w.R(p) && Get(m.synced, p) == w.S(p);
    assert Get(w.local, p) == Get(v.local, p) && Get(w.remote, p) == Get(v.remote, p) && Get(w.synced, p) == Get(v.synced, p);
  }

  lemma BaselineSettles(w: World, v: World, acted: set<Path>, p: Path)
    requires FoundOrFinishedAt(w, v, acted, p) && v.ActionAt(p, true) == None
    requires p in acted ==> w.ActionAt(p, true).Some?
    ensures WithBaselines(w, v, acted).ActionAt(p, false) == None
  {
    if p !in acted && p in w.Known() {
      TrustedIsSettled(w, v, acted, p);
    } else {
      ActedStaysSettled(w, v, acted, p);
    }
  }

  /** A bootstrap pass that completes, however often it was interrupted before, and
      writes its baselines, leaves nothing for the next, ordinary pass. */
  lemma BootstrapThenNothing(w: World, env: Env, acts: seq<Action>)
    requires Good(w) && FreshCopies(w, env, true) && PlanFor(acts, w, true)
    ensures var v := Run(w, StartPass(w), env, acts, |acts|).0;
      PlanFor([], WithBaselines(w, v, ActedPaths(acts, |acts|)), false)
  {
    var n := |acts|;
    var v := Run(w, StartPass(w), env, acts, n).0;
    var x := WithBaselines(w, v, ActedPaths(acts, n));
    forall p ensures x.ActionAt(p, false) == None {
      NothingLeftAt(w, env, acts, p);
    }
    EmptyPlan(x);
  }

  lemma EmptyPlan(x: World)
    requires forall p :: x.ActionAt(p, false) == None
    ensures PlanFor([], x, false)
  {
    forall p ensures p !in x.Maps().Classified(false) {
      ClassifiedHere(x, false, p);
    }
  }

  lemma NothingLeftAt(w: World, env: Env, acts: seq<Action>, p: Path)
    requires Good(w) && FreshCopies(w, env, true) && PlanFor(acts, w, true)
    ensures var v := Run(w, StartPass(w), env, acts, |acts|).0;
      WithBaselines(w, v, ActedPaths(acts, |acts|)).ActionAt(p, false) == None
  {
    var n := |acts|;
    BootstrapAlongThePass(w, env, acts, n, p);
    NoActionIsLeft(w, env, acts, p);
    if p in ActedPaths(acts, n) {
      ActedPathsAre(acts, n, p);
      var i :| 0 <= i < n && acts[i].path == p;
      Planned(acts, w, true, acts[i]);
    }
    BaselineSettles(w, Run(w, StartPass(w), env, acts, n).0, ActedPaths(acts, n), p);
  }

  lemma NoActionIsLeft(w: World, env: Env, acts: seq<Action>, p: Path)
    requires Good(w) && FreshCopies(w, env, true) && PlanFor(acts, w, true)
    ensures Run(w, StartPass(w), env, acts, |acts|).0.ActionAt(p, true) == None
  {
    ResumeIsExact(w, env, acts, true, |acts|);
    assert acts[|acts|..] == [];
    ClassifiedHere(Run(w, StartPass(w), env, acts, |acts|).0, true, p);
  }
}
