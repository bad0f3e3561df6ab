/** The baselines a completed pass leaves, column by column. */
module PairRecorded {
  import opened Basics
  import opened Paths
  import opened Reconcile
  import opened PairWorld
  import opened PairSafety
  import opened PairEffect
  import opened PairInvariant
  import opened PairPass
  import opened PairMerge
  import opened PairBootstrap
  import opened PairFirst

  /** The path is as the pass found it, or recorded. */
  ghost predicate FoundOrInStep(w: World, v: World, acted: set<Path>, p: Path) {
    if p !in acted && p in w.Known() then SameAt(w, v, p) else InStep(v, p)
  }

  lemma RecordedOneMore(
    w: World, v: World, pass: Pass, env: Env, acted: set<Path>, a: Action, bootstrap: bool, p: Path)
    requires FoundOrInStep(w, v, acted, p) && KindsAgree(v) && Enabled(v, pass, env, a, bootstrap)
    requires a.path in w.Known()
    requires a.kind == CONFLICT ==> env.copyName(a.path) !in w.Known()
    ensures FoundOrInStep(w, After(v, env, a, STEPS), acted + {a.path}, p)
  {
    if p in Touched(env, a) {
      ActionRecords(v, pass, env, a, bootstrap);
    } else {
      var x := After(v, env, a, STEPS);
      TouchesOnlyItsPath(v, env, a, STEPS);
      MergedElsewhere(v, x, Touched(env, a), p);
      StaysInStep(v, x, p);
    }
  }

  lemma StaysInStep(v: World, x: World, p: Path)
    requires SameAt(v, x, p)
    ensures InStep(v, p) ==> InStep(x, p)
  {
    assert Get(x.local, p) == Get(v.local, p) && Get(x.remote, p) == Get(v.remote, p) && Get(x.synced, p) == Get(v.synced, p);
  }

  lemma {:induction false} RecordedAlongThePass(
    w: World, env: Env, acts: seq<Action>, bootstrap: bool, k: nat, p: Path)
    requires Good(w) && FreshCopies(w, env, bootstrap) && PlanFor(acts, w, bootstrap) && k <= |acts|
    ensures FoundOrInStep(w, Run(w, StartPass(w), env, acts, k).0, ActedPaths(acts, k), p)
  {
    if k > 0 {
      RecordedAlongThePass(w, env, acts, bootstrap, k - 1, p);
      RecordedNext(w, env, acts, bootstrap, k - 1, p);
    }
  }

  lemma RecordedNext(w: World, env: Env, acts: seq<Action>, bootstrap: bool, k: nat, p: Path)
    requires Good(w) && FreshCopies(w, env, bootstrap) && PlanFor(acts, w, bootstrap) && k < |acts|
    requires FoundOrInStep(w, Run(w, StartPass(w), env, acts, k).0, ActedPaths(acts, k), p)
    ensures FoundOrInStep(w, Run(w, StartPass(w), env, acts, k + 1).0, ActedPaths(acts, k + 1), p)
  {
    var v, pass, x := NthAction(w, env, acts, bootstrap, k);
    PlannedPathsAreKnown(w, env, acts, bootstrap, acts[k]);
    RecordedOneMore(w, v, pass, env, ActedPaths(acts, k), acts[k], bootstrap, p);
  }

  /** After a completed pass every path that had an action, and every copy, is on both sides
      with its ids, etag, time and size recorded, or on neither and unrecorded; every other
      path is as it was. */
  lemma PassRecords(w: World, env: Env, acts: seq<Action>, bootstrap: bool, p: Path)
    requires Good(w) && FreshCopies(w, env, bootstrap) && PlanFor(acts, w, bootstrap)
    ensures var v := Run(w, StartPass(w), env, acts, |acts|).0;
      if p in w.Known() && w.ActionAt(p, bootstrap) == None then SameAt(w, v, p) else InStep(v, p)
  {
    RecordedAlongThePass(w, env, acts, bootstrap, |acts|, p);
    ActedIffPlanned(w, acts, bootstrap, p);
  }

  lemma ActedIffPlanned(w: World, acts: seq<Action>, bootstrap: bool, p: Path)
    requires PlanFor(acts, w, bootstrap)
    ensures p in ActedPaths(acts, |acts|) <==> w.ActionAt(p, bootstrap).Some?
  {
    if p in ActedPaths(acts, |acts|) {
      ActedPathsAre(acts, |acts|, p);
      var i :| 0 <= i < |acts| && acts[i].path == p;
      Planned(acts, w, bootstrap, acts[i]);
    }
    if w.ActionAt(p, bootstrap).Some? { PlannedIsActed(w, acts, bootstrap, p); }
  }

  lemma PlannedIsActed(w: World, acts: seq<Action>, bootstrap: bool, p: Path)
    requires PlanFor(acts, w, bootstrap) && w.ActionAt(p, bootstrap).Some?
    ensures p in ActedPaths(acts, |acts|)
  {
    ClassifiedHere(w, bootstrap, p);
    var i :| 0 <= i < |acts| && acts[i] == w.Maps().Classified(bootstrap)[p];
    ActedUpTo(acts, |acts|, i);
  }

  lemma {:induction false} ActedUpTo(acts: seq<Action>, k: nat, i: nat)
    requires i < k <= |acts|
    ensures acts[i].path in ActedPaths(acts, k)
  {
    if i < k - 1 { ActedUpTo(acts, k - 1, i); }
  }

  /** A completed first pass leaves no unrecorded path: whatever had no baseline is on both
      sides with a complete and current one, folders included, or on neither. */
  lemma FirstPassRecords(w: World, env: Env, acts: seq<Action>, p: Path)
    requires Good(w) && FreshCopies(w, env, true) && PlanFor(acts, w, true) && p !in w.synced
    ensures InStep(FirstPass(w, env, acts), p)
  {
    var v, acted := Run(w, StartPass(w), env, acts, |acts|).0, ActedPaths(acts, |acts|);
    PassRecords(w, env, acts, true, p);
    ActedIffPlanned(w, acts, true, p);
    if p in w.Known() && w.ActionAt(p, true) == None {
      UntouchedIsRecorded(w, v, acted, p);
    } else {
      ActedStaysRecorded(w, v, acted, p);
    }
  }

  lemma UntouchedIsRecorded(w: World, v: World, acted: set<Path>, p: Path)
    requires KindsAgree(w) && SameAt(w, v, p) && p !in acted && p !in w.synced && p in w.Known()
    requires w.ActionAt(p, true) == None
    ensures InStep(WithBaselines(w, v, acted), p)
  {
    var m := w.Maps();
    assert Get(m.local, p) == w.L(p) && Get(m.remote, p) == w.R(p) && Get(m.synced, p) == w.S(p);
    assert Get(w.local, p) == Get(v.local, p) && Get(w.remote, p) == Get(v.remote, p) && Get(w.synced, p) == Get(v.synced, p);
  }

  lemma ActedStaysRecorded(w: World, v: World, acted: set<Path>, p: Path)
    requires KindsAgree(w) && InStep(v, p) && p !in w.synced
    requires p in w.Known() ==> p in acted && w.ActionAt(p, true).Some?
    ensures InStep(WithBaselines(w, v, acted), p)
  {
    var m := w.Maps();
    assert Get(m.local, p) == w.L(p) && Get(m.remote, p) == w.R(p) && Get(m.synced, p) == w.S(p);
    assert p !in BootstrapBaselines(m, acted);
  }
}
