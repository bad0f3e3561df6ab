/** The drifting server with failing actions: a refused delete is an action that ends before
    its first write. */
module PairDriftFault {
  import opened Basics
  import opened Paths
  import opened Reconcile
  import opened PairWorld
  import opened PairSafety
  import opened PairPass
  import opened PairConverge
  import opened PairFault
  import opened PairDrift
  import opened PairCrash
  import opened PairKept

  /** The first `n` writes of an action, unless the server refuses it. */
  function DriftPart(s: Drift, env: Env, a: Action, n: nat): Drift {
    if Refused(a, s.touched) then s.(refused := s.refused + {a.path})
    else
      var (v, next) := ExecutePart(s.w, s.pass, env, a, n);
      Drift(v, next, if v.remote != s.w.remote then s.touched + {Dirname(RemotePath(s.pass, env, a))} else s.touched, s.refused)
  }

  function DriftFaulty(w: World, pass: Pass, env: Env, acts: seq<Action>, fates: seq<nat>, k: nat): Drift
    requires k <= |acts| == |fates|
  {
    if k == 0 then Drift(w, pass, {}, {})
    else DriftPart(DriftFaulty(w, pass, env, acts, fates, k - 1), env, acts[k - 1], fates[k - 1])
  }

  function Whole(n: nat): (fates: seq<nat>)
    ensures |fates| == n && forall i :: 0 <= i < n ==> fates[i] == STEPS
  {
    seq(n, _ => STEPS)
  }

  /** Nothing fails: the drifting pass. */
  lemma {:induction false} WholeDrift(w: World, pass: Pass, env: Env, acts: seq<Action>, k: nat)
    requires k <= |acts|
    ensures DriftFaulty(w, pass, env, acts, Whole(|acts|), k) == DriftFrom(w, pass, env, acts, k)
  {
    if k > 0 {
      WholeDrift(w, pass, env, acts, k - 1);
      var s := DriftFrom(w, pass, env, acts, k - 1);
      WholeExecution(s.w, s.pass, env, acts[k - 1]);
    }
  }

  /** How far each action really gets. */
  function FateAt(w: World, pass: Pass, env: Env, acts: seq<Action>, fates: seq<nat>, i: nat): nat
    requires i < |acts| == |fates|
  {
    if Refused(acts[i], DriftFaulty(w, pass, env, acts, fates, i).touched) then 0 else fates[i]
  }

  function ActualFates(w: World, pass: Pass, env: Env, acts: seq<Action>, fates: seq<nat>): (actual: seq<nat>)
    requires |acts| == |fates|
    ensures |actual| == |acts| && forall i :: 0 <= i < |acts| ==> actual[i] == FateAt(w, pass, env, acts, fates, i)
  {
    seq(|acts|, i requires 0 <= i < |acts| => FateAt(w, pass, env, acts, fates, i))
  }

  lemma NoWritesNothing(w: World, pass: Pass, env: Env, a: Action)
    ensures ExecutePart(w, pass, env, a, 0) == (w, pass)
  {
  }

  /** What the drifting server refuses, a faulty pass of the still one may leave undone. */
  lemma DriftIsFaulty(w: World, pass: Pass, env: Env, acts: seq<Action>, fates: seq<nat>, k: nat)
    requires k <= |acts| == |fates|
    ensures var s := DriftFaulty(w, pass, env, acts, fates, k);
      (s.w, s.pass) == FaultyRun(w, pass, env, acts, ActualFates(w, pass, env, acts, fates), k)
  {
    DriftEnds(w, pass, env, acts, fates, ActualFates(w, pass, env, acts, fates), k);
  }

  lemma {:induction false} DriftEnds(w: World, pass: Pass, env: Env, acts: seq<Action>, fates: seq<nat>, actual: seq<nat>, k: nat)
    requires k <= |acts| == |fates| == |actual|
    requires forall i :: 0 <= i < |acts| ==> actual[i] == FateAt(w, pass, env, acts, fates, i)
    ensures var s := DriftFaulty(w, pass, env, acts, fates, k); (s.w, s.pass) == FaultyRun(w, pass, env, acts, actual, k)
  {
    if k > 0 {
      DriftEnds(w, pass, env, acts, fates, actual, k - 1);
      var s := DriftFaulty(w, pass, env, acts, fates, k - 1);
      assert actual[k - 1] == FateAt(w, pass, env, acts, fates, k - 1);
      NoWritesNothing(s.w, s.pass, env, acts[k - 1]);
    }
  }

  // ---- any number of such passes ----

  function AfterDrift(w: World, x: FaultyPass): World
    requires |x.acts| == |x.fates|
  {
    DriftFaulty(w, StartPass(w), x.env, x.acts, x.fates, |x.acts|).w
  }

  /** The same pass on the still server. */
  function Actual(w: World, x: FaultyPass): (y: FaultyPass)
    requires |x.acts| == |x.fates|
    ensures |y.acts| == |y.fates|
  {
    x.(fates := ActualFates(w, StartPass(w), x.env, x.acts, x.fates))
  }

  ghost predicate DriftPasses(w: World, xs: seq<FaultyPass>)
    decreases |xs|
  {
    xs == [] ||
    (|xs[0].acts| == |xs[0].fates| && FreshCopies(w, xs[0].env, xs[0].bootstrap) && PlanFor(xs[0].acts, w, xs[0].bootstrap)
     && DriftPasses(AfterDrift(w, xs[0]), xs[1..]))
  }

  function AfterDrifts(w: World, xs: seq<FaultyPass>): World
    requires forall x :: x in xs ==> |x.acts| == |x.fates|
    decreases |xs|
  {
    if xs == [] then w else AfterDrifts(AfterDrift(w, xs[0]), xs[1..])
  }

  lemma {:induction false} StillHistory(w: World, xs: seq<FaultyPass>) returns (ys: seq<FaultyPass>)
    requires DriftPasses(w, xs) && forall x :: x in xs ==> |x.acts| == |x.fates|
    ensures Passes(w, ys) && (forall y :: y in ys ==> |y.acts| == |y.fates|) && AfterPasses(w, ys) == AfterDrifts(w, xs)
    decreases |xs|
  {
    ys := [];
    if xs != [] {
      var x := xs[0];
      DriftIsFaulty(w, StartPass(w), x.env, x.acts, x.fates, |x.acts|);
      assert AfterPass(w, Actual(w, x)) == AfterDrift(w, x);
      var rest := StillHistory(AfterDrift(w, x), xs[1..]);
      ys := [Actual(w, x)] + rest;
      assert ys[1..] == rest;
    }
  }

  /** No version is lost on the drifting server either, whatever else fails. */
  lemma NoVersionIsLostThere(w: World, xs: seq<FaultyPass>, c: Content)
    requires Good(w) && DriftPasses(w, xs) && PairCrash.Kept(w, c)
    requires forall x :: x in xs ==> |x.acts| == |x.fates|
    ensures Good(AfterDrifts(w, xs)) && PairCrash.Kept(AfterDrifts(w, xs), c)
  {
    var ys := StillHistory(w, xs);
    NoVersionIsLost(w, ys, c);
  }

  /** Nor is an unseen remote file without a doomed folder above it. */
  lemma SafeForeverThere(w: World, xs: seq<FaultyPass>, q: Path, c: Content)
    requires RemoteRooted(w) && "" !in w.Known() && Safe(w, q, c) && DriftPasses(w, xs)
    requires forall x :: x in xs ==> |x.acts| == |x.fates|
    ensures Safe(AfterDrifts(w, xs), q, c)
  {
    var ys := StillHistory(w, xs);
    SafeForever(w, ys, q, c);
  }
}
