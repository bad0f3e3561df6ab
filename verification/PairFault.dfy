/** A pass in which any action may fail part-way and the later ones still run. */
module PairFault {
  import opened Basics
  import opened Paths
  import opened Reconcile
  import opened PairWorld
  import opened PairSafety
  import opened PairPass
  import opened PairFrame

  /** The first `n` writes of an action. The id of a new remote folder is remembered as
      soon as the folder is there. */
  function ExecutePart(w: World, pass: Pass, env: Env, a: Action, n: nat): (World, Pass) {
    (Writes(w, pass, env, a, n).w,
     if a.kind == CREATE_REMOTE_DIR && n >= 1 && Writes(w, pass, env, a, 1).Done? then
       pass.(created := pass.created[a.path := env.newId(a.path)])
     else pass)
  }

  /** The first `k` actions, the `i`-th cut off after `fates[i]` writes. */
  function FaultyRun(w: World, pass: Pass, env: Env, acts: seq<Action>, fates: seq<nat>, k: nat): (World, Pass)
    requires k <= |acts| == |fates|
  {
    if k == 0 then (w, pass)
    else
      var (v, ps) := FaultyRun(w, pass, env, acts, fates, k - 1);
      ExecutePart(v, ps, env, acts[k - 1], fates[k - 1])
  }

  lemma WholeExecution(w: World, pass: Pass, env: Env, a: Action)
    ensures ExecutePart(w, pass, env, a, STEPS) == Execute(w, pass, env, a)
  {
    if a.kind == CREATE_REMOTE_DIR {
      var o1 := Writes(w, pass, env, a, 1);
      assert Writes(w, pass, env, a, 0) == Done(w);
      assert Writes(w, pass, env, a, 2).Done? <==> o1.Done?;
      assert Writes(w, pass, env, a, 3).Done? <==> o1.Done?;
      assert Writes(w, pass, env, a, 4).Done? <==> o1.Done?;
      assert Writes(w, pass, env, a, 5).Done? <==> o1.Done?;
      assert Writes(w, pass, env, a, STEPS).Done? <==> o1.Done?;
    }
  }

  /** Nothing cut off: the pass of `Run`. */
  lemma {:induction false} FaultlessRun(w: World, pass: Pass, env: Env, acts: seq<Action>, fates: seq<nat>, k: nat)
    requires k <= |acts| == |fates| && forall i :: 0 <= i < k ==> fates[i] == STEPS
    ensures FaultyRun(w, pass, env, acts, fates, k) == Run(w, pass, env, acts, k)
  {
    if k > 0 {
      FaultlessRun(w, pass, env, acts, fates, k - 1);
      var (v, ps) := Run(w, pass, env, acts, k - 1);
      WholeExecution(v, ps, env, acts[k - 1]);
    }
  }

  lemma {:induction false} FaultySnapshot(w: World, pass: Pass, env: Env, acts: seq<Action>, fates: seq<nat>, k: nat)
    requires k <= |acts| == |fates|
    ensures FaultyRun(w, pass, env, acts, fates, k).1.snapshot == pass.snapshot
  {
    if k > 0 {
      FaultySnapshot(w, pass, env, acts, fates, k - 1);
    }
  }

  lemma {:induction false} FaultyLeavesOthers(
    w: World, pass: Pass, env: Env, acts: seq<Action>, fates: seq<nat>, k: nat, q: Path)
    requires k <= |acts| == |fates| && forall i :: 0 <= i < k ==> !MayWrite(pass, env, acts[i], q)
    ensures var v := FaultyRun(w, pass, env, acts, fates, k).0;
      && Get(v.synced, q) == Get(w.synced, q)
      && (q in w.local ==> q in v.local && v.local[q] == w.local[q])
  {
    if k > 0 {
      FaultyLeavesOthers(w, pass, env, acts, fates, k - 1, q);
      FaultySnapshot(w, pass, env, acts, fates, k - 1);
      var (v, ps) := FaultyRun(w, pass, env, acts, fates, k - 1);
      var a := acts[k - 1];
      assert !MayWrite(pass, env, a, q);
      assert CopyTarget(ps, env.copyName(a.path)) == CopyTarget(pass, env.copyName(a.path));
      WritesLeaveOthers(v, ps, env, a, fates[k - 1], q);
    }
  }

  // ---- any number of passes ----

  /** A pass whose `i`-th action ends after `fates[i]` writes. All zeros from some action
      on: stopped or killed there. */
  datatype FaultyPass = FaultyPass(bootstrap: bool, env: Env, acts: seq<Action>, fates: seq<nat>)

  function AfterPass(w: World, x: FaultyPass): World
    requires |x.acts| == |x.fates|
  {
    FaultyRun(w, StartPass(w), x.env, x.acts, x.fates, |x.acts|).0
  }

  ghost predicate Passes(w: World, xs: seq<FaultyPass>)
    decreases |xs|
  {
    xs == [] ||
    (|xs[0].acts| == |xs[0].fates| && FreshCopies(w, xs[0].env, xs[0].bootstrap) && PlanFor(xs[0].acts, w, xs[0].bootstrap)
     && Passes(AfterPass(w, xs[0]), xs[1..]))
  }

  function AfterPasses(w: World, xs: seq<FaultyPass>): World
    requires forall x :: x in xs ==> |x.acts| == |x.fates|
    decreases |xs|
  {
    if xs == [] then w else AfterPasses(AfterPass(w, xs[0]), xs[1..])
  }
}
