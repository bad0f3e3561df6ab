/** Exactly which remote entries a pass takes, whatever fails in it. */
module PairSweeps {
  import opened Basics
  import opened Paths
  import opened Reconcile
  import opened PairWorld
  import opened PairFrame
  import opened PairFault

  /** A planned action, a fresh copy name, a current entry for what is to be deleted. */
  predicate LawfulAt(w: World, pass: Pass, env: Env, a: Action) {
    var copy := env.copyName(a.path);
    && w.ActionAt(a.path, false) == Some(a) && a.path != ""
    && (a.kind == CONFLICT ==> copy !in w.Known() && Dirname(copy) == Dirname(a.path) && CopyTarget(pass, copy) == copy)
    && (a.kind == DELETE_REMOTE ==> Get(pass.snapshot, a.path) == w.R(a.path))
  }

  /** What the pass executes: its plan, or the plan for the visible paths. */
  ghost predicate Lawful(w: World, pass: Pass, env: Env, acts: seq<Action>) {
    OnePerPath(acts) && Ordered(acts) && forall i :: 0 <= i < |acts| ==> LawfulAt(w, pass, env, acts[i])
  }

  /** The delete of `q`, or of a folder above it. */
  predicate Takes(a: Action, q: Path) { a.kind == DELETE_REMOTE && (a.path == q || Below(q, a.path)) }

  predicate TakenBy(acts: seq<Action>, fates: seq<nat>, j: int, q: Path)
    requires |acts| == |fates|
  {
    0 <= j < |acts| && Takes(acts[j], q) && fates[j] >= 1
  }

  /** The action may fetch or delete `q`, not write to it remotely; a conflict uploads only
      its copy. */
  predicate OnlyReads(a: Action, q: Path) {
    a.path == q ==> a.kind in {CREATE_LOCAL_DIR, DOWNLOAD, DELETE_REMOTE, CONFLICT}
  }

  lemma DeleteFacts(w: World, a: Action)
    requires w.ActionAt(a.path, false) == Some(a) && a.kind == DELETE_REMOTE
    ensures a.path in w.remote && a.path !in w.local && a.itemId == Some(w.remote[a.path].entry.itemId)
  {
  }

  // ---- one action ----

  lemma {:induction false} PartLeaves(v: World, pass: Pass, env: Env, a: Action, n: nat, q: Path)
    requires OnlyReads(a, q) && (a.kind == CONFLICT ==> CopyTarget(pass, env.copyName(a.path)) != q)
    requires Takes(a, q) ==> n == 0
    ensures Get(Writes(v, pass, env, a, n).w.remote, q) == Get(v.remote, q)
  {
    if n > 0 {
      PartLeaves(v, pass, env, a, n - 1, q);
      RemoteEffect(Writes(v, pass, env, a, n - 1).w, pass, env, a, n, q);
    }
  }

  lemma {:induction false} PartShrinks(v: World, pass: Pass, env: Env, a: Action, n: nat, q: Path)
    requires IsDelete(a) && q !in v.remote
    ensures q !in Writes(v, pass, env, a, n).w.remote
  {
    if n > 0 {
      PartShrinks(v, pass, env, a, n - 1, q);
      RemoteEffect(Writes(v, pass, env, a, n - 1).w, pass, env, a, n, q);
    }
  }

  /** A delete whose etag is current takes the entry with everything below it. */
  lemma {:induction false} PartTakes(v: World, pass: Pass, env: Env, a: Action, n: nat, q: Path)
    requires Takes(a, q) && n >= 1 && a.path in v.remote
    requires a.itemId == Some(v.remote[a.path].entry.itemId) && Get(pass.snapshot, a.path) == v.R(a.path)
    ensures q !in Writes(v, pass, env, a, n).w.remote
  {
    if n == 1 {
      assert Writes(v, pass, env, a, 0) == Done(v);
    } else {
      PartTakes(v, pass, env, a, n - 1, q);
      RemoteEffect(Writes(v, pass, env, a, n - 1).w, pass, env, a, n, q);
    }
  }

  // ---- a pass ----

  /** Folders above are deleted later. */
  lemma NobodyTakesEarlier(w: World, pass: Pass, env: Env, acts: seq<Action>, fates: seq<nat>, j: nat)
    requires Lawful(w, pass, env, acts) && |acts| == |fates| && j < |acts| && IsDelete(acts[j])
    ensures forall i :: 0 <= i < j ==> !Takes(acts[i], acts[j].path)
  {
    forall i | 0 <= i < j ensures !Takes(acts[i], acts[j].path) {
      assert MayPrecede(acts[i], acts[j]) && acts[i].path != acts[j].path;
      if Below(acts[j].path, acts[i].path) { BelowIsDeeper(acts[j].path, acts[i].path); }
    }
  }

  /** The action does not change `q` remotely. */
  predicate LeavesIt(pass: Pass, env: Env, a: Action, q: Path) {
    OnlyReads(a, q) && !Takes(a, q) && (a.kind == CONFLICT ==> CopyTarget(pass, env.copyName(a.path)) != q)
  }

  lemma {:induction false} RunLeavesIt(w: World, pass: Pass, env: Env, acts: seq<Action>, fates: seq<nat>, k: nat, q: Path)
    requires k <= |acts| == |fates| && forall i :: 0 <= i < k ==> LeavesIt(pass, env, acts[i], q)
    ensures Get(FaultyRun(w, pass, env, acts, fates, k).0.remote, q) == Get(w.remote, q)
  {
    if k > 0 {
      RunLeavesIt(w, pass, env, acts, fates, k - 1, q);
      var (v, ps) := FaultyRun(w, pass, env, acts, fates, k - 1);
      var a := acts[k - 1];
      FaultySnapshot(w, pass, env, acts, fates, k - 1);
      assert LeavesIt(pass, env, a, q);
      assert CopyTarget(ps, env.copyName(a.path)) == CopyTarget(pass, env.copyName(a.path));
      PartLeaves(v, ps, env, a, fates[k - 1], q);
    }
  }

  /** What is to be deleted is as the pass found it when its turn comes. */
  lemma IntactAtItsTurn(w: World, pass: Pass, env: Env, acts: seq<Action>, fates: seq<nat>, j: nat)
    requires Lawful(w, pass, env, acts) && j < |acts| == |fates| && acts[j].kind == DELETE_REMOTE
    ensures var v := FaultyRun(w, pass, env, acts, fates, j).0;
      && acts[j].path in w.remote && Get(v.remote, acts[j].path) == Get(w.remote, acts[j].path)
      && acts[j].itemId == Some(w.remote[acts[j].path].entry.itemId) && acts[j].path in v.remote
  {
    assert LawfulAt(w, pass, env, acts[j]);
    DeleteFacts(w, acts[j]);
    NobodyTakesEarlier(w, pass, env, acts, fates, j);
    forall i | 0 <= i < j ensures LeavesIt(pass, env, acts[i], acts[j].path) {
      assert LawfulAt(w, pass, env, acts[i]) && acts[i].path != acts[j].path;
    }
    RunLeavesIt(w, pass, env, acts, fates, j, acts[j].path);
  }

  /** Whatever fails: the entry goes with the first of the deletes that take it to get as
      far as its first write, and is as before without one. */
  ghost predicate GoneOrSame(w: World, v: World, acts: seq<Action>, fates: seq<nat>, k: nat, q: Path)
    requires |acts| == |fates|
  {
    if exists j :: 0 <= j < k && TakenBy(acts, fates, j, q) then q !in v.remote else Get(v.remote, q) == Get(w.remote, q)
  }

  lemma TakesNext(w: World, v: World, pass: Pass, ps: Pass, env: Env, acts: seq<Action>, fates: seq<nat>, k: nat, q: Path)
    requires k < |acts| == |fates| && q in w.remote && Ordered(acts) && ps.snapshot == pass.snapshot
    requires LawfulAt(w, pass, env, acts[k]) && OnlyReads(acts[k], q) && GoneOrSame(w, v, acts, fates, k, q)
    requires TakenBy(acts, fates, k, q) ==>
      acts[k].path in v.remote && acts[k].itemId == Some(v.remote[acts[k].path].entry.itemId)
      && Get(v.remote, acts[k].path) == Get(w.remote, acts[k].path)
    ensures GoneOrSame(w, Writes(v, ps, env, acts[k], fates[k]).w, acts, fates, k + 1, q)
  {
    var a, n := acts[k], fates[k];
    assert CopyTarget(ps, env.copyName(a.path)) == CopyTarget(pass, env.copyName(a.path));
    if j :| 0 <= j < k && TakenBy(acts, fates, j, q) {
      assert MayPrecede(acts[j], a);
      PartShrinks(v, ps, env, a, n, q);
    } else if TakenBy(acts, fates, k, q) {
      PartTakes(v, ps, env, a, n, q);
    } else {
      PartLeaves(v, ps, env, a, n, q);
    }
  }

  ghost predicate TakesBy(w: World, pass: Pass, env: Env, acts: seq<Action>, fates: seq<nat>, k: nat, q: Path)
    requires k <= |acts| == |fates|
  {
    GoneOrSame(w, FaultyRun(w, pass, env, acts, fates, k).0, acts, fates, k, q)
  }

  ghost predicate TakesStep(w: World, pass: Pass, env: Env, acts: seq<Action>, fates: seq<nat>, k: nat, q: Path)
    requires k < |acts| == |fates|
  {
    TakesBy(w, pass, env, acts, fates, k, q) ==> TakesBy(w, pass, env, acts, fates, k + 1, q)
  }

  lemma OneMoreTakes(w: World, pass: Pass, env: Env, acts: seq<Action>, fates: seq<nat>, k: nat, q: Path)
    requires Lawful(w, pass, env, acts) && k < |acts| == |fates| && q in w.remote && OnlyReads(acts[k], q)
    ensures TakesStep(w, pass, env, acts, fates, k, q)
  {
    if TakesBy(w, pass, env, acts, fates, k, q) {
      var (v, ps) := FaultyRun(w, pass, env, acts, fates, k);
      FaultySnapshot(w, pass, env, acts, fates, k);
      assert LawfulAt(w, pass, env, acts[k]);
      if TakenBy(acts, fates, k, q) { IntactAtItsTurn(w, pass, env, acts, fates, k); }
      TakesNext(w, v, pass, ps, env, acts, fates, k, q);
    }
  }

  lemma {:induction false} TakesThroughout(w: World, pass: Pass, env: Env, acts: seq<Action>, fates: seq<nat>, k: nat, q: Path)
    requires k <= |acts| == |fates| && forall i :: 0 <= i < |acts| ==> TakesStep(w, pass, env, acts, fates, i, q)
    ensures TakesBy(w, pass, env, acts, fates, k, q)
  {
    if k > 0 {
      TakesThroughout(w, pass, env, acts, fates, k - 1, q);
      assert TakesStep(w, pass, env, acts, fates, k - 1, q);
    }
  }

  /** Over a whole pass: a remote entry that no action writes to is gone if and only if its
      delete, or that of a folder above it, gets as far as its first write. */
  lemma RemoteGoesIff(w: World, pass: Pass, env: Env, acts: seq<Action>, fates: seq<nat>, q: Path)
    requires Lawful(w, pass, env, acts) && |acts| == |fates| && q in w.remote
    requires forall i :: 0 <= i < |acts| ==> OnlyReads(acts[i], q)
    ensures var end := FaultyRun(w, pass, env, acts, fates, |acts|).0;
      && (q !in end.remote <==> exists j :: TakenBy(acts, fates, j, q))
      && (q in end.remote ==> end.remote[q] == w.remote[q])
  {
    forall i | 0 <= i < |acts| ensures TakesStep(w, pass, env, acts, fates, i, q) {
      OneMoreTakes(w, pass, env, acts, fates, i, q);
    }
    TakesThroughout(w, pass, env, acts, fates, |acts|, q);
    var end := FaultyRun(w, pass, env, acts, fates, |acts|).0;
    if q in end.remote { assert Get(end.remote, q) == Some(w.remote[q]); }
  }
}
