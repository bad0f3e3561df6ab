/** On the drifting server: exactly which folder deletes a pass sees refused, and which
    remote entries it leaves behind. */
module PairRefusal {
  import opened Basics
  import opened Paths
  import opened Reconcile
  import opened PairWorld
  import opened PairSafety
  import opened PairPass
  import opened PairFrame
  import opened PairConverge
  import opened PairFault
  import opened PairSweeps
  import opened PairDrift
  import opened PairDriftFault

  ghost function Longest(ps: set<Path>): (n: nat)
    ensures forall p :: p in ps ==> |p| <= n
  {
    if ps == {} then 0
    else
      var p :| p in ps;
      var rest := Longest(ps - {p});
      if |p| > rest then |p| else rest
  }

  /** What the plan is to delete remotely. */
  function Slated(acts: seq<Action>): set<Path> {
    set i | 0 <= i < |acts| && acts[i].kind == DELETE_REMOTE :: acts[i].path
  }

  /** The delete of `d` is refused if an entry directly inside it is to be deleted too, and
      is not refused. */
  ghost predicate Refuses(slated: set<Path>, d: Path)
    decreases if |d| <= Longest(slated) then Longest(slated) - |d| else 0
  {
    exists c :: DirectlyIn(slated, c, d) && !Refuses(slated, c)
  }

  predicate DirectlyIn(slated: set<Path>, c: Path, d: Path) { c in slated && d != "" && Dirname(c) == d && |d| < |c| }

  // ---- which folders are touched when ----

  predicate SlatedAt(w: World, d: Path) {
    d in w.remote && d != "" && w.ActionAt(d, false).Some? && w.ActionAt(d, false).value.kind == DELETE_REMOTE
  }

  /** No create or upload lands directly in a folder slated for remote deletion: it has no
      local counterpart, so nothing local is in it. */
  lemma NothingLandsInSlated(w: World, env: Env, pass: Pass, a: Action, d: Path)
    requires LocalRooted(w) && LawfulAt(w, pass, env, a) && SlatedAt(w, d)
    requires a.kind in {UPLOAD, CREATE_REMOTE_DIR, CONFLICT}
    ensures Dirname(RemotePath(pass, env, a)) != d
  {
    assert a.path in w.local;
    assert HasLocalFolder(w, a.path);
    assert d !in w.local;
  }

  /** The action goes directly inside `d` and takes something away. */
  predicate TakesFrom(s: Drift, a: Action, d: Path) {
    a.kind == DELETE_REMOTE && Dirname(a.path) == d && a.path !in s.touched
  }

  lemma {:induction false} RemoteUntouched(x: World, pass: Pass, env: Env, a: Action, n: nat)
    requires a.kind in {CREATE_LOCAL_DIR, DOWNLOAD, DELETE_LOCAL, PURGE_TOMBSTONE}
    ensures Writes(x, pass, env, a, n).w.remote == x.remote
  {
    if n > 0 {
      RemoteUntouched(x, pass, env, a, n - 1);
      RemoteEffect(Writes(x, pass, env, a, n - 1).w, pass, env, a, n, "");
    }
  }

  /** One step: a slated folder is touched by a delete directly inside it that goes
      through, and by nothing else. */
  lemma TouchStep(w: World, s: Drift, pass: Pass, env: Env, a: Action, d: Path)
    requires LocalRooted(w) && LawfulAt(w, pass, env, a) && SlatedAt(w, d) && s.pass.snapshot == pass.snapshot
    requires a.kind == DELETE_REMOTE ==> a.path in s.w.remote && Get(s.w.remote, a.path) == Get(w.remote, a.path)
    ensures d in DriftExecute(s, env, a).touched <==> d in s.touched || TakesFrom(s, a, d)
  {
    assert CopyTarget(s.pass, env.copyName(a.path)) == CopyTarget(pass, env.copyName(a.path));
    if a.kind in {UPLOAD, CREATE_REMOTE_DIR, CONFLICT} {
      NothingLandsInSlated(w, env, pass, a, d);
    } else if a.kind == DELETE_REMOTE {
      if a.path !in s.touched {
        DeleteFacts(w, a);
        PartTakes(s.w, s.pass, env, a, STEPS, a.path);
      }
    } else {
      RemoteUntouched(s.w, s.pass, env, a, STEPS);
    }
  }

  /** At action `i` something goes directly from `d`. */
  predicate TakenAt(w: World, pass: Pass, env: Env, acts: seq<Action>, i: nat, d: Path)
    requires i < |acts|
  {
    TakesFrom(DriftFrom(w, pass, env, acts, i), acts[i], d)
  }

  predicate TouchedOnlyAt(w: World, pass: Pass, env: Env, acts: seq<Action>, k: nat, d: Path)
    requires k < |acts|
  {
    d in DriftFrom(w, pass, env, acts, k + 1).touched
    <==> d in DriftFrom(w, pass, env, acts, k).touched || TakenAt(w, pass, env, acts, k, d)
  }

  lemma TouchedNext(w: World, pass: Pass, env: Env, acts: seq<Action>, k: nat, d: Path)
    requires LocalRooted(w) && Lawful(w, pass, env, acts) && k < |acts| && SlatedAt(w, d)
    ensures TouchedOnlyAt(w, pass, env, acts, k, d)
  {
    var s := DriftFrom(w, pass, env, acts, k);
    var fates := Whole(|acts|);
    WholeDrift(w, pass, env, acts, k);
    DriftIsFaulty(w, pass, env, acts, fates, k);
    FaultySnapshot(w, pass, env, acts, ActualFates(w, pass, env, acts, fates), k);
    assert LawfulAt(w, pass, env, acts[k]);
    if acts[k].kind == DELETE_REMOTE { IntactAtItsTurn(w, pass, env, acts, ActualFates(w, pass, env, acts, fates), k); }
    TouchStep(w, s, pass, env, acts[k], d);
  }

  lemma {:induction false} TouchedFrom(w: World, pass: Pass, env: Env, acts: seq<Action>, k: nat, d: Path)
    requires k <= |acts| && forall m: nat :: m < k ==> TouchedOnlyAt(w, pass, env, acts, m, d)
    ensures d in DriftFrom(w, pass, env, acts, k).touched <==> exists i :: 0 <= i < k && TakenAt(w, pass, env, acts, i, d)
  {
    if k > 0 {
      TouchedFrom(w, pass, env, acts, k - 1, d);
      assert TouchedOnlyAt(w, pass, env, acts, k - 1, d);
    }
  }

  lemma TouchedIff(w: World, pass: Pass, env: Env, acts: seq<Action>, k: nat, d: Path)
    requires LocalRooted(w) && Lawful(w, pass, env, acts) && k <= |acts| && SlatedAt(w, d)
    ensures d in DriftFrom(w, pass, env, acts, k).touched <==> exists i :: 0 <= i < k && TakenAt(w, pass, env, acts, i, d)
  {
    forall m: nat | m < k ensures TouchedOnlyAt(w, pass, env, acts, m, d) {
      TouchedNext(w, pass, env, acts, m, d);
    }
    TouchedFrom(w, pass, env, acts, k, d);
  }

  // ---- exactly which deletes are refused ----

  lemma SlatedHere(w: World, pass: Pass, env: Env, acts: seq<Action>, j: nat)
    requires Lawful(w, pass, env, acts) && j < |acts| && acts[j].kind == DELETE_REMOTE
    ensures SlatedAt(w, acts[j].path) && acts[j].path in Slated(acts)
  {
    assert LawfulAt(w, pass, env, acts[j]);
    DeleteFacts(w, acts[j]);
  }

  /** What is directly inside a slated folder has its turn before it. */
  lemma ChildComesFirst(w: World, pass: Pass, env: Env, acts: seq<Action>, j: nat, c: Path) returns (i: nat)
    requires Lawful(w, pass, env, acts) && j < |acts| && acts[j].kind == DELETE_REMOTE
    requires DirectlyIn(Slated(acts), c, acts[j].path)
    ensures i < j && acts[i].path == c && acts[i].kind == DELETE_REMOTE
  {
    i :| 0 <= i < |acts| && acts[i].kind == DELETE_REMOTE && acts[i].path == c;
    assert j < i ==> MayPrecede(acts[j], acts[i]);
    DirnameIsOneUp(c);
    BelowIsDeeper(c, acts[j].path);
  }

  lemma {:induction false} TouchedAtItsTurn(w: World, pass: Pass, env: Env, acts: seq<Action>, j: nat)
    requires LocalRooted(w) && Lawful(w, pass, env, acts)
    requires j < |acts| && acts[j].kind == DELETE_REMOTE
    ensures acts[j].path in DriftFrom(w, pass, env, acts, j).touched <==> Refuses(Slated(acts), acts[j].path)
    decreases j
  {
    var d := acts[j].path;
    SlatedHere(w, pass, env, acts, j);
    TouchedIff(w, pass, env, acts, j, d);
    if i :| 0 <= i < j && TakenAt(w, pass, env, acts, i, d) {
      TouchedAtItsTurn(w, pass, env, acts, i);
      SlatedHere(w, pass, env, acts, i);
      DirnameIsOneUp(acts[i].path);
      assert DirectlyIn(Slated(acts), acts[i].path, d);
    }
    if c :| DirectlyIn(Slated(acts), c, d) && !Refuses(Slated(acts), c) {
      var i := ChildComesFirst(w, pass, env, acts, j, c);
      TouchedAtItsTurn(w, pass, env, acts, i);
      assert TakenAt(w, pass, env, acts, i, d);
    }
  }

  /** Once an action's turn is over its fate does not change. */
  lemma {:induction false} RefusedIffTouched(w: World, pass: Pass, env: Env, acts: seq<Action>, i: nat, k: nat)
    requires i < k <= |acts| && OnePerPath(acts)
    ensures acts[i].path in DriftFrom(w, pass, env, acts, k).refused <==> Refused(acts[i], DriftFrom(w, pass, env, acts, i).touched)
  {
    if i < k - 1 {
      RefusedIffTouched(w, pass, env, acts, i, k - 1);
    } else {
      RefusedAreEarlier(w, pass, env, acts, i);
      var before := DriftFrom(w, pass, env, acts, i).refused;
      assert acts[i].path !in before;
    }
  }

  /** The deletes refused in a pass are those of the folders from which, directly, some
      entry goes; what goes is decided the same way, from the plan alone. */
  lemma RefusedIff(w: World, pass: Pass, env: Env, acts: seq<Action>, d: Path)
    requires LocalRooted(w) && Lawful(w, pass, env, acts) && d in Slated(acts)
    ensures d in DriftFrom(w, pass, env, acts, |acts|).refused <==> Refuses(Slated(acts), d)
  {
    var j :| 0 <= j < |acts| && acts[j].kind == DELETE_REMOTE && acts[j].path == d;
    RefusedIffTouched(w, pass, env, acts, j, |acts|);
    TouchedAtItsTurn(w, pass, env, acts, j);
  }

  // ---- exactly which entries stay ----

  /** A remote entry that no action writes to: on the drifting server it is there after the
      pass if and only if the delete of it, if planned, and of every folder above it is
      refused. */
  lemma EntryStaysIff(w: World, pass: Pass, env: Env, acts: seq<Action>, q: Path)
    requires LocalRooted(w) && Lawful(w, pass, env, acts) && q in w.remote
    requires forall i :: 0 <= i < |acts| ==> OnlyReads(acts[i], q)
    ensures var end := DriftFrom(w, pass, env, acts, |acts|).w;
      && (q in end.remote <==> forall e :: e in Slated(acts) && (e == q || Below(q, e)) ==> Refuses(Slated(acts), e))
      && (q in end.remote ==> end.remote[q] == w.remote[q])
  {
    var fates := Whole(|acts|);
    var actual := ActualFates(w, pass, env, acts, fates);
    WholeDrift(w, pass, env, acts, |acts|);
    DriftIsFaulty(w, pass, env, acts, fates, |acts|);
    RemoteGoesIff(w, pass, env, acts, actual, q);
    forall j | 0 <= j < |acts| && acts[j].kind == DELETE_REMOTE
      ensures actual[j] == 0 <==> Refuses(Slated(acts), acts[j].path)
    {
      WholeDrift(w, pass, env, acts, j);
      TouchedAtItsTurn(w, pass, env, acts, j);
    }
    GoneIffSomeoneGoes(acts, actual, q);
  }

  lemma GoneIffSomeoneGoes(acts: seq<Action>, actual: seq<nat>, q: Path)
    requires |acts| == |actual|
    requires forall j :: 0 <= j < |acts| && acts[j].kind == DELETE_REMOTE ==> (actual[j] == 0 <==> Refuses(Slated(acts), acts[j].path))
    ensures (exists j :: TakenBy(acts, actual, j, q))
       <==> exists e :: e in Slated(acts) && (e == q || Below(q, e)) && !Refuses(Slated(acts), e)
  {
    if j :| TakenBy(acts, actual, j, q) {
      assert acts[j].path in Slated(acts);
    }
    if e :| e in Slated(acts) && (e == q || Below(q, e)) && !Refuses(Slated(acts), e) {
      var j :| 0 <= j < |acts| && acts[j].kind == DELETE_REMOTE && acts[j].path == e;
      assert TakenBy(acts, actual, j, q);
    }
  }
}
