/** On the drifting server: what one pass leaves undone, and that repeated passes end
    where one pass on a still server does. */
module PairSettle {
  import opened Basics
  import opened Paths
  import opened Reconcile
  import opened PairWorld
  import opened PairSafety
  import opened PairEffect
  import opened PairInvariant
  import opened PairPass
  import opened PairMerge
  import opened PairFrame
  import opened PairConverge
  import opened PairSwept
  import opened PairDrift
  import ConflictNames

  /** A path whose delete was refused: the remote entry is still there to be deleted, or
      went with a folder above it and only its baseline is left, or all is done. */
  predicate LeftOver(u: World, q: Path) {
    && q !in u.local
    && (q in u.remote ==> q in u.synced && u.remote[q].entry.isFolder == u.synced[q].isFolder)
    && (q in u.remote ==> u.ActionAt(q, false).Some? && u.ActionAt(q, false).value.kind == DELETE_REMOTE)
  }

  predicate Settled(v: World, q: Path) { v.ActionAt(q, false) == None }

  /** Apart from the left-over paths, `u` is `v`, in which nothing is to be done. */
  ghost predicate Pending(u: World, v: World, left: set<Path>) {
    && Minus(u, left) == v && (forall q :: Settled(v, q)) && (forall q :: q in left ==> LeftOver(u, q))
    && KindsAgree(v) && LocalRooted(v) && RemoteRooted(v) && BaselinesHonest(v)
    && RemoteRooted(u) && "" !in u.Known()
  }

  lemma OutsideIsSame(u: World, left: set<Path>, q: Path)
    requires q !in left
    ensures u.L(q) == Minus(u, left).L(q) && u.R(q) == Minus(u, left).R(q) && u.S(q) == Minus(u, left).S(q)
    ensures u.ActionAt(q, false) == Minus(u, left).ActionAt(q, false)
    ensures q in u.Known() <==> q in Minus(u, left).Known()
  {
  }

  /** Nothing but left-over paths lies below a left-over path. */
  lemma {:induction false} BelowLeftIsLeft(u: World, v: World, left: set<Path>, q: Path, d: Path)
    requires Pending(u, v, left) && d in left && Below(q, d) && q in u.Known() && d != ""
    ensures q in left
  {
    if q !in left {
      OutsideIsSame(u, left, q);
      assert LeftOver(u, d) && Settled(v, q);
      if q in v.remote { RemoteAncestors(v, q, d); }
      if q in v.local { LocalAncestors(v, q, d); }
    }
  }

  lemma PlanIsLeft(u: World, v: World, left: set<Path>, q: Path)
    requires Pending(u, v, left)
    ensures u.ActionAt(q, false).Some? ==> q in left && u.ActionAt(q, false).value.kind in {DELETE_REMOTE, PURGE_TOMBSTONE}
    ensures q in left && q in u.synced && q !in u.remote ==>
      u.ActionAt(q, false).Some? && u.ActionAt(q, false).value.kind == PURGE_TOMBSTONE
  {
    assert Settled(v, q);
    if q !in left {
      OutsideIsSame(u, left, q);
    } else {
      assert LeftOver(u, q);
    }
  }

  lemma PendingKinds(u: World, v: World, left: set<Path>)
    requires Pending(u, v, left)
    ensures KindsAgree(u) && BaselinesHonest(u)
  {
    forall q ensures KindsAgreeAt(u, q) {
      if q in left { assert LeftOver(u, q); } else { OutsideIsSame(u, left, q); KindsAgreePointwise(v); assert KindsAgreeAt(v, q); }
    }
    KindsAgreePointwise(u);
    forall q | LocalUnchanged(u, q) && RemoteUnchanged(u, q) ensures LocalView(u, q) == RemoteView(u, q) {
      assert q in left ==> LeftOver(u, q);
      assert LocalUnchanged(v, q) && RemoteUnchanged(v, q);
    }
  }

  lemma PendingIsGood(u: World, v: World, left: set<Path>)
    requires Pending(u, v, left)
    ensures Good(u) && BaselinesHonest(u)
  {
    PendingKinds(u, v, left);
    forall p | p in u.local ensures p != "" && HasLocalFolder(u, p) {
      assert p in v.local;
      assert HasLocalFolder(v, p);
    }
    forall d, q | Doomed(u, d) && q in u.Known() && Below(q, d) ensures Vanishes(u, q) {
      PendingDoomed(u, v, left, d, q);
    }
  }

  lemma PendingDoomed(u: World, v: World, left: set<Path>, d: Path, q: Path)
    requires Pending(u, v, left) && KindsAgree(u) && Doomed(u, d) && q in u.Known() && Below(q, d)
    ensures Vanishes(u, q)
  {
    VanishesIsDelete(u, d, false);
    PlanIsLeft(u, v, left, d);
    assert d in u.Known();
    BelowLeftIsLeft(u, v, left, q, d);
    assert LeftOver(u, q);
    VanishesIsDelete(u, q, false);
    PlanIsLeft(u, v, left, q);
  }

  // ---- the first pass ----

  lemma FirstLeavesOver(w: World, env: Env, acts: seq<Action>, q: Path)
    requires Good(w) && FreshCopies(w, env, false) && PlanFor(acts, w, false)
    requires q in DriftRun(w, env, acts, |acts|).refused
    requires Settled(Run(w, StartPass(w), env, acts, |acts|).0, q)
    ensures LeftOver(DriftRun(w, env, acts, |acts|).w, q)
  {
    var s := DriftRun(w, env, acts, |acts|);
    DriftIsStill(w, env, acts, |acts|);
    var i :| 0 <= i < |acts| && acts[i].path == q && acts[i].kind == DELETE_REMOTE;
    Planned(acts, w, false, acts[i]);
    ActionFacts(w, acts[i], false);
    RefusedAvoidsCopies(w, env, acts, q);
    RefusedIsKept(w, env, acts, |acts|, q);
    SettledGone(s.w, s.refused, q);
    SameEntryStillDoomed(w, s.w, acts[i], q);
  }

  lemma RefusedAvoidsCopies(w: World, env: Env, acts: seq<Action>, q: Path)
    requires RemoteRooted(w) && FreshCopies(w, env, false) && PlanFor(acts, w, false) && q in w.Known()
    ensures NoCopyAt(acts, StartPass(w), env, q)
  {
    forall a | a in acts && a.kind == CONFLICT ensures q != env.copyName(a.path) && q != CopyTarget(StartPass(w), env.copyName(a.path)) {
      Planned(acts, w, false, a);
      CopyInRooted(w, env, a, false);
    }
  }

  lemma SettledGone(u: World, refused: set<Path>, q: Path)
    requires q in refused && Settled(Minus(u, refused), q)
    ensures q !in u.local
  {
  }

  lemma SameEntryStillDoomed(w: World, u: World, a: Action, q: Path)
    requires KindsAgree(w) && a.path == q && a.kind == DELETE_REMOTE && w.ActionAt(q, false) == Some(a)
    requires PairDrift.Kept(w, u, q) && q !in u.local
    ensures LeftOver(u, q)
  {
    ActionFacts(w, a, false);
    VanishesIsDelete(w, q, false);
    assert q in w.synced ==> Get(u.synced, q) == Some(w.synced[q]);
    assert q in u.remote ==> Get(w.remote, q) == Some(u.remote[q]);
    if q in u.remote {
      assert u.L(q) == w.L(q) && u.R(q) == w.R(q) && u.S(q) == w.S(q);
    }
  }

  /** After one pass on the drifting server: apart from the refused deletes, the world is
      the one the still server ends with. */
  lemma FirstPassPends(w: World, env: Env, acts: seq<Action>)
    requires Good(w) && BaselinesHonest(w) && FreshCopies(w, env, false) && PlanFor(acts, w, false)
    ensures var s := DriftRun(w, env, acts, |acts|);
      Pending(s.w, Run(w, StartPass(w), env, acts, |acts|).0, s.refused)
  {
    var s := DriftRun(w, env, acts, |acts|);
    var v := Run(w, StartPass(w), env, acts, |acts|).0;
    DriftIsStill(w, env, acts, |acts|);
    StillEnds(w, env, acts);
    DriftKeepsRooted(w, env, acts);
    forall q | q in s.refused ensures LeftOver(s.w, q) {
      assert Settled(v, q);
      FirstLeavesOver(w, env, acts, q);
    }
  }

  lemma StillEnds(w: World, env: Env, acts: seq<Action>)
    requires Good(w) && BaselinesHonest(w) && FreshCopies(w, env, false) && PlanFor(acts, w, false)
    ensures var v := Run(w, StartPass(w), env, acts, |acts|).0;
      Good(v) && BaselinesHonest(v) && forall q :: Settled(v, q)
  {
    ResumeIsExact(w, env, acts, false, |acts|);
    assert acts[|acts|..] == [];
    PlanIsApart(w, env, acts);
    MergeAlongThePass(w, env, acts, |acts|);
    var v := Run(w, StartPass(w), env, acts, |acts|).0;
    forall q ensures Settled(v, q) {
      ClassifiedHere(v, false, q);
    }
  }

  lemma {:induction false} DriftPrefixKeepsRooted(w: World, env: Env, acts: seq<Action>, k: nat)
    requires RemoteRooted(w) && "" !in w.Known() && k <= |acts| && forall m :: 0 <= m < k ==> Named(w, env, acts[m])
    ensures var s := DriftRun(w, env, acts, k); RemoteRooted(s.w) && "" !in s.w.Known() && s.pass.snapshot == w.RemoteMap()
  {
    if k > 0 {
      DriftPrefixKeepsRooted(w, env, acts, k - 1);
      var s := DriftRun(w, env, acts, k - 1);
      assert Named(w, env, acts[k - 1]);
      assert CopyTarget(s.pass, env.copyName(acts[k - 1].path)) == CopyTarget(StartPass(w), env.copyName(acts[k - 1].path));
      WritesKeepRemoteRooted(s.w, s.pass, env, acts[k - 1], STEPS);
      WritesKeepNamed(s.w, s.pass, env, acts[k - 1], STEPS);
    }
  }

  lemma DriftKeepsRooted(w: World, env: Env, acts: seq<Action>)
    requires Good(w) && FreshCopies(w, env, false) && PlanFor(acts, w, false)
    ensures var s := DriftRun(w, env, acts, |acts|); RemoteRooted(s.w) && "" !in s.w.Known()
  {
    forall m | 0 <= m < |acts| ensures Named(w, env, acts[m]) { PlannedIsNamed(w, env, acts, false, m); }
    DriftPrefixKeepsRooted(w, env, acts, |acts|);
  }

  // ---- every later pass ----

  /** `x` is `u` with some left-over entries gone. */
  ghost predicate Shrunk(u: World, x: World, left: set<Path>) {
    x.local == u.local && Minus(x, left) == Minus(u, left) && forall q :: q in left ==> ShrunkAt(u, x, q)
  }

  predicate ShrunkAt(u: World, x: World, q: Path) {
    && (q in x.remote ==> Get(u.remote, q) == Some(x.remote[q]) && q in x.synced)
    && (q in x.synced ==> Get(u.synced, q) == Some(x.synced[q]))
  }

  /** The two writes of a remote delete, or the one of a purge. */
  lemma DeleteEffect(x: World, pass: Pass, env: Env, a: Action)
    requires a.kind in {DELETE_REMOTE, PURGE_TOMBSTONE}
    ensures var y := Writes(x, pass, env, a, STEPS).w;
      || y == x
      || (y.local == x.local && y.synced == x.synced - {a.path}
          && (y.remote == x.remote
              || (a.kind == DELETE_REMOTE && y.remote == map q | q in x.remote && q != a.path && !Below(q, a.path) :: x.remote[q])))
    ensures Writes(x, pass, env, a, STEPS).w.remote == x.remote && a.kind == DELETE_REMOTE && a.path in x.remote ==>
      Writes(x, pass, env, a, STEPS).w == x
  {
    var o1, o2 := Writes(x, pass, env, a, 1), Writes(x, pass, env, a, 2);
    assert Writes(x, pass, env, a, 0) == Done(x);
    assert Writes(x, pass, env, a, 3) == o2;
    assert Writes(x, pass, env, a, 4) == o2;
    assert Writes(x, pass, env, a, 5) == o2;
    assert Writes(x, pass, env, a, STEPS) == o2;
  }

  lemma ShrinkStep(u: World, v: World, left: set<Path>, x: World, pass: Pass, env: Env, a: Action)
    requires Pending(u, v, left) && Shrunk(u, x, left) && u.ActionAt(a.path, false) == Some(a)
    ensures Shrunk(u, Writes(x, pass, env, a, STEPS).w, left)
  {
    PlanIsLeft(u, v, left, a.path);
    DeleteEffect(x, pass, env, a);
    var y := Writes(x, pass, env, a, STEPS).w;
    var p := a.path;
    assert p in u.Known();
    if y != x {
      NothingElseBelow(u, v, left, x, p);
      assert y.synced - left == x.synced - left;
      assert y.remote - left == x.remote - left;
      ShrunkStays(u, left, x, pass, env, a);
    }
  }

  lemma NothingElseBelow(u: World, v: World, left: set<Path>, x: World, p: Path)
    requires Pending(u, v, left) && Shrunk(u, x, left) && p in left && p in u.Known()
    ensures forall q :: q in x.remote && Below(q, p) ==> q in left
  {
    forall q | q in x.remote && Below(q, p) ensures q in left {
      if q !in left {
        assert Get((x.remote - left), q) == Get(u.remote - left, q);
        BelowLeftIsLeft(u, v, left, q, p);
      }
    }
  }

  lemma ShrunkStays(u: World, left: set<Path>, x: World, pass: Pass, env: Env, a: Action)
    requires a.kind in {DELETE_REMOTE, PURGE_TOMBSTONE} && (a.kind == PURGE_TOMBSTONE ==> a.path !in u.remote)
    requires Writes(x, pass, env, a, STEPS).w != x && forall q :: q in left ==> ShrunkAt(u, x, q)
    ensures forall q :: q in left ==> ShrunkAt(u, Writes(x, pass, env, a, STEPS).w, q)
  {
    DeleteEffect(x, pass, env, a);
    forall q | q in left ensures ShrunkAt(u, Writes(x, pass, env, a, STEPS).w, q) {
      assert ShrunkAt(u, x, q);
      if q == a.path { GoneAtOnce(u, x, pass, env, a); }
    }
  }

  /** A delete that is not refused takes entry and baseline together. */
  lemma GoneAtOnce(u: World, x: World, pass: Pass, env: Env, a: Action)
    requires a.kind in {DELETE_REMOTE, PURGE_TOMBSTONE} && ShrunkAt(u, x, a.path)
    requires a.kind == PURGE_TOMBSTONE ==> a.path !in u.remote
    requires Writes(x, pass, env, a, STEPS).w != x
    ensures a.path !in Writes(x, pass, env, a, STEPS).w.remote
  {
    DeleteEffect(x, pass, env, a);
  }

  lemma {:induction false} LaterShrinks(u: World, v: World, left: set<Path>, env: Env, acts: seq<Action>, k: nat)
    requires Pending(u, v, left) && k <= |acts|
    requires forall i :: 0 <= i < |acts| ==> u.ActionAt(acts[i].path, false) == Some(acts[i])
    ensures Shrunk(u, DriftRun(u, env, acts, k).w, left)
  {
    if k > 0 {
      LaterShrinks(u, v, left, env, acts, k - 1);
      var s := DriftRun(u, env, acts, k - 1);
      if !Refused(acts[k - 1], s.touched) {
        ShrinkStep(u, v, left, s.w, s.pass, env, acts[k - 1]);
      }
    } else {
      forall q | q in left ensures ShrunkAt(u, u, q) { assert LeftOver(u, q); }
    }
  }

  lemma ShrunkPends(u: World, v: World, left: set<Path>, x: World)
    requires Pending(u, v, left) && Shrunk(u, x, left) && RemoteRooted(x) && "" !in x.Known()
    ensures Pending(x, v, left)
  {
    forall q | q in left ensures LeftOver(x, q) {
      assert LeftOver(u, q) && ShrunkAt(u, x, q);
      if q in x.remote { assert x.L(q) == u.L(q) && x.R(q) == u.R(q) && x.S(q) == u.S(q); }
    }
  }

  /** Only a delete directly inside touches a folder. */
  lemma {:induction false} NotTouched(u: World, env: Env, acts: seq<Action>, k: nat, d: Path)
    requires k <= |acts|
    requires forall i :: 0 <= i < |acts| ==>
      acts[i].kind == PURGE_TOMBSTONE || (acts[i].kind == DELETE_REMOTE && Dirname(acts[i].path) != d)
    ensures d !in DriftRun(u, env, acts, k).touched && d !in DriftRun(u, env, acts, k).refused
  {
    if k > 0 {
      NotTouched(u, env, acts, k - 1, d);
      var s := DriftRun(u, env, acts, k - 1);
      if acts[k - 1].kind == PURGE_TOMBSTONE { PurgeIsLocal(s.w, s.pass, env, acts[k - 1]); }
    }
  }

  lemma PurgeIsLocal(x: World, pass: Pass, env: Env, a: Action)
    requires a.kind == PURGE_TOMBSTONE
    ensures Writes(x, pass, env, a, STEPS).w.remote == x.remote
  {
    DeleteEffect(x, pass, env, a);
  }

  /** A left-over path whose delete nothing stands in the way of. */
  lemma {:induction false} Deepest(ps: set<Path>) returns (x: Path)
    requires ps != {}
    ensures x in ps && forall y :: y in ps ==> |y| <= |x|
  {
    x :| x in ps;
    if ps != {x} {
      var y := Deepest(ps - {x});
      if |y| > |x| { x := y; }
    }
  }

  /** The baselines of left-over paths: what is still to be done. */
  function ToDo(u: World, left: set<Path>): set<Path> { u.synced.Keys * left }

  /** Some left-over delete is not refused. */
  lemma SomeoneGoes(u: World, v: World, left: set<Path>, env: Env, acts: seq<Action>) returns (x: Path)
    requires Pending(u, v, left) && PlanFor(acts, u, false) && ToDo(u, left) != {}
    ensures x in ToDo(u, left) && x !in DriftRun(u, env, acts, |acts|).refused
  {
    if p :| p in ToDo(u, left) && p !in u.remote {
      x := p;
      PlanIsLeft(u, v, left, x);
      RefusedAreEarlier(u, StartPass(u), env, acts, |acts|);
      if x in DriftRun(u, env, acts, |acts|).refused {
        var i :| 0 <= i < |acts| && acts[i].path == x && acts[i].kind == DELETE_REMOTE;
        Planned(acts, u, false, acts[i]);
      }
    } else {
      x := Deepest(ToDo(u, left));
      forall i | 0 <= i < |acts|
        ensures acts[i].kind == PURGE_TOMBSTONE || (acts[i].kind == DELETE_REMOTE && Dirname(acts[i].path) != x)
      {
        DeeperThanDeepest(u, v, left, acts, i, x);
      }
      NotTouched(u, env, acts, |acts|, x);
    }
  }

  lemma DeeperThanDeepest(u: World, v: World, left: set<Path>, acts: seq<Action>, i: nat, x: Path)
    requires Pending(u, v, left) && PlanFor(acts, u, false) && i < |acts| && x in ToDo(u, left)
    requires forall y :: y in ToDo(u, left) ==> |y| <= |x|
    ensures acts[i].kind == PURGE_TOMBSTONE || (acts[i].kind == DELETE_REMOTE && Dirname(acts[i].path) != x)
  {
    Planned(acts, u, false, acts[i]);
    PlanIsLeft(u, v, left, acts[i].path);
    assert LeftOver(u, acts[i].path);
    if acts[i].kind == DELETE_REMOTE {
      PendingKinds(u, v, left);
      ActionFacts(u, acts[i], false);
      assert acts[i].path in ToDo(u, left) && x in u.Known();
      if Dirname(acts[i].path) != "" { DirnameIsOneUp(acts[i].path); }
    }
  }

  lemma NoConflicts(u: World, v: World, left: set<Path>, env: Env)
    requires Pending(u, v, left)
    ensures FreshCopies(u, env, false)
  {
    forall p ensures !InConflict(u, p, false) {
      PlanIsLeft(u, v, left, p);
    }
  }

  /** A complete pass over a pending world leaves it pending with less to do. */
  lemma LaterPass(u: World, v: World, left: set<Path>, env: Env, acts: seq<Action>)
    requires Pending(u, v, left) && PlanFor(acts, u, false)
    ensures var x := DriftRun(u, env, acts, |acts|).w;
      && Pending(x, v, left) && ToDo(x, left) <= ToDo(u, left)
      && (ToDo(u, left) != {} ==> ToDo(x, left) < ToDo(u, left))
  {
    var x := DriftRun(u, env, acts, |acts|).w;
    PendingIsGood(u, v, left);
    NoConflicts(u, v, left, env);
    forall i | 0 <= i < |acts| ensures u.ActionAt(acts[i].path, false) == Some(acts[i]) {
      Planned(acts, u, false, acts[i]);
    }
    LaterShrinks(u, v, left, env, acts, |acts|);
    DriftKeepsRooted(u, env, acts);
    ShrunkPends(u, v, left, x);
    forall q | q in ToDo(x, left) ensures q in ToDo(u, left) { assert ShrunkAt(u, x, q); }
    if ToDo(u, left) != {} {
      var g := SomeoneGoes(u, v, left, env, acts);
      GoerIsDone(u, v, left, env, acts, g);
    }
  }

  lemma GoerIsDone(u: World, v: World, left: set<Path>, env: Env, acts: seq<Action>, g: Path)
    requires Pending(u, v, left) && Good(u) && BaselinesHonest(u) && FreshCopies(u, env, false) && PlanFor(acts, u, false)
    requires g in left && g !in DriftRun(u, env, acts, |acts|).refused
    requires g !in DriftRun(u, env, acts, |acts|).w.local
    ensures g !in DriftRun(u, env, acts, |acts|).w.synced
  {
    var s := DriftRun(u, env, acts, |acts|);
    DriftSettles(u, env, acts, g);
    OutsideIsSame(s.w, s.refused, g);
    SettledHasNoTombstone(Minus(s.w, s.refused), g);
  }

  lemma DriftSettles(u: World, env: Env, acts: seq<Action>, g: Path)
    requires Good(u) && BaselinesHonest(u) && FreshCopies(u, env, false) && PlanFor(acts, u, false)
    ensures var s := DriftRun(u, env, acts, |acts|); Settled(Minus(s.w, s.refused), g)
  {
    DriftIsStill(u, env, acts, |acts|);
    StillEnds(u, env, acts);
  }

  lemma SettledHasNoTombstone(v: World, g: Path)
    requires Settled(v, g) && g !in v.local && g !in v.remote
    ensures g !in v.synced
  {
  }

  /** A complete pass: what the environment chooses, and the plan. */
  datatype Complete = Complete(env: Env, acts: seq<Action>)

  ghost predicate History(u: World, xs: seq<Complete>)
    decreases |xs|
  {
    xs == [] ||
    (PlanFor(xs[0].acts, u, false) && History(DriftRun(u, xs[0].env, xs[0].acts, |xs[0].acts|).w, xs[1..]))
  }

  function Replay(u: World, xs: seq<Complete>): World
    decreases |xs|
  {
    if xs == [] then u else Replay(DriftRun(u, xs[0].env, xs[0].acts, |xs[0].acts|).w, xs[1..])
  }

  lemma {:induction false} PendingConverges(u: World, v: World, left: set<Path>, xs: seq<Complete>)
    requires Pending(u, v, left) && History(u, xs) && |xs| >= |ToDo(u, left)|
    ensures Replay(u, xs) == v
    decreases |xs|
  {
    if xs == [] {
      NothingToDo(u, v, left);
    } else {
      LaterPass(u, v, left, xs[0].env, xs[0].acts);
      var x := DriftRun(u, xs[0].env, xs[0].acts, |xs[0].acts|).w;
      FewerToDo(ToDo(x, left), ToDo(u, left));
      PendingConverges(x, v, left, xs[1..]);
    }
  }

  lemma FewerToDo(a: set<Path>, b: set<Path>)
    requires a <= b && (b != {} ==> a < b)
    ensures |a| <= |b| && (b != {} ==> |a| < |b|)
  {
    assert b == a + (b - a);
    if b != {} { assert b - a != {}; }
  }

  lemma NothingToDo(u: World, v: World, left: set<Path>)
    requires Pending(u, v, left) && ToDo(u, left) == {}
    ensures u == v
  {
    forall q | q in left ensures q !in u.remote && q !in u.synced {
      assert LeftOver(u, q);
      assert q in u.synced ==> q in ToDo(u, left);
    }
    assert u.remote - left == u.remote && u.synced - left == u.synced;
  }

  /** A drifting server refuses some folder deletes, but after as many further passes as it
      refused, whatever their order, it is where one pass on a still server ends. */
  lemma DriftConverges(w: World, env: Env, acts: seq<Action>, xs: seq<Complete>)
    requires Good(w) && BaselinesHonest(w) && FreshCopies(w, env, false) && PlanFor(acts, w, false)
    requires var s := DriftRun(w, env, acts, |acts|); History(s.w, xs) && |xs| >= |s.refused|
    ensures Replay(DriftRun(w, env, acts, |acts|).w, xs) == Run(w, StartPass(w), env, acts, |acts|).0
  {
    var s := DriftRun(w, env, acts, |acts|);
    FirstPassPends(w, env, acts);
    ConflictNames.SubsetSize(ToDo(s.w, s.refused), s.refused);
    PendingConverges(s.w, Run(w, StartPass(w), env, acts, |acts|).0, s.refused, xs);
  }
}
