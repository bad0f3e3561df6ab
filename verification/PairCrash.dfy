/** No version is lost over any run of passes, whatever fails in them. */
module PairCrash {
  import opened Basics
  import opened Paths
  import opened Reconcile
  import opened PairWorld
  import opened PairSafety
  import opened PairEffect
  import opened PairInvariant
  import opened PairPass
  import opened PairMerge
  import opened PairFault
  import opened PairStaged
  import opened PairRooted
  import opened PairPartial

  // ---- versions that no pass may destroy ----

  /** The bytes are the local file at `p`, and no pass will overwrite or delete it:
      that takes a file equal to its baseline beside a remote change or deletion. */
  predicate KeptLocally(w: World, p: Path, c: Content) {
    && p in w.local && !w.local[p].entry.isFolder && w.local[p].content == c
    && (LocalUnchanged(w, p) ==> RemoteUnchanged(w, p))
  }

  predicate KeptRemotely(w: World, p: Path, c: Content) {
    && p in w.remote && !w.remote[p].entry.isFolder && w.remote[p].content == c
    && (RemoteUnchanged(w, p) ==> LocalUnchanged(w, p))
  }

  predicate KeptAt(w: World, p: Path, c: Content) {
    KeptLocally(w, p, c) || KeptRemotely(w, p, c)
  }

  ghost predicate Kept(w: World, c: Content) {
    exists p :: KeptAt(w, p, c)
  }

  /** A file version that is not its path's baseline version is kept, on either side. */
  lemma UnseenVersionsAreKept(w: World, p: Path)
    ensures p in w.local && !w.local[p].entry.isFolder && !LocalUnchanged(w, p) ==> Kept(w, w.local[p].content)
    ensures p in w.remote && !w.remote[p].entry.isFolder && !RemoteUnchanged(w, p) ==> Kept(w, w.remote[p].content)
  {
    if p in w.local && !w.local[p].entry.isFolder && !LocalUnchanged(w, p) {
      assert KeptAt(w, p, w.local[p].content);
    }
    if p in w.remote && !w.remote[p].entry.isFolder && !RemoteUnchanged(w, p) {
      assert KeptAt(w, p, w.remote[p].content);
    }
  }

  /** However far an action gets, what was kept at its path is kept there or at the copy. */
  lemma KeptLocallyAfter(w: World, env: Env, a: Action, bootstrap: bool, n: nat, c: Content)
    requires KindsAgree(w) && Chosen(w, env, a, bootstrap) && KeptLocally(w, a.path, c)
    ensures exists x :: x in Touched(env, a) && KeptAt(After(w, env, a, n), x, c)
  {
    var v := After(w, env, a, n);
    ActionFacts(w, a, bootstrap);
    VanishesIsDelete(w, a.path, bootstrap);
    if a.kind == CONFLICT {
      CopyStages(w, env, a, n);
      if n == 0 {
        assert v == w;
        assert KeptAt(v, a.path, c);
      } else {
        assert KeptAt(v, env.copyName(a.path), c);
      }
    } else {
      assert KeptAt(v, a.path, c);
    }
  }

  lemma KeptRemotelyAfter(w: World, env: Env, a: Action, bootstrap: bool, n: nat, c: Content)
    requires KindsAgree(w) && Chosen(w, env, a, bootstrap) && KeptRemotely(w, a.path, c)
    ensures exists x :: x in Touched(env, a) && KeptAt(After(w, env, a, n), x, c)
  {
    var v := After(w, env, a, n);
    ActionFacts(w, a, bootstrap);
    VanishesIsDelete(w, a.path, bootstrap);
    if a.kind == CONFLICT {
      OriginalStages(w, env, a, n);
    }
    assert KeptAt(v, a.path, c);
  }

  lemma KeptAtPathAfter(w: World, env: Env, a: Action, bootstrap: bool, n: nat, c: Content) returns (x: Path)
    requires KindsAgree(w) && Chosen(w, env, a, bootstrap) && KeptAt(w, a.path, c)
    ensures x in Touched(env, a) && KeptAt(After(w, env, a, n), x, c)
  {
    if KeptLocally(w, a.path, c) {
      KeptLocallyAfter(w, env, a, bootstrap, n, c);
    } else {
      KeptRemotelyAfter(w, env, a, bootstrap, n, c);
    }
    x :| x in Touched(env, a) && KeptAt(After(w, env, a, n), x, c);
  }

  lemma SameKept(w: World, v: World, p: Path, c: Content)
    requires SameAt(w, v, p)
    ensures KeptAt(w, p, c) <==> KeptAt(v, p, c)
  {
    assert (p in w.local <==> p in v.local) && (p in w.remote <==> p in v.remote) && (p in w.synced <==> p in v.synced);
  }

  /** No prefix of an action's durable writes destroys a kept version. */
  lemma KeptAfter(w: World, env: Env, a: Action, bootstrap: bool, n: nat, c: Content)
    requires KindsAgree(w) && Chosen(w, env, a, bootstrap) && Kept(w, c)
    ensures Kept(After(w, env, a, n), c)
  {
    var p :| KeptAt(w, p, c);
    var v := After(w, env, a, n);
    if p == a.path {
      var x := KeptAtPathAfter(w, env, a, bootstrap, n, c);
    } else {
      TouchesOnlyItsPath(w, env, a, n);
      assert a.kind == CONFLICT ==> env.copyName(a.path) !in w.Known();
      MergedElsewhere(w, v, Touched(env, a), p);
      assert KeptAt(v, p, c);
    }
  }

  // ---- passes failing, stopped or killed anywhere ----

  /** A pass any of whose actions may fail part-way keeps every kept version. */
  lemma FaultyPassKeeps(w: World, env: Env, acts: seq<Action>, fates: seq<nat>, bootstrap: bool, c: Content)
    requires Faulty(w, env, acts, fates, bootstrap) && Kept(w, c)
    ensures Kept(FaultyRun(w, StartPass(w), env, acts, fates, |acts|).0, c)
  {
    var v := FaultyRun(w, StartPass(w), env, acts, fates, |acts|).0;
    var p :| KeptAt(w, p, c);
    if Nobodys(env, acts, p) {
      RunLeavesNobodys(w, env, acts, fates, bootstrap, p);
      SameKept(w, v, p, c);
      assert KeptAt(v, p, c);
    } else {
      var i :| 0 <= i < |acts| && p in Touched(env, acts[i]);
      RunStands(w, env, acts, fates, bootstrap, i, |acts|);
      PlannedIsChosen(w, env, acts, bootstrap, i);
      KeptAtItsStage(w, v, env, acts[i], bootstrap, p, c);
    }
  }

  lemma KeptAtItsStage(w: World, v: World, env: Env, a: Action, bootstrap: bool, p: Path, c: Content)
    requires KindsAgree(w) && Chosen(w, env, a, bootstrap) && SomeStage(w, env, a, v)
    requires p in Touched(env, a) && KeptAt(w, p, c)
    ensures Kept(v, c)
  {
    var n: nat :| StagedAs(w, env, a, v, n);
    var x := KeptAtPathAfter(w, env, a, bootstrap, n, c);
    SameKept(After(w, env, a, n), v, x, c);
    assert KeptAt(v, x, c);
  }

  /** Over any run of passes, each of whose actions may fail after any durable write while
      the later ones still run, every kept version stays stored on some side. */
  lemma {:induction false} NoVersionIsLost(w: World, xs: seq<FaultyPass>, c: Content)
    requires Good(w) && Passes(w, xs) && Kept(w, c)
    requires forall x :: x in xs ==> |x.acts| == |x.fates|
    ensures Good(AfterPasses(w, xs)) && Kept(AfterPasses(w, xs), c)
    decreases |xs|
  {
    if xs != [] {
      FaultyPassKeepsGood(w, xs[0].env, xs[0].acts, xs[0].fates, xs[0].bootstrap);
      FaultyPassKeeps(w, xs[0].env, xs[0].acts, xs[0].fates, xs[0].bootstrap, c);
      NoVersionIsLost(AfterPass(w, xs[0]), xs[1..], c);
    }
  }

  // ---- a conflict killed half-way ----

  /** After the rename alone, the next pass downloads the original path again: its
      missing local file is not read as a deletion. */
  lemma RenameAloneIsNotADelete(w: World, pass: Pass, env: Env, a: Action, bootstrap: bool)
    requires KindsAgree(w) && Enabled(w, pass, env, a, bootstrap) && a.kind == CONFLICT
    ensures a.path in w.remote
    ensures After(w, env, a, 1).ActionAt(a.path, bootstrap)
         == Some(Action(a.path, DOWNLOAD, false, Some(w.remote[a.path].entry.itemId), None))
    ensures After(w, env, a, 1).ActionAt(env.copyName(a.path), bootstrap)
         == Some(Action(env.copyName(a.path), UPLOAD, false, None, None))
  {
    ActionFacts(w, a, bootstrap);
    CopyStages(w, env, a, 1);
    OriginalStages(w, env, a, 1);
  }

  lemma ConflictMergesTheSame(w: World, pass: Pass, env: Env, a: Action, n: nat)
    requires KindsAgree(w) && Enabled(w, pass, env, a, false) && a.kind == CONFLICT && 1 <= n
    ensures a.path in w.local && a.path in w.remote
    ensures Merged(After(w, env, a, n), a.path) == Some(File(w.remote[a.path].content))
    ensures Merged(After(w, env, a, n), env.copyName(a.path)) == Some(File(w.local[a.path].content))
    ensures a.path in After(w, env, a, n).Known() && env.copyName(a.path) in After(w, env, a, n).Known()
  {
    ActionFacts(w, a, false);
    CopyStages(w, env, a, n);
    OriginalStages(w, env, a, n);
  }

  lemma HonestAfterPrefix(w: World, pass: Pass, env: Env, a: Action, n: nat)
    requires KindsAgree(w) && BaselinesHonest(w) && Enabled(w, pass, env, a, false) && a.kind == CONFLICT
    ensures BaselinesHonest(After(w, env, a, n))
  {
    var v := After(w, env, a, n);
    TouchesOnlyItsPath(w, env, a, n);
    ActionFacts(w, a, false);
    CopyStages(w, env, a, n);
    OriginalStages(w, env, a, n);
    forall q | LocalUnchanged(v, q) && RemoteUnchanged(v, q) ensures LocalView(v, q) == RemoteView(v, q) {
      if q !in Touched(env, a) {
        MergedElsewhere(w, v, Touched(env, a), q);
      }
    }
  }

  /** Killed after any write of a conflict's resolution and followed by one complete
      pass: both sides hold the remote version at the original path and the local
      edit at the copy's. */
  lemma KilledConflictStillKeepsBoth(
    w: World, pass: Pass, env: Env, a: Action, n: nat, env': Env, acts': seq<Action>)
    requires Good(w) && BaselinesHonest(w) && Enabled(w, pass, env, a, false) && a.kind == CONFLICT && 1 <= n <= STEPS
    requires Writes(w, pass, env, a, n).Done?
    requires var v := Writes(w, pass, env, a, n).w; FreshCopies(v, env', false) && PlanFor(acts', v, false)
    ensures a.path in w.local && a.path in w.remote
    ensures var v := Writes(w, pass, env, a, n).w;
      var end := Run(v, StartPass(v), env', acts', |acts'|).0;
      && LocalView(end, a.path) == RemoteView(end, a.path) == Some(File(w.remote[a.path].content))
      && LocalView(end, env.copyName(a.path)) == RemoteView(end, env.copyName(a.path)) == Some(File(w.local[a.path].content))
      && PlanFor([], end, false)
  {
    WritesSucceed(w, pass, env, a, false, n);
    var v := After(w, env, a, n);
    GoodAfter(w, pass, env, a, false, n);
    HonestAfterPrefix(w, pass, env, a, n);
    ConflictMergesTheSame(w, pass, env, a, n);
    PassIsThreeWayMerge(v, env', acts');
  }
}
