/** Exactly when two passes destroy a remote file nobody has seen, on a server that may
    refuse any delete, on the still one and on the drifting one. */
module PairUnseen {
  import opened Basics
  import opened Paths
  import opened Reconcile
  import opened PairWorld
  import opened PairSafety
  import opened PairEffect
  import opened PairPass
  import opened PairFrame
  import opened PairConverge
  import opened PairFault
  import opened PairStaged
  import opened PairRooted
  import opened PairSwept
  import opened PairSweeps
  import opened PairKept
  import opened PairDrift
  import opened PairDriftFault
  import opened PairRefusal

  /** A remote file whose current version is not the baseline's. */
  predicate Unseen(w: World, q: Path) {
    q in w.remote && !w.remote[q].entry.isFolder && !RemoteUnchanged(w, q)
  }

  lemma PlanIsLawful(w: World, env: Env, acts: seq<Action>)
    requires Rooted(w) && FreshCopies(w, env, false) && PlanFor(acts, w, false)
    ensures Lawful(w, StartPass(w), env, acts)
  {
    forall i | 0 <= i < |acts| ensures LawfulAt(w, StartPass(w), env, acts[i]) {
      PlannedIsChosen(w, env, acts, false, i);
      if acts[i].kind == CONFLICT { CopyBeside(w, StartPass(w), env, acts[i], false); }
    }
  }

  lemma UnseenIsOnlyRead(w: World, acts: seq<Action>, q: Path)
    requires Rooted(w) && PlanFor(acts, w, false) && Unseen(w, q)
    ensures forall i :: 0 <= i < |acts| ==> OnlyReads(acts[i], q) && !(acts[i].path == q && acts[i].kind == DELETE_REMOTE)
  {
    forall i | 0 <= i < |acts| ensures OnlyReads(acts[i], q) && !(acts[i].path == q && acts[i].kind == DELETE_REMOTE) {
      Planned(acts, w, false, acts[i]);
      ActionFacts(w, acts[i], false);
    }
  }

  /** The folder's delete is planned and gets through. */
  predicate Goes(acts: seq<Action>, fates: seq<nat>, j: int, q: Path)
    requires |acts| == |fates|
  {
    0 <= j < |acts| && acts[j].kind == DELETE_REMOTE && Below(q, acts[j].path) && fates[j] >= 1
  }

  /** Below a doomed remote folder the file is new to the local side. */
  lemma BelowSlatedIsSwept(w: World, acts: seq<Action>, j: nat, q: Path)
    requires Rooted(w) && PlanFor(acts, w, false) && Unseen(w, q)
    requires j < |acts| && acts[j].kind == DELETE_REMOTE && Below(q, acts[j].path)
    ensures Swept(w, q, acts[j].path)
  {
    var d := acts[j].path;
    Planned(acts, w, false, acts[j]);
    ActionFacts(w, acts[j], false);
    assert d in w.remote && d != "";
    RemoteAncestors(w, q, d);
    if q in w.local { LocalAncestors(w, q, d); }
  }

  /** A fetched file that is still remote too is safe. */
  lemma FetchedIsSafe(w: World, v: World, q: Path)
    requires LocalRooted(v) && RemoteRooted(v) && q in w.remote && !w.remote[q].entry.isFolder
    requires Fetched(v, q, w.remote[q].content) && q in v.remote && v.remote[q] == w.remote[q]
    ensures Safe(v, q, w.remote[q].content)
  {
    forall d | d != "" && Below(q, d) ensures SafeFolder(v, d) {
      RemoteAncestors(v, q, d);
      LocalAncestors(v, q, d);
    }
  }

  /** Safe after the first pass, if no folder's delete gets through. */
  lemma SafeIfNothingGoes(w: World, env: Env, acts: seq<Action>, fates: seq<nat>, q: Path)
    requires Rooted(w) && FreshCopies(w, env, false) && PlanFor(acts, w, false) && OnlyDeletesFail(acts, fates)
    requires Unseen(w, q) && forall j :: !Goes(acts, fates, j, q)
    ensures Safe(FaultyRun(w, StartPass(w), env, acts, fates, |acts|).0, q, w.remote[q].content)
  {
    var v := FaultyRun(w, StartPass(w), env, acts, fates, |acts|).0;
    if j: nat :| j < |acts| && acts[j].kind == DELETE_REMOTE && Below(q, acts[j].path) {
      BelowSlatedIsSwept(w, acts, j, q);
      FirstPassFetches(w, env, acts, fates, q, acts[j].path);
      PlanIsLawful(w, env, acts);
      UnseenIsOnlyRead(w, acts, q);
      RemoteGoesIff(w, StartPass(w), env, acts, fates, q);
      NobodyTakes(acts, fates, q);
      LocalStaysRooted(w, env, acts, fates, false);
      PassKeepsRooted(w, env, acts, fates, false);
      FetchedIsSafe(w, v, q);
    } else {
      if d :| Below(q, d) && Doomed(w, d) && d in w.remote { var i := DoomIsPlanned(w, acts, d); }
      UnseenIsSafe(w, q);
      PassKeepsSafe(w, env, acts, fates, false, q, w.remote[q].content);
    }
  }

  lemma NobodyTakes(acts: seq<Action>, fates: seq<nat>, q: Path)
    requires |acts| == |fates| && forall j :: !Goes(acts, fates, j, q)
    requires forall i :: 0 <= i < |acts| ==> !(acts[i].path == q && acts[i].kind == DELETE_REMOTE)
    ensures forall j :: !TakenBy(acts, fates, j, q)
  {
    forall j ensures !TakenBy(acts, fates, j, q) { assert !Goes(acts, fates, j, q); }
  }

  lemma DoomIsPlanned(w: World, acts: seq<Action>, d: Path) returns (j: nat)
    requires PlanFor(acts, w, false) && Doomed(w, d) && d in w.remote
    ensures j < |acts| && acts[j].path == d && acts[j].kind == DELETE_REMOTE
  {
    UnclassifiedIsOnBothSides(w, d);
    j := PlannedAt(w, acts, d);
    Planned(acts, w, false, acts[j]);
  }

  /** Two passes of which nothing fails but remote deletes: an unseen remote file is on
      neither side afterwards if and only if, in the first, the delete of a folder above it
      gets through. */
  lemma LostIffAFolderGoes(
    w: World, env: Env, acts: seq<Action>, fates: seq<nat>, env': Env, acts': seq<Action>, fates': seq<nat>, q: Path)
    requires Rooted(w) && FreshCopies(w, env, false) && PlanFor(acts, w, false) && OnlyDeletesFail(acts, fates)
    requires var v := FaultyRun(w, StartPass(w), env, acts, fates, |acts|).0;
      FreshCopies(v, env', false) && PlanFor(acts', v, false) && OnlyDeletesFail(acts', fates')
    requires Unseen(w, q)
    ensures var v := FaultyRun(w, StartPass(w), env, acts, fates, |acts|).0;
      var end := FaultyRun(v, StartPass(v), env', acts', fates', |acts'|).0;
      && (q !in end.local && q !in end.remote <==> exists j :: Goes(acts, fates, j, q))
      && (q in end.remote <==> forall j :: !Goes(acts, fates, j, q))
      && (q in end.remote ==> end.remote[q].content == w.remote[q].content)
  {
    var v := FaultyRun(w, StartPass(w), env, acts, fates, |acts|).0;
    PassKeepsRooted(w, env, acts, fates, false);
    if j :| Goes(acts, fates, j, q) {
      BelowSlatedIsSwept(w, acts, j, q);
      FirstPassFetches(w, env, acts, fates, q, acts[j].path);
      PlanIsLawful(w, env, acts);
      UnseenIsOnlyRead(w, acts, q);
      RemoteGoesIff(w, StartPass(w), env, acts, fates, q);
      assert TakenBy(acts, fates, j, q);
      NextPassDeletes(v, env', acts', fates', q, w.remote[q].content);
    } else {
      SafeIfNothingGoes(w, env, acts, fates, q);
      PassKeepsSafe(v, env', acts', fates', false, q, w.remote[q].content);
    }
  }

  // ---- on the still server ----

  /** Two complete passes on the still server: lost if and only if a folder above it was
      slated for remote deletion. */
  lemma UnseenRemoteIsLostIff(w: World, env: Env, acts: seq<Action>, env': Env, acts': seq<Action>, q: Path)
    requires Rooted(w) && FreshCopies(w, env, false) && PlanFor(acts, w, false)
    requires var v := Run(w, StartPass(w), env, acts, |acts|).0; FreshCopies(v, env', false) && PlanFor(acts', v, false)
    requires Unseen(w, q)
    ensures var v := Run(w, StartPass(w), env, acts, |acts|).0;
      var end := Run(v, StartPass(v), env', acts', |acts'|).0;
      q !in end.local && q !in end.remote <==> exists d :: Below(q, d) && Doomed(w, d) && d in w.remote
  {
    var v := Run(w, StartPass(w), env, acts, |acts|).0;
    FaultlessRun(w, StartPass(w), env, acts, Whole(|acts|), |acts|);
    FaultlessRun(v, StartPass(v), env', acts', Whole(|acts'|), |acts'|);
    LostIffAFolderGoes(w, env, acts, Whole(|acts|), env', acts', Whole(|acts'|), q);
    if j :| Goes(acts, Whole(|acts|), j, q) {
      BelowSlatedIsSwept(w, acts, j, q);
      assert Doomed(w, acts[j].path);
    }
    if d :| Below(q, d) && Doomed(w, d) && d in w.remote {
      var j := DoomIsPlanned(w, acts, d);
      assert Goes(acts, Whole(|acts|), j, q);
    }
  }

  // ---- on the drifting server ----

  /** Two complete passes on the drifting server: lost if and only if a folder above it was
      slated for remote deletion, and the first pass does not see that delete refused. */
  lemma UnseenRemoteIsLostThereIff(w: World, env: Env, acts: seq<Action>, env': Env, acts': seq<Action>, q: Path)
    requires Rooted(w) && FreshCopies(w, env, false) && PlanFor(acts, w, false)
    requires var v := DriftRun(w, env, acts, |acts|).w; FreshCopies(v, env', false) && PlanFor(acts', v, false)
    requires Unseen(w, q)
    ensures var v := DriftRun(w, env, acts, |acts|).w;
      var end := DriftRun(v, env', acts', |acts'|).w;
      && (q !in end.local && q !in end.remote
          <==> exists d :: d in SlatedRemotely(w) && Below(q, d) && !Refuses(SlatedRemotely(w), d))
      && (q in end.remote ==> end.remote[q].content == w.remote[q].content)
  {
    var pass, fates := StartPass(w), Whole(|acts|);
    var actual := ActualFates(w, pass, env, acts, fates);
    var v := DriftRun(w, env, acts, |acts|).w;
    var fates' := ActualFates(v, StartPass(v), env', acts', Whole(|acts'|));
    DriftingPass(w, env, acts);
    DriftingPass(v, env', acts');
    LostIffAFolderGoes(w, env, acts, actual, env', acts', fates', q);
    PlanIsLawful(w, env, acts);
    RefusedFates(w, env, acts);
    GoesIffNotRefused(acts, actual, q);
    PlanSlates(w, acts);
  }

  /** What is slated for remote deletion, by the maps the pass starts from. */
  function SlatedRemotely(w: World): set<Path> { set d | d in w.remote && SlatedAt(w, d) }

  lemma PlanSlates(w: World, acts: seq<Action>)
    requires Rooted(w) && PlanFor(acts, w, false)
    ensures Slated(acts) == SlatedRemotely(w)
  {
    forall d ensures d in Slated(acts) <==> d in SlatedRemotely(w) {
      if d in Slated(acts) {
        var i :| 0 <= i < |acts| && acts[i].kind == DELETE_REMOTE && acts[i].path == d;
        Planned(acts, w, false, acts[i]);
        ActionFacts(w, acts[i], false);
      }
      if d in SlatedRemotely(w) {
        var i := PlannedAt(w, acts, d);
        Planned(acts, w, false, acts[i]);
      }
    }
  }

  /** A drifting pass is one of which only remote deletes fail. */
  lemma DriftingPass(w: World, env: Env, acts: seq<Action>)
    ensures var actual := ActualFates(w, StartPass(w), env, acts, Whole(|acts|));
      && OnlyDeletesFail(acts, actual)
      && DriftRun(w, env, acts, |acts|).w == FaultyRun(w, StartPass(w), env, acts, actual, |acts|).0
  {
    WholeDrift(w, StartPass(w), env, acts, |acts|);
    DriftIsFaulty(w, StartPass(w), env, acts, Whole(|acts|), |acts|);
  }

  lemma RefusedFates(w: World, env: Env, acts: seq<Action>)
    requires LocalRooted(w) && Lawful(w, StartPass(w), env, acts)
    ensures var actual := ActualFates(w, StartPass(w), env, acts, Whole(|acts|));
      forall j :: 0 <= j < |acts| && acts[j].kind == DELETE_REMOTE ==> (actual[j] == 0 <==> Refuses(Slated(acts), acts[j].path))
  {
    forall j | 0 <= j < |acts| && acts[j].kind == DELETE_REMOTE
      ensures ActualFates(w, StartPass(w), env, acts, Whole(|acts|))[j] == 0 <==> Refuses(Slated(acts), acts[j].path)
    {
      WholeDrift(w, StartPass(w), env, acts, j);
      TouchedAtItsTurn(w, StartPass(w), env, acts, j);
    }
  }

  lemma GoesIffNotRefused(acts: seq<Action>, actual: seq<nat>, q: Path)
    requires |acts| == |actual|
    requires forall j :: 0 <= j < |acts| && acts[j].kind == DELETE_REMOTE ==> (actual[j] == 0 <==> Refuses(Slated(acts), acts[j].path))
    ensures (exists j :: Goes(acts, actual, j, q)) <==> exists d :: d in Slated(acts) && Below(q, d) && !Refuses(Slated(acts), d)
  {
    if j :| Goes(acts, actual, j, q) { assert acts[j].path in Slated(acts); }
    if d :| d in Slated(acts) && Below(q, d) && !Refuses(Slated(acts), d) {
      var j :| 0 <= j < |acts| && acts[j].kind == DELETE_REMOTE && acts[j].path == d;
      assert Goes(acts, actual, j, q);
    }
  }
}
