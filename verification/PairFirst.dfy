/** What a completed first pass leaves on the two sides, told from the entries alone. */
module PairFirst {
  import opened Basics
  import opened Paths
  import opened Reconcile
  import opened PairWorld
  import opened PairSafety
  import opened PairEffect
  import opened PairPass
  import opened PairMerge
  import opened PairFault
  import opened PairStaged
  import opened PairRooted
  import opened PairPartial
  import opened PairBootstrap

  /** A file on each side that no pass has paired yet. */
  predicate Unpaired(w: World, p: Path) {
    && p in w.local && p in w.remote && p !in w.synced
    && !w.local[p].entry.isFolder && !w.remote[p].entry.isFolder
  }

  /** Equal hashes are hashes of equal bytes. */
  ghost predicate HashesHonest(w: World) {
    forall p :: Unpaired(w, p) && w.local[p].entry.hash.Some? && w.local[p].entry.hash == w.remote[p].entry.hash ==>
      w.local[p].content == w.remote[p].content
  }

  /** The world as a completed first pass leaves it, baselines included. */
  function FirstPass(w: World, env: Env, acts: seq<Action>): World {
    WithBaselines(w, Run(w, StartPass(w), env, acts, |acts|).0, ActedPaths(acts, |acts|))
  }

  function Everything(n: nat): (fates: seq<nat>)
    ensures |fates| == n && forall i :: 0 <= i < n ==> fates[i] == STEPS
  {
    seq(n, _ => STEPS)
  }

  /** The remote version has the path and the local one the copy's, both on both sides. */
  predicate BothKept(w: World, v: World, env: Env, p: Path)
    requires p in w.local && p in w.remote
  {
    && LocalView(v, p) == RemoteView(v, p) == Some(File(w.remote[p].content))
    && LocalView(v, env.copyName(p)) == RemoteView(v, env.copyName(p)) == Some(File(w.local[p].content))
  }

  /** Left as they are, and recorded as a pair. */
  predicate Paired(w: World, v: World, p: Path)
    requires p in w.local && p in w.remote
  {
    && Get(v.local, p) == Get(w.local, p) && Get(v.remote, p) == Get(w.remote, p)
    && v.S(p) == Some(SyncedEntry(Some(w.remote[p].entry.itemId), Some(w.remote[p].entry.etag),
                                  Some(w.local[p].entry.mtime), Some(w.local[p].entry.size), false))
  }

  lemma FirstAction(w: World, p: Path)
    requires Unpaired(w, p)
    ensures w.ActionAt(p, true) == if Alike(w.local[p].entry, w.remote[p].entry) then None
      else Some(Action(p, CONFLICT, false, None, None))
  {
    BothAreKeptIff(p, w.local[p].entry, w.remote[p].entry, None, true);
  }

  /** A conflict at a stage that needs no further action has both versions on both sides. */
  lemma FinishedConflict(w: World, v: World, env: Env, a: Action, n: nat)
    requires KindsAgree(w) && Chosen(w, env, a, true) && a.kind == CONFLICT && Unpaired(w, a.path)
    requires StagedAs(w, env, a, v, n) && v.ActionAt(a.path, true) == None
    ensures BothKept(w, v, env, a.path)
  {
    var p, copy := a.path, env.copyName(a.path);
    ActionFacts(w, a, true);
    assert SameAt(After(w, env, a, n), v, p) && SameAt(After(w, env, a, n), v, copy);
    OriginalStages(w, env, a, n);
    CopyStages(w, env, a, n);
    if n < 5 { StillToDo(w, v, env, a, n); }
    assert Get(v.local, copy) == Some(w.local[p]);
    assert Get(v.remote, copy) == Some(After(w, env, a, n).remote[copy]);
    assert Get(v.local, p) == Some(After(w, env, a, n).local[p]) && Get(v.remote, p) == Some(w.remote[p]);
  }

  /** Before its download the original is missing locally, or still in conflict. */
  lemma StillToDo(w: World, v: World, env: Env, a: Action, n: nat)
    requires KindsAgree(w) && Chosen(w, env, a, true) && a.kind == CONFLICT && Unpaired(w, a.path)
    requires SameAt(After(w, env, a, n), v, a.path) && n < 5
    ensures v.ActionAt(a.path, true).Some?
  {
    ActionFacts(w, a, true);
    OriginalStages(w, env, a, n);
    assert v.R(a.path) == w.R(a.path) && v.S(a.path) == None;
    assert v.L(a.path) == if n == 0 then w.L(a.path) else None;
  }

  lemma ConflictEnds(w: World, env: Env, acts: seq<Action>, p: Path)
    requires Good(w) && FreshCopies(w, env, true) && PlanFor(acts, w, true)
    requires Unpaired(w, p) && !Alike(w.local[p].entry, w.remote[p].entry)
    ensures BothKept(w, Run(w, StartPass(w), env, acts, |acts|).0, env, p)
  {
    var v := Run(w, StartPass(w), env, acts, |acts|).0;
    var i := ConflictIsPlanned(w, acts, p);
    var n := ReachedStage(w, env, acts, i);
    PlannedIsChosen(w, env, acts, true, i);
    NoActionIsLeft(w, env, acts, p);
    FinishedConflict(w, v, env, acts[i], n);
  }

  lemma ConflictIsPlanned(w: World, acts: seq<Action>, p: Path) returns (i: nat)
    requires PlanFor(acts, w, true) && Unpaired(w, p) && !Alike(w.local[p].entry, w.remote[p].entry)
    ensures i < |acts| && acts[i].path == p && acts[i].kind == CONFLICT
  {
    FirstAction(w, p);
    PlanFacts(acts, w, true);
    i :| 0 <= i < |acts| && acts[i] == w.ActionAt(p, true).value;
  }

  /** A complete pass leaves the paths of an action at one of its stages. */
  lemma ReachedStage(w: World, env: Env, acts: seq<Action>, i: nat) returns (n: nat)
    requires Good(w) && FreshCopies(w, env, true) && PlanFor(acts, w, true) && i < |acts|
    ensures StagedAs(w, env, acts[i], Run(w, StartPass(w), env, acts, |acts|).0, n)
  {
    var fates := Everything(|acts|);
    FaultlessRun(w, StartPass(w), env, acts, fates, |acts|);
    RunStands(w, env, acts, fates, true, i, |acts|);
    n :| StagedAs(w, env, acts[i], Run(w, StartPass(w), env, acts, |acts|).0, n);
  }

  lemma AlikeIsLeftAlone(w: World, env: Env, acts: seq<Action>, p: Path)
    requires Good(w) && FreshCopies(w, env, true) && PlanFor(acts, w, true)
    requires Unpaired(w, p) && Alike(w.local[p].entry, w.remote[p].entry)
    ensures SameAt(w, Run(w, StartPass(w), env, acts, |acts|).0, p) && p !in ActedPaths(acts, |acts|)
    ensures forall a :: a in acts ==> a.path != p
  {
    FirstAction(w, p);
    PlanFacts(acts, w, true);
    if p in ActedPaths(acts, |acts|) { ActedPathsAre(acts, |acts|, p); }
    BootstrapAlongThePass(w, env, acts, |acts|, p);
  }

  /** A completed first pass, path by path: two files that nothing reported tells apart stay
      as they are and are recorded as a pair; of two others the remote one has the path and
      the local one the copy's, both on both sides. */
  lemma FirstPassPairs(w: World, env: Env, acts: seq<Action>, p: Path)
    requires Good(w) && FreshCopies(w, env, true) && PlanFor(acts, w, true) && Unpaired(w, p)
    ensures if Alike(w.local[p].entry, w.remote[p].entry) then
        Paired(w, FirstPass(w, env, acts), p) && forall a :: a in acts ==> a.path != p
      else BothKept(w, FirstPass(w, env, acts), env, p)
  {
    var v, acted := Run(w, StartPass(w), env, acts, |acts|).0, ActedPaths(acts, |acts|);
    if Alike(w.local[p].entry, w.remote[p].entry) {
      AlikeIsLeftAlone(w, env, acts, p);
      AlikeIsRecorded(w, v, acted, p);
    } else {
      ConflictEnds(w, env, acts, p);
      BaselinesKeepBoth(w, v, acted, env, p);
    }
  }

  lemma BaselinesKeepBoth(w: World, v: World, acted: set<Path>, env: Env, p: Path)
    requires p in w.local && p in w.remote && BothKept(w, v, env, p)
    ensures BothKept(w, WithBaselines(w, v, acted), env, p)
  {
  }

  lemma AlikeIsRecorded(w: World, v: World, acted: set<Path>, p: Path)
    requires Unpaired(w, p) && Alike(w.local[p].entry, w.remote[p].entry) && SameAt(w, v, p) && p !in acted
    ensures Paired(w, WithBaselines(w, v, acted), p)
  {
    var m := w.Maps();
    assert Get(m.local, p) == w.L(p) && Get(m.remote, p) == w.R(p) && Get(m.synced, p) == w.S(p);
  }

  /** Where both sides report a hash, a completed first pass leaves the same bytes on both
      sides, and loses none. */
  lemma HashedFilesEndEqual(w: World, env: Env, acts: seq<Action>, p: Path)
    requires Good(w) && FreshCopies(w, env, true) && PlanFor(acts, w, true) && HashesHonest(w)
    requires Unpaired(w, p) && w.local[p].entry.hash.Some? && w.remote[p].entry.hash.Some?
    ensures var end := FirstPass(w, env, acts);
      && LocalView(end, p) == RemoteView(end, p) == Some(File(w.remote[p].content))
      && (LocalView(end, p) == Some(File(w.local[p].content))
          || BothKept(w, end, env, p))
  {
    FirstPassPairs(w, env, acts, p);
    if Alike(w.local[p].entry, w.remote[p].entry) {
      var end := FirstPass(w, env, acts);
      assert Get(end.local, p) == Some(w.local[p]) && Get(end.remote, p) == Some(w.remote[p]);
    }
  }
}
