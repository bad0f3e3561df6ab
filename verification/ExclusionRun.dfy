/** A pass over filtered maps, in a world that also has the hidden paths. */
module ExclusionRun {
  import opened Basics
  import opened Paths
  import opened Reconcile
  import opened PairWorld
  import opened Exclusion
  import opened PairFrame
  import opened PairFault
  import opened PairSweeps
  import opened PairDrift
  import opened PairDriftFault
  import opened PairRefusal
  import opened PairSafety
  import opened PairConverge
  import PairBootstrap

  /** The pass as it starts with patterns: its maps are filtered, the world is not. */
  function FilteredPass(w: World, excluded: string -> bool): Pass {
    Pass(Visible(w.RemoteMap(), excluded), map[])
  }

  ghost predicate FilteredPlan(acts: seq<Action>, w: World, excluded: string -> bool, bootstrap: bool) {
    ValidPlan(acts, VisibleMaps(w.Maps(), excluded).Classified(bootstrap))
  }

  /** Wherever a filtered pass stops, and wherever any of its actions fails: a hidden
      path's baseline row is as before, and so is the hidden file itself on the local
      side. */
  lemma HiddenIsUntouched(
    w: World, env: Env, excluded: string -> bool, bootstrap: bool, acts: seq<Action>, fates: seq<nat>, q: Path)
    requires FilteredPlan(acts, w, excluded, bootstrap) && |acts| == |fates| && Hidden(q, excluded)
    requires NoCopyAt(acts, FilteredPass(w, excluded), env, q)
    ensures var v := FaultyRun(w, FilteredPass(w, excluded), env, acts, fates, |acts|).0;
      && Get(v.synced, q) == Get(w.synced, q)
      && (q in w.local ==> q in v.local && v.local[q] == w.local[q])
  {
    PlanIsVisible(w.Maps(), excluded, bootstrap, acts, q);
    forall i | 0 <= i < |acts| ensures !MayWrite(FilteredPass(w, excluded), env, acts[i], q) {
      assert acts[i] in acts;
    }
    FaultyLeavesOthers(w, FilteredPass(w, excluded), env, acts, fates, |acts|, q);
  }

  /** The baselines written after a first pass are for visible paths only. */
  lemma HiddenGetsNoBootstrapBaseline(m: Maps, excluded: string -> bool, acted: set<Path>, q: Path)
    requires Hidden(q, excluded)
    ensures q !in PairBootstrap.BootstrapBaselines(VisibleMaps(m, excluded), acted)
  {
  }

  // ---- the remote side is not symmetric ----

  /** Copies get names that nothing else uses, beside their originals. */
  predicate CopiesFresh(w: World, env: Env, acts: seq<Action>) {
    forall a :: a in acts && a.kind == CONFLICT ==> CopyFresh(w, env, a)
  }

  predicate CopyFresh(w: World, env: Env, a: Action) {
    var copy := env.copyName(a.path);
    copy !in w.Known() && copy != "" && Dirname(copy) == Dirname(a.path)
  }

  lemma VisibleFolder(p: Path, excluded: string -> bool)
    requires LastSlash(p) != 0 && Dirname(p) != "" && !Hidden(p, excluded)
    ensures !Hidden(Dirname(p), excluded)
  {
    HiddenByNameOrFolder(p, excluded);
  }

  /** A planned action of a filtered pass, in terms of the world. */
  lemma FilteredAction(w: World, excluded: string -> bool, acts: seq<Action>, a: Action)
    requires FilteredPlan(acts, w, excluded, false) && a in acts
    ensures !Hidden(a.path, excluded) && w.ActionAt(a.path, false) == Some(a)
  {
    var m := w.Maps();
    FilterCommutes(m, excluded, false);
    ClassifiedIsTotal(m, false, a.path);
    assert Get(m.local, a.path) == w.L(a.path) && Get(m.remote, a.path) == w.R(a.path) && Get(m.synced, a.path) == w.S(a.path);
  }

  lemma FilteredCopyLands(w: World, env: Env, excluded: string -> bool, acts: seq<Action>, a: Action)
    requires FilteredPlan(acts, w, excluded, false) && a in acts && a.kind == CONFLICT && CopiesFresh(w, env, acts)
    requires RemoteRooted(w) && LastSlash(a.path) != 0
    ensures CopyTarget(FilteredPass(w, excluded), env.copyName(a.path)) == env.copyName(a.path)
    ensures env.copyName(a.path) !in w.Known()
  {
    FilteredAction(w, excluded, acts, a);
    assert CopyFresh(w, env, a) && a.path in w.remote;
    assert HasRemoteFolder(w, a.path);
    if Dirname(a.path) != "" { VisibleFolder(a.path, excluded); }
  }

  /** No path starts with a slash. */
  ghost predicate RelativePaths(w: World) {
    forall p :: p in w.Known() ==> p != "" && LastSlash(p) != 0
  }

  lemma FilteredIsLawful(w: World, env: Env, excluded: string -> bool, acts: seq<Action>)
    requires RemoteRooted(w) && RelativePaths(w)
    requires FilteredPlan(acts, w, excluded, false) && CopiesFresh(w, env, acts)
    ensures Lawful(w, FilteredPass(w, excluded), env, acts)
  {
    var pass := FilteredPass(w, excluded);
    forall i | 0 <= i < |acts| ensures LawfulAt(w, pass, env, acts[i]) {
      var a := acts[i];
      FilteredAction(w, excluded, acts, a);
      assert a.path in w.Known();
      if a.kind == CONFLICT {
        FilteredCopyLands(w, env, excluded, acts, a);
        assert CopyFresh(w, env, a);
      }
    }
  }

  lemma HiddenIsOnlyRead(w: World, excluded: string -> bool, acts: seq<Action>, q: Path)
    requires FilteredPlan(acts, w, excluded, false) && Hidden(q, excluded)
    ensures forall i :: 0 <= i < |acts| ==> OnlyReads(acts[i], q) && acts[i].path != q
  {
    forall i | 0 <= i < |acts| ensures OnlyReads(acts[i], q) && acts[i].path != q {
      FilteredAction(w, excluded, acts, acts[i]);
    }
  }

  /** Visible, and slated for remote deletion. */
  function SlatedVisibly(w: World, excluded: string -> bool): set<Path> {
    set d | d in w.remote && SlatedAt(w, d) && !Hidden(d, excluded)
  }

  lemma FilteredPlanSlates(w: World, excluded: string -> bool, acts: seq<Action>)
    requires FilteredPlan(acts, w, excluded, false) && RelativePaths(w)
    ensures Slated(acts) == SlatedVisibly(w, excluded)
  {
    forall d ensures d in Slated(acts) <==> d in SlatedVisibly(w, excluded) {
      if d in Slated(acts) { SlatedIsVisible(w, excluded, acts, d); }
      if d in SlatedVisibly(w, excluded) { VisibleIsSlated(w, excluded, acts, d); }
    }
  }

  lemma VisibleIsSlated(w: World, excluded: string -> bool, acts: seq<Action>, d: Path)
    requires FilteredPlan(acts, w, excluded, false) && d in SlatedVisibly(w, excluded)
    ensures d in Slated(acts)
  {
    PlanHas(w, excluded, acts, d);
    var i :| 0 <= i < |acts| && acts[i] == w.ActionAt(d, false).value;
  }

  lemma SlatedIsVisible(w: World, excluded: string -> bool, acts: seq<Action>, d: Path)
    requires FilteredPlan(acts, w, excluded, false) && RelativePaths(w) && d in Slated(acts)
    ensures d in SlatedVisibly(w, excluded)
  {
    var i :| 0 <= i < |acts| && acts[i].kind == DELETE_REMOTE && acts[i].path == d;
    FilteredAction(w, excluded, acts, acts[i]);
    DeleteFacts(w, acts[i]);
    assert d in w.Known();
  }

  /** Over a whole filtered pass, whatever fails in it: a hidden remote entry goes if and
      only if the delete of a folder above it gets as far as its first write, and it keeps
      its bytes otherwise. */
  lemma HiddenGoesWithAFolder(w: World, env: Env, excluded: string -> bool, acts: seq<Action>, fates: seq<nat>, q: Path)
    requires RemoteRooted(w) && RelativePaths(w) && q in w.remote && Hidden(q, excluded) && |acts| == |fates|
    requires FilteredPlan(acts, w, excluded, false) && CopiesFresh(w, env, acts)
    ensures var end := FaultyRun(w, FilteredPass(w, excluded), env, acts, fates, |acts|).0;
      && (q in end.remote ==> end.remote[q] == w.remote[q])
      && (q !in end.remote <==> exists j :: 0 <= j < |acts| && GoesAbove(acts[j], fates[j], q))
  {
    FilteredIsLawful(w, env, excluded, acts);
    HiddenIsOnlyRead(w, excluded, acts, q);
    RemoteGoesIff(w, FilteredPass(w, excluded), env, acts, fates, q);
    if j :| TakenBy(acts, fates, j, q) { assert GoesAbove(acts[j], fates[j], q); }
    if j :| 0 <= j < |acts| && GoesAbove(acts[j], fates[j], q) { assert TakenBy(acts, fates, j, q); }
  }

  predicate GoesAbove(a: Action, fate: nat, q: Path) { a.kind == DELETE_REMOTE && Below(q, a.path) && fate >= 1 }

  /** A complete filtered pass on the still server: a hidden remote entry goes if and only
      if some visible folder above it is slated for remote deletion. */
  lemma HiddenRemoteGoesIff(w: World, env: Env, excluded: string -> bool, acts: seq<Action>, q: Path)
    requires RemoteRooted(w) && RelativePaths(w) && q in w.remote && Hidden(q, excluded)
    requires FilteredPlan(acts, w, excluded, false) && CopiesFresh(w, env, acts)
    ensures var end := Run(w, FilteredPass(w, excluded), env, acts, |acts|).0;
      && (q in end.remote ==> end.remote[q] == w.remote[q])
      && (q !in end.remote <==> exists d :: Below(q, d) && !Hidden(d, excluded) && Doomed(w, d) && d in w.remote)
  {
    var fates := Whole(|acts|);
    FaultlessRun(w, FilteredPass(w, excluded), env, acts, fates, |acts|);
    HiddenGoesWithAFolder(w, env, excluded, acts, fates, q);
    FilteredIsLawful(w, env, excluded, acts);
    if j :| 0 <= j < |acts| && GoesAbove(acts[j], fates[j], q) {
      PlannedDeleteIsDoomed(w, excluded, acts, acts[j], q);
    }
    if d :| Below(q, d) && !Hidden(d, excluded) && Doomed(w, d) && d in w.remote {
      var j := DoomIsPlanned(w, excluded, acts, d);
      assert GoesAbove(acts[j], fates[j], q);
    }
  }

  lemma PlannedDeleteIsDoomed(w: World, excluded: string -> bool, acts: seq<Action>, a: Action, q: Path)
    requires FilteredPlan(acts, w, excluded, false) && a in acts && a.kind == DELETE_REMOTE && a.path != ""
    requires RemoteRooted(w) && q in w.remote && Below(q, a.path)
    ensures !Hidden(a.path, excluded) && Doomed(w, a.path) && a.path in w.remote
  {
    FilteredAction(w, excluded, acts, a);
    DeleteFacts(w, a);
    RemoteAncestors(w, q, a.path);
  }

  lemma DoomIsPlanned(w: World, excluded: string -> bool, acts: seq<Action>, d: Path) returns (j: nat)
    requires FilteredPlan(acts, w, excluded, false) && !Hidden(d, excluded) && Doomed(w, d) && d in w.remote
    ensures j < |acts| && acts[j].kind == DELETE_REMOTE && acts[j].path == d
  {
    PlanHas(w, excluded, acts, d);
    j :| 0 <= j < |acts| && acts[j] == w.ActionAt(d, false).value;
  }

  /** A complete filtered pass on the drifting server: a hidden remote entry goes if and
      only if some visible folder above it is slated for remote deletion and the pass does
      not see that delete refused. */
  lemma HiddenRemoteGoesThereIff(w: World, env: Env, excluded: string -> bool, acts: seq<Action>, q: Path)
    requires LocalRooted(w) && RemoteRooted(w) && RelativePaths(w) && q in w.remote && Hidden(q, excluded)
    requires FilteredPlan(acts, w, excluded, false) && CopiesFresh(w, env, acts)
    ensures var end := DriftFrom(w, FilteredPass(w, excluded), env, acts, |acts|).w;
      && (q in end.remote ==> end.remote[q] == w.remote[q])
      && (q !in end.remote
          <==> exists d :: d in SlatedVisibly(w, excluded) && Below(q, d) && !Refuses(SlatedVisibly(w, excluded), d))
  {
    FilteredIsLawful(w, env, excluded, acts);
    HiddenIsOnlyRead(w, excluded, acts, q);
    FilteredPlanSlates(w, excluded, acts);
    EntryStaysIff(w, FilteredPass(w, excluded), env, acts, q);
  }

  lemma PlanHas(w: World, excluded: string -> bool, acts: seq<Action>, d: Path)
    requires FilteredPlan(acts, w, excluded, false) && !Hidden(d, excluded) && w.ActionAt(d, false).Some?
    ensures w.ActionAt(d, false).value in acts
  {
    var m := w.Maps();
    FilterCommutes(m, excluded, false);
    ClassifiedIsTotal(m, false, d);
    assert Get(m.local, d) == w.L(d) && Get(m.remote, d) == w.R(d) && Get(m.synced, d) == w.S(d);
    assert d in VisibleMaps(m, excluded).Classified(false);
  }

  const D: Path := "d"
  const X: Path := "d/x"

  function OnlyX(name: string): bool { name == "x" }

  function RemoteOnly(): World {
    World(
      map[],
      map[D := RemoteNode(RemoteEntry(true, 0, "e1", "1", None), []), X := RemoteNode(RemoteEntry(false, 1, "e2", "2", None), [7])],
      map[D := SyncedEntry(Some("1"), Some("e1"), None, None, true)])
  }

  const DELETE_D: Action := Action(D, DELETE_REMOTE, true, Some("1"), None)

  lemma XIsHidden()
    ensures Hidden(X, OnlyX) && !Hidden(D, OnlyX)
  {
    assert X[1] == '/' && X[2..] == "x" && X[..1] == "d";
    assert LastSlash(X[..2]) == 1;
    assert X[..3] == X && LastSlash(X) == 1;
    assert Split(X) == Split("d") + ["x"];
    assert "x" in Split(X);
  }

  /** A local folder is deleted by the user; on the drive it also holds an excluded file.
      The plan is to delete the folder, and the excluded file's only copy goes with it. */
  lemma ExcludedFileGoesWithItsFolder(env: Env)
    ensures FilteredPlan([DELETE_D], RemoteOnly(), OnlyX, false) && Hidden(X, OnlyX)
    ensures X in RemoteOnly().remote
    ensures Run(RemoteOnly(), FilteredPass(RemoteOnly(), OnlyX), env, [DELETE_D], 1).0.remote == map[]
  {
    XIsHidden();
    DeleteIsPlanned();
    OnlyTheDelete(env);
  }

  /** What the pass sees: the folder only. */
  function FolderOnly(): Maps {
    Maps(map[], map[D := RemoteEntry(true, 0, "e1", "1", None)], map[D := SyncedEntry(Some("1"), Some("e1"), None, None, true)])
  }

  lemma OneIsVisible<E>(m: map<Path, E>, excluded: string -> bool, p: Path, q: Path)
    requires p in m && m.Keys <= {p, q} && Hidden(q, excluded) && !Hidden(p, excluded)
    ensures Visible(m, excluded) == map[p := m[p]]
  {
  }

  lemma FilesAreHidden()
    ensures VisibleMaps(RemoteOnly().Maps(), OnlyX) == FolderOnly()
  {
    XIsHidden();
    var m := RemoteOnly().Maps();
    OneIsVisible(m.remote, OnlyX, D, X);
    OneIsVisible(m.synced, OnlyX, D, X);
    assert Visible(m.local, OnlyX) == map[];
  }

  lemma DeleteIsPlanned()
    ensures FilteredPlan([DELETE_D], RemoteOnly(), OnlyX, false)
  {
    FilesAreHidden();
    var m := FolderOnly();
    assert m.ActionAt(D, false) == Some(DELETE_D);
    assert m.Paths() == {D};
    assert m.Classified(false) == map[D := DELETE_D];
  }

  lemma OnlyTheDelete(env: Env)
    ensures Run(RemoteOnly(), FilteredPass(RemoteOnly(), OnlyX), env, [DELETE_D], 1).0.remote == map[]
  {
    var w, pass := RemoteOnly(), FilteredPass(RemoteOnly(), OnlyX);
    XIsHidden();
    SweepsBoth(w);
    assert pass.snapshot == map[D := w.remote[D].entry];
    DeleteWrites(w, pass, env, DELETE_D);
  }

  lemma SweepsBoth(w: World)
    requires w == RemoteOnly()
    ensures WithoutTree(w.remote, D) == map[]
  {
    assert Below(X, D);
  }

  function WithoutTree(remote: map<Path, RemoteNode>, p: Path): map<Path, RemoteNode> {
    map q | q in remote && q != p && !Below(q, p) :: remote[q]
  }

  lemma DeleteWrites(w: World, pass: Pass, env: Env, a: Action)
    requires a.kind == DELETE_REMOTE && a.path in w.remote && a.itemId == Some(w.remote[a.path].entry.itemId)
    requires a.path in pass.snapshot ==> pass.snapshot[a.path].etag == w.remote[a.path].entry.etag
    ensures Run(w, pass, env, [a], 1).0.remote == WithoutTree(w.remote, a.path)
  {
    var v := w.(remote := WithoutTree(w.remote, a.path));
    var end := v.(synced := v.synced - {a.path});
    assert Writes(w, pass, env, a, 0) == Done(w);
    assert Writes(w, pass, env, a, 1) == DeleteRemoteWrite(w, pass, a, 1) == Done(v);
    assert Writes(w, pass, env, a, 2) == DeleteRemoteWrite(v, pass, a, 2) == Done(end);
    NothingAfterTwo(w, pass, env, a, STEPS);
    assert Run(w, pass, env, [a], 0) == (w, pass);
  }

  lemma {:induction false} NothingAfterTwo(w: World, pass: Pass, env: Env, a: Action, n: nat)
    requires a.kind == DELETE_REMOTE && n >= 2
    ensures Writes(w, pass, env, a, n) == Writes(w, pass, env, a, 2)
  {
    if n > 2 { NothingAfterTwo(w, pass, env, a, n - 1); }
  }
}
