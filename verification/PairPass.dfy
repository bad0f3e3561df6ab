/** A whole pass: every action is enabled when its turn comes, and what is left of
    the plan is exactly what a fresh pass would plan. */
module PairPass {
  import opened Basics
  import opened Paths
  import opened Reconcile
  import opened PairWorld
  import opened PairSafety
  import opened PairEffect
  import opened PairInvariant

  ghost predicate PlanFor(acts: seq<Action>, w: World, bootstrap: bool) {
    ValidPlan(acts, w.Maps().Classified(bootstrap))
  }

  lemma ClassifiedHere(w: World, bootstrap: bool, p: Path)
    ensures p in w.Maps().Classified(bootstrap) <==> w.ActionAt(p, bootstrap).Some?
    ensures w.ActionAt(p, bootstrap).Some? ==>
      w.Maps().Classified(bootstrap)[p] == w.ActionAt(p, bootstrap).value && w.ActionAt(p, bootstrap).value.path == p
  {
    var m := w.Maps();
    assert Get(m.local, p) == w.L(p) && Get(m.remote, p) == w.R(p) && Get(m.synced, p) == w.S(p);
    ClassifiedIsTotal(m, bootstrap, p);
  }

  /** The plan in terms of the world alone. */
  lemma PlanFacts(acts: seq<Action>, w: World, bootstrap: bool)
    requires PlanFor(acts, w, bootstrap)
    ensures forall a :: a in acts ==> w.ActionAt(a.path, bootstrap) == Some(a)
    ensures forall p :: w.ActionAt(p, bootstrap).Some? ==> w.ActionAt(p, bootstrap).value in acts
  {
    forall a | a in acts ensures w.ActionAt(a.path, bootstrap) == Some(a) {
      ClassifiedHere(w, bootstrap, a.path);
    }
    forall p | w.ActionAt(p, bootstrap).Some? ensures w.ActionAt(p, bootstrap).value in acts {
      ClassifiedHere(w, bootstrap, p);
    }
  }

  lemma Planned(acts: seq<Action>, w: World, bootstrap: bool, a: Action)
    requires PlanFor(acts, w, bootstrap) && a in acts
    ensures w.ActionAt(a.path, bootstrap) == Some(a) && a.path in w.Known()
  {
    ClassifiedHere(w, bootstrap, a.path);
    UnknownIsUnclassified(w, a.path, bootstrap);
  }

  // ---- the pass's own maps stay current ----

  function KnownId(pass: Pass, q: Path): Option<string> {
    if q in pass.created then Some(pass.created[q])
    else if q in pass.snapshot then Some(pass.snapshot[q].itemId)
    else None
  }

  /** What the pass remembers is still true wherever it will look. */
  ghost predicate Current(w: World, pass: Pass, acts: seq<Action>) {
    && (forall a :: a in acts ==> Get(pass.snapshot, a.path) == w.R(a.path))
    && (forall q :: q in w.remote && w.remote[q].entry.isFolder ==>
          KnownId(pass, q) == Some(w.remote[q].entry.itemId))
    && (forall q :: q in pass.snapshot && Dirname(q) != "" ==> Dirname(q) in pass.snapshot)
    && pass.created.Keys !! pass.snapshot.Keys
  }

  lemma StartsCurrent(w: World, acts: seq<Action>)
    requires RemoteRooted(w)
    ensures Current(w, StartPass(w), acts)
  {
    forall q | q in w.RemoteMap() && Dirname(q) != "" ensures Dirname(q) in w.RemoteMap() {
      assert HasRemoteFolder(w, q);
    }
  }

  // ---- the first action of a plan is enabled ----

  /** A folder missing on one side with no baseline is a create; with one, doomed. */
  lemma MissingFolder(w: World, d: Path, bootstrap: bool)
    requires KindsAgree(w) && FolderAt(w, d) && (d in w.local) != (d in w.remote)
    ensures d in w.synced ==> Doomed(w, d)
    ensures d !in w.synced ==> w.ActionAt(d, bootstrap).Some?
    ensures d !in w.synced ==>
      var b := w.ActionAt(d, bootstrap).value; b.path == d && b.isFolder && !IsDelete(b)
  {
  }

  lemma FirstMayPrecede(acts: seq<Action>)
    requires Ordered(acts) && acts != []
    ensures forall b :: b in acts ==> b == acts[0] || MayPrecede(acts[0], b)
  {
    forall b | b in acts ensures b == acts[0] || MayPrecede(acts[0], b) {
      var i :| 0 <= i < |acts| && acts[i] == b;
    }
  }

  /** A create or write that comes first in the plan is not below a missing folder:
      that folder's own create would stand earlier. */
  lemma NoMissingFolderAboveFirst(w: World, acts: seq<Action>, bootstrap: bool)
    requires Good(w) && PlanFor(acts, w, bootstrap) && acts != [] && !IsDelete(acts[0])
    requires acts[0].path in w.Known()
    ensures var d := Dirname(acts[0].path); d != "" && FolderAt(w, d) ==> (d in w.local) == (d in w.remote)
  {
    var p := acts[0].path;
    var d := Dirname(p);
    PlanFacts(acts, w, bootstrap);
    FirstMayPrecede(acts);
    VanishesIsDelete(w, p, bootstrap);
    if d != "" && FolderAt(w, d) && (d in w.local) != (d in w.remote) {
      DirnameIsOneUp(p);
      MissingFolder(w, d, bootstrap);
    }
  }

  lemma RemoteParentExists(w: World, acts: seq<Action>, bootstrap: bool)
    requires Good(w) && PlanFor(acts, w, bootstrap) && acts != []
    requires acts[0].kind in {CREATE_REMOTE_DIR, UPLOAD}
    ensures HasRemoteFolder(w, acts[0].path)
  {
    PlanFacts(acts, w, bootstrap);
    ActionFacts(w, acts[0], bootstrap);
    assert HasLocalFolder(w, acts[0].path);
    NoMissingFolderAboveFirst(w, acts, bootstrap);
  }

  lemma LocalParentExists(w: World, acts: seq<Action>, bootstrap: bool)
    requires Good(w) && PlanFor(acts, w, bootstrap) && acts != []
    requires acts[0].kind in {CREATE_LOCAL_DIR, DOWNLOAD}
    ensures HasLocalFolder(w, acts[0].path)
  {
    PlanFacts(acts, w, bootstrap);
    ActionFacts(w, acts[0], bootstrap);
    assert HasRemoteFolder(w, acts[0].path);
    NoMissingFolderAboveFirst(w, acts, bootstrap);
  }

  /** A folder is empty on its side when its delete comes first in the plan. */
  lemma DeletedFolderIsEmpty(w: World, acts: seq<Action>, bootstrap: bool)
    requires Good(w) && PlanFor(acts, w, bootstrap) && acts != []
    ensures acts[0].kind == DELETE_LOCAL ==> forall q :: q in w.local ==> !Below(q, acts[0].path)
    ensures acts[0].kind == DELETE_REMOTE ==> forall q :: q in w.remote ==> !Below(q, acts[0].path)
  {
    var p := acts[0].path;
    PlanFacts(acts, w, bootstrap);
    ActionFacts(w, acts[0], bootstrap);
    VanishesIsDelete(w, p, bootstrap);
    if acts[0].kind == DELETE_LOCAL {
      forall q | q in w.local ensures !Below(q, p) {
        if Below(q, p) { NothingBelowTheFirstDelete(w, acts, bootstrap, q); }
      }
    }
    if acts[0].kind == DELETE_REMOTE {
      forall q | q in w.remote ensures !Below(q, p) {
        if Below(q, p) { NothingBelowTheFirstDelete(w, acts, bootstrap, q); }
      }
    }
  }

  lemma NothingBelowTheFirstDelete(w: World, acts: seq<Action>, bootstrap: bool, q: Path)
    requires Good(w) && PlanFor(acts, w, bootstrap) && acts != []
    requires acts[0].kind in {DELETE_LOCAL, DELETE_REMOTE} && Below(q, acts[0].path)
    requires if acts[0].kind == DELETE_LOCAL then q in w.local else q in w.remote
    ensures false
  {
    var p := acts[0].path;
    PlanFacts(acts, w, bootstrap);
    ActionFacts(w, acts[0], bootstrap);
    VanishesIsDelete(w, p, bootstrap);
    VanishesIsDelete(w, q, bootstrap);
    ClassifiedHere(w, bootstrap, q);
    BelowIsDeeper(q, p);
    FirstMayPrecede(acts);
    if !FolderAt(w, p) {
      FilesHoldNothing(w, q, p);
    }
  }

  /** Nothing lies below a path that is a file. */
  lemma {:induction false} FilesHoldNothing(w: World, q: Path, p: Path)
    requires LocalRooted(w) && RemoteRooted(w) && Below(q, p) && p != "" && !FolderAt(w, p)
    requires (p in w.local && q in w.local) || (p in w.remote && q in w.remote)
    ensures false
    decreases |q|
  {
    BelowThroughDirname(q, p);
    DirnameIsOneUp(q);
    assert q in w.local ==> HasLocalFolder(w, q);
    assert q in w.remote ==> HasRemoteFolder(w, q);
    if Dirname(q) != p {
      FilesHoldNothing(w, Dirname(q), p);
    }
  }

  lemma FirstIsEnabled(w: World, pass: Pass, env: Env, acts: seq<Action>, bootstrap: bool)
    requires Good(w) && FreshCopies(w, env, bootstrap) && PlanFor(acts, w, bootstrap) && acts != []
    requires Current(w, pass, acts)
    ensures Enabled(w, pass, env, acts[0], bootstrap)
  {
    var a := acts[0];
    Planned(acts, w, bootstrap, a);
    ActionFacts(w, a, bootstrap);
    DeletedFolderIsEmpty(w, acts, bootstrap);
    if a.kind in {CREATE_LOCAL_DIR, DOWNLOAD} {
      LocalParentExists(w, acts, bootstrap);
    } else if a.kind in {CREATE_REMOTE_DIR, UPLOAD} {
      RemoteParentResolves(w, pass, acts, bootstrap);
    } else if a.kind == CONFLICT {
      assert InConflict(w, a.path, bootstrap);
      CopyParentResolves(w, pass, env, acts, bootstrap);
    }
  }

  lemma RemoteParentResolves(w: World, pass: Pass, acts: seq<Action>, bootstrap: bool)
    requires Good(w) && PlanFor(acts, w, bootstrap) && acts != [] && Current(w, pass, acts)
    requires acts[0].kind in {CREATE_REMOTE_DIR, UPLOAD}
    ensures pass.Parent(acts[0].path).Some? && IsParentFolder(w, acts[0].path, pass.Parent(acts[0].path).value)
  {
    RemoteParentExists(w, acts, bootstrap);
    var d := Dirname(acts[0].path);
    assert d != "" ==> KnownId(pass, d) == Some(w.remote[d].entry.itemId);
  }

  lemma CopyParentResolves(w: World, pass: Pass, env: Env, acts: seq<Action>, bootstrap: bool)
    requires Good(w) && acts != [] && Current(w, pass, acts)
    requires acts[0].path in w.local && acts[0].path in w.remote
    requires Dirname(env.copyName(acts[0].path)) == Dirname(acts[0].path)
    ensures HasLocalFolder(w, acts[0].path)
    ensures var id := ResolveParent(env.copyName(acts[0].path), pass.snapshot, map[], ROOT_ID);
      id.Some? && IsParentFolder(w, env.copyName(acts[0].path), id.value)
  {
    var p := acts[0].path;
    assert HasLocalFolder(w, p) && HasRemoteFolder(w, p);
    assert Get(pass.snapshot, p) == w.R(p);
    assert Dirname(p) != "" ==> KnownId(pass, Dirname(p)) == Some(w.remote[Dirname(p)].entry.itemId);
  }

  // ---- the rest of the plan is the fresh plan ----

  lemma TailIsPlan(acts: seq<Action>, before: map<Path, Action>, after: map<Path, Action>, ps: set<Path>)
    requires ValidPlan(acts, before) && acts != [] && acts[0].path in ps
    requires forall p :: p in before ==> before[p].path == p
    requires forall p :: p in ps && p in before ==> p == acts[0].path
    requires forall p :: p in ps ==> p !in after
    requires forall p :: p !in ps ==> Get(after, p) == Get(before, p)
    ensures ValidPlan(acts[1..], after)
  {
    var rest := acts[1..];
    forall a | a in rest ensures a.path in after && after[a.path] == a {
      var i :| 0 <= i < |rest| && rest[i] == a;
      assert acts[i + 1] == a && a in acts;
      assert acts[0].path != acts[i + 1].path;
      assert Get(after, a.path) == Get(before, a.path);
    }
    forall p | p in after ensures after[p] in rest {
      assert Get(after, p) == Get(before, p);
      var a := before[p];
      var i :| 0 <= i < |acts| && acts[i] == a;
      assert rest[i - 1] == a;
    }
  }

  /** One action of a valid plan: it runs to the end, and the rest of the plan is a
      valid plan for the world it leaves, to be run with what the pass remembers. */
  lemma OneAction(w: World, pass: Pass, env: Env, acts: seq<Action>, bootstrap: bool)
    requires Good(w) && FreshCopies(w, env, bootstrap) && PlanFor(acts, w, bootstrap) && acts != []
    requires Current(w, pass, acts)
    ensures var (v, next) := Execute(w, pass, env, acts[0]);
      && v == After(w, env, acts[0], STEPS)
      && Good(v) && FreshCopies(v, env, bootstrap) && PlanFor(acts[1..], v, bootstrap)
      && Current(v, next, acts[1..])
  {
    var a := acts[0];
    FirstIsEnabled(w, pass, env, acts, bootstrap);
    WritesSucceed(w, pass, env, a, bootstrap, STEPS);
    GoodAfter(w, pass, env, a, bootstrap, STEPS);
    RestIsFreshPlan(w, pass, env, acts, bootstrap);
    CopiesStayFresh(w, pass, env, a, bootstrap);
    StaysCurrent(w, pass, env, acts, bootstrap);
  }

  lemma SameClassifiedOutside(w: World, v: World, ps: set<Path>, bootstrap: bool, p: Path)
    requires SameOutside(w, v, ps) && p !in ps
    ensures Get(v.Maps().Classified(bootstrap), p) == Get(w.Maps().Classified(bootstrap), p)
  {
    ClassifiedHere(w, bootstrap, p);
    ClassifiedHere(v, bootstrap, p);
    SameEntriesSameAction(w, v, ps, p, bootstrap);
  }

  lemma RestIsFreshPlan(w: World, pass: Pass, env: Env, acts: seq<Action>, bootstrap: bool)
    requires Good(w) && PlanFor(acts, w, bootstrap) && acts != []
    requires Enabled(w, pass, env, acts[0], bootstrap)
    ensures PlanFor(acts[1..], After(w, env, acts[0], STEPS), bootstrap)
  {
    var a := acts[0];
    var v := After(w, env, a, STEPS);
    var ps := Touched(env, a);
    ActionSettles(w, pass, env, a, bootstrap, bootstrap);
    TouchesOnlyItsPath(w, env, a, STEPS);
    var before, after := w.Maps().Classified(bootstrap), v.Maps().Classified(bootstrap);
    forall p ensures p in before ==> before[p].path == p {
      ClassifiedHere(w, bootstrap, p);
    }
    forall p ensures p !in ps ==> Get(after, p) == Get(before, p) {
      if p !in ps { SameClassifiedOutside(w, v, ps, bootstrap, p); }
    }
    forall p | p in ps ensures p !in after && (p in before ==> p == a.path) {
      ClassifiedHere(v, bootstrap, p);
      ClassifiedHere(w, bootstrap, p);
      UnknownIsUnclassified(w, p, bootstrap);
    }
    TailIsPlan(acts, before, after, ps);
  }

  lemma UnknownIsUnclassified(w: World, p: Path, bootstrap: bool)
    ensures p !in w.Known() ==> w.ActionAt(p, bootstrap) == None
  {
  }

  lemma ConflictsRemain(w: World, pass: Pass, env: Env, a: Action, bootstrap: bool, p: Path)
    requires KindsAgree(w) && Enabled(w, pass, env, a, bootstrap)
    requires InConflict(After(w, env, a, STEPS), p, bootstrap)
    ensures p !in Touched(env, a) && InConflict(w, p, bootstrap)
  {
    ActionSettles(w, pass, env, a, bootstrap, bootstrap);
    TouchesOnlyItsPath(w, env, a, STEPS);
    if p !in Touched(env, a) {
      SameEntriesSameAction(w, After(w, env, a, STEPS), Touched(env, a), p, bootstrap);
    }
  }

  lemma CopiesStayFresh(w: World, pass: Pass, env: Env, a: Action, bootstrap: bool)
    requires KindsAgree(w) && FreshCopies(w, env, bootstrap) && Enabled(w, pass, env, a, bootstrap)
    ensures FreshCopies(After(w, env, a, STEPS), env, bootstrap)
  {
    var v := After(w, env, a, STEPS);
    forall p | InConflict(v, p, bootstrap) ensures InConflict(w, p, bootstrap) {
      ConflictsRemain(w, pass, env, a, bootstrap, p);
    }
    forall p | InConflict(v, p, bootstrap)
      ensures env.copyName(p) !in v.Known() {
      ConflictsRemain(w, pass, env, a, bootstrap, p);
      TouchesOnlyItsPath(w, env, a, STEPS);
      OtherCopiesAreElsewhere(w, env, a, bootstrap, p);
      SameEntriesSameAction(w, v, Touched(env, a), env.copyName(p), bootstrap);
    }
  }

  lemma OtherCopiesAreElsewhere(w: World, env: Env, a: Action, bootstrap: bool, p: Path)
    requires FreshCopies(w, env, bootstrap) && w.ActionAt(a.path, bootstrap) == Some(a)
    requires InConflict(w, p, bootstrap) && p != a.path
    ensures env.copyName(p) !in Touched(env, a)
  {
    UnknownIsUnclassified(w, a.path, bootstrap);
    if a.kind == CONFLICT {
      assert InConflict(w, a.path, bootstrap);
    }
  }

  lemma StaysCurrent(w: World, pass: Pass, env: Env, acts: seq<Action>, bootstrap: bool)
    requires Good(w) && PlanFor(acts, w, bootstrap) && acts != [] && Current(w, pass, acts)
    requires Enabled(w, pass, env, acts[0], bootstrap)
    ensures var (v, next) := Execute(w, pass, env, acts[0]); Current(v, next, acts[1..])
  {
    var a := acts[0];
    WritesSucceed(w, pass, env, a, bootstrap, STEPS);
    var (v, next) := Execute(w, pass, env, a);
    forall b | b in acts[1..] ensures Get(next.snapshot, b.path) == v.R(b.path) {
      LaterEntriesUntouched(w, pass, env, acts, bootstrap, b);
    }
    FoldersStayKnown(w, pass, env, a, bootstrap);
    CreatedIsNew(w, pass, env, a, bootstrap);
  }

  lemma CreatedIsNew(w: World, pass: Pass, env: Env, a: Action, bootstrap: bool)
    requires KindsAgree(w) && Enabled(w, pass, env, a, bootstrap)
    ensures a.kind == CREATE_REMOTE_DIR ==> a.path !in pass.snapshot
  {
    ActionFacts(w, a, bootstrap);
    assert Get(pass.snapshot, a.path) == w.R(a.path);
  }

  /** A later action's path is neither the first one's nor its copy. */
  lemma LaterPathsAreElsewhere(
    w: World, pass: Pass, env: Env, acts: seq<Action>, bootstrap: bool, b: Action)
    requires PlanFor(acts, w, bootstrap) && acts != []
    requires Enabled(w, pass, env, acts[0], bootstrap) && b in acts[1..]
    ensures b in acts && b.path !in Touched(env, acts[0])
  {
    var i :| 0 <= i < |acts[1..]| && acts[1..][i] == b;
    assert b == acts[i + 1] && acts[0].path != acts[i + 1].path;
    Planned(acts, w, bootstrap, b);
  }

  lemma LaterEntriesUntouched(
    w: World, pass: Pass, env: Env, acts: seq<Action>, bootstrap: bool, b: Action)
    requires PlanFor(acts, w, bootstrap) && acts != [] && Current(w, pass, acts)
    requires Enabled(w, pass, env, acts[0], bootstrap) && b in acts[1..]
    ensures Get(pass.snapshot, b.path) == After(w, env, acts[0], STEPS).R(b.path)
  {
    LaterPathsAreElsewhere(w, pass, env, acts, bootstrap, b);
    TouchesOnlyItsPath(w, env, acts[0], STEPS);
    SameEntriesSameAction(w, After(w, env, acts[0], STEPS), Touched(env, acts[0]), b.path, bootstrap);
  }

  lemma FoldersStayKnown(w: World, pass: Pass, env: Env, a: Action, bootstrap: bool)
    requires KindsAgree(w) && Enabled(w, pass, env, a, bootstrap)
    requires forall q :: q in w.remote && w.remote[q].entry.isFolder ==>
      KnownId(pass, q) == Some(w.remote[q].entry.itemId)
    ensures var v := After(w, env, a, STEPS);
      var next := if a.kind == CREATE_REMOTE_DIR then pass.(created := pass.created[a.path := env.newId(a.path)]) else pass;
      forall q :: q in v.remote && v.remote[q].entry.isFolder ==> KnownId(next, q) == Some(v.remote[q].entry.itemId)
  {
    ActionFacts(w, a, bootstrap);
  }

  // ---- pause and resume ----

  /** Stopping after any `k` actions: every one of them ran to the end, and a fresh
      diff of the world they leave plans exactly the remaining actions. */
  lemma {:induction false} ResumeIsExact(w: World, env: Env, acts: seq<Action>, bootstrap: bool, k: nat)
    requires Good(w) && FreshCopies(w, env, bootstrap) && PlanFor(acts, w, bootstrap) && k <= |acts|
    ensures var (v, pass) := Run(w, StartPass(w), env, acts, k);
      Good(v) && FreshCopies(v, env, bootstrap) && PlanFor(acts[k..], v, bootstrap) && Current(v, pass, acts[k..])
  {
    if k == 0 {
      StartsCurrent(w, acts);
      assert acts[0..] == acts;
    } else {
      ResumeIsExact(w, env, acts, bootstrap, k - 1);
      var (v, pass) := Run(w, StartPass(w), env, acts, k - 1);
      OneAction(v, pass, env, acts[k - 1..], bootstrap);
      assert acts[k - 1..][1..] == acts[k..];
    }
  }

  /** The `k`-th action of a pass, in isolation: enabled where it starts, and every one
      of its writes goes through. */
  lemma NthRuns(w: World, env: Env, acts: seq<Action>, bootstrap: bool, k: nat)
    requires Good(w) && FreshCopies(w, env, bootstrap) && PlanFor(acts, w, bootstrap) && k < |acts|
    ensures var (v, pass) := Run(w, StartPass(w), env, acts, k);
      && Good(v) && Enabled(v, pass, env, acts[k], bootstrap)
      && Writes(v, pass, env, acts[k], STEPS) == Done(After(v, env, acts[k], STEPS))
  {
    ResumeIsExact(w, env, acts, bootstrap, k);
    var (v, pass) := Run(w, StartPass(w), env, acts, k);
    FirstIsEnabled(v, pass, env, acts[k..], bootstrap);
    WritesSucceed(v, pass, env, acts[k], bootstrap, STEPS);
  }

  /** The same, with the worlds by name. */
  lemma NthAction(w: World, env: Env, acts: seq<Action>, bootstrap: bool, k: nat)
    returns (v: World, pass: Pass, x: World)
    requires Good(w) && FreshCopies(w, env, bootstrap) && PlanFor(acts, w, bootstrap) && k < |acts|
    ensures v == Run(w, StartPass(w), env, acts, k).0 && x == Run(w, StartPass(w), env, acts, k + 1).0
    ensures Good(v) && Enabled(v, pass, env, acts[k], bootstrap)
    ensures x == After(v, env, acts[k], STEPS)
  {
    NthRuns(w, env, acts, bootstrap, k);
    v, pass := Run(w, StartPass(w), env, acts, k).0, Run(w, StartPass(w), env, acts, k).1;
    x := After(v, env, acts[k], STEPS);
  }

  lemma PlannedPathsAreKnown(w: World, env: Env, acts: seq<Action>, bootstrap: bool, a: Action)
    requires FreshCopies(w, env, bootstrap) && PlanFor(acts, w, bootstrap) && a in acts
    ensures a.path in w.Known()
    ensures a.kind == CONFLICT ==> env.copyName(a.path) !in w.Known()
  {
    Planned(acts, w, bootstrap, a);
    assert a.kind == CONFLICT ==> InConflict(w, a.path, bootstrap);
  }
}
