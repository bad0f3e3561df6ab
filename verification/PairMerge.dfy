/** A completed pass is a three-way merge. */
module PairMerge {
  import opened Basics
  import opened Paths
  import opened Reconcile
  import opened PairWorld
  import opened PairSafety
  import opened PairEffect
  import opened PairInvariant
  import opened PairPass

  /** What a user sees at a path. */
  datatype Node = Folder | File(content: Content)

  function LocalView(w: World, p: Path): Option<Node> {
    if p !in w.local then None
    else if w.local[p].entry.isFolder then Some(Folder)
    else Some(File(w.local[p].content))
  }

  function RemoteView(w: World, p: Path): Option<Node> {
    if p !in w.remote then None
    else if w.remote[p].entry.isFolder then Some(Folder)
    else Some(File(w.remote[p].content))
  }

  /** The three-way merge, path by path: a remote edit wins the path, else a local
      edit, else a deletion, else nothing changes. Folders have no content: a
      folder with a baseline stays only if both sides still have it. */
  function Merged(w: World, p: Path): Option<Node> {
    if FolderAt(w, p) then
      if p in w.synced then (if p in w.local && p in w.remote then Some(Folder) else None)
      else Some(Folder)
    else if p in w.remote && !RemoteUnchanged(w, p) then RemoteView(w, p)
    else if p in w.local && !LocalUnchanged(w, p) then LocalView(w, p)
    else if p in w.local && p in w.remote then LocalView(w, p)
    else None
  }

  /** Two files that both still match one baseline have the same bytes: a content
      change always changes mtime or size locally, and the etag remotely. */
  ghost predicate BaselinesHonest(w: World) {
    forall p :: LocalUnchanged(w, p) && RemoteUnchanged(w, p) ==> LocalView(w, p) == RemoteView(w, p)
  }

  /** With nothing left to do, both trees are the merge. */
  lemma SettledIsMerged(w: World, p: Path)
    requires KindsAgree(w) && BaselinesHonest(w) && w.ActionAt(p, false) == None
    ensures LocalView(w, p) == Merged(w, p) && RemoteView(w, p) == Merged(w, p)
    ensures p !in w.local && p !in w.remote ==> p !in w.synced
  {
  }

  lemma MergedAtPath(w: World, pass: Pass, env: Env, a: Action, n: nat)
    requires KindsAgree(w) && BaselinesHonest(w) && Enabled(w, pass, env, a, false)
    ensures Merged(After(w, env, a, STEPS), a.path) == Merged(w, a.path)
  {
    if a.kind == CONFLICT {
      MergedAtConflict(w, pass, env, a);
    } else {
      ActionFacts(w, a, false);
    }
  }

  lemma MergedAtConflict(w: World, pass: Pass, env: Env, a: Action)
    requires KindsAgree(w) && Enabled(w, pass, env, a, false) && a.kind == CONFLICT
    ensures Merged(After(w, env, a, STEPS), a.path) == Merged(w, a.path)
  {
    ActionFacts(w, a, false);
    OriginalStages(w, env, a, STEPS);
  }

  lemma MergedAtCopy(w: World, pass: Pass, env: Env, a: Action)
    requires KindsAgree(w) && Enabled(w, pass, env, a, false) && a.kind == CONFLICT
    ensures a.path in w.local
    ensures Merged(After(w, env, a, STEPS), env.copyName(a.path)) == Some(File(w.local[a.path].content))
  {
    ActionFacts(w, a, false);
    CopyStages(w, env, a, STEPS);
  }

  lemma MergedElsewhere(w: World, v: World, ps: set<Path>, q: Path)
    requires SameOutside(w, v, ps) && q !in ps
    ensures Merged(v, q) == Merged(w, q)
    ensures LocalView(v, q) == LocalView(w, q) && RemoteView(v, q) == RemoteView(w, q)
    ensures LocalUnchanged(v, q) == LocalUnchanged(w, q) && RemoteUnchanged(v, q) == RemoteUnchanged(w, q)
    ensures SameAt(w, v, q)
  {
    assert Get(v.local, q) == Get(w.local, q);
    assert Get(v.remote, q) == Get(w.remote, q);
    assert Get(v.synced, q) == Get(w.synced, q);
  }

  lemma BaselinesStayHonest(w: World, pass: Pass, env: Env, a: Action, bootstrap: bool)
    requires KindsAgree(w) && BaselinesHonest(w) && Enabled(w, pass, env, a, bootstrap)
    ensures BaselinesHonest(After(w, env, a, STEPS))
  {
    var v := After(w, env, a, STEPS);
    TouchesOnlyItsPath(w, env, a, STEPS);
    forall q | LocalUnchanged(v, q) && RemoteUnchanged(v, q) ensures LocalView(v, q) == RemoteView(v, q) {
      if q in Touched(env, a) {
        HonestAtTouched(w, pass, env, a, bootstrap, q);
      } else {
        MergedElsewhere(w, v, Touched(env, a), q);
      }
    }
  }

  lemma HonestAtTouched(w: World, pass: Pass, env: Env, a: Action, bootstrap: bool, q: Path)
    requires KindsAgree(w) && Enabled(w, pass, env, a, bootstrap) && q in Touched(env, a)
    ensures var v := After(w, env, a, STEPS);
      q in v.local && q in v.remote ==> LocalView(v, q) == RemoteView(v, q)
  {
    ActionFacts(w, a, bootstrap);
    if a.kind == CONFLICT {
      CopyStages(w, env, a, STEPS);
      OriginalStages(w, env, a, STEPS);
    }
  }

  // ---- the whole pass ----

  ghost predicate SameAt(w: World, v: World, p: Path) {
    Get(v.local, p) == Get(w.local, p) && Get(v.remote, p) == Get(w.remote, p) && Get(v.synced, p) == Get(w.synced, p)
  }

  ghost predicate MergeUnchanged(w: World, v: World) {
    forall p :: p in w.Known() ==> Merged(v, p) == Merged(w, p)
  }

  /** The local edit of a conflict is what both sides will hold under the copy's name. */
  ghost predicate CopyKeeps(w: World, v: World, env: Env, a: Action) {
    a.path in w.local && Merged(v, env.copyName(a.path)) == Some(File(w.local[a.path].content))
  }

  ghost predicate CopiesKeep(w: World, v: World, env: Env, done: seq<Action>) {
    forall a :: a in done && a.kind == CONFLICT ==> CopyKeeps(w, v, env, a)
  }

  ghost predicate Untouched(w: World, v: World, rest: seq<Action>) {
    forall a :: a in rest ==> SameAt(w, v, a.path)
  }

  ghost predicate NothingElse(w: World, v: World, env: Env, done: seq<Action>) {
    forall p :: p in v.Known() && p !in w.Known() ==>
      exists a :: a in done && a.kind == CONFLICT && env.copyName(a.path) == p
  }

  /** The plan's paths and copies are all different. */
  ghost predicate Apart(w: World, env: Env, acts: seq<Action>) {
    && OnePerPath(acts)
    && (forall a :: a in acts ==> a.path in w.Known())
    && (forall a :: a in acts && a.kind == CONFLICT ==> env.copyName(a.path) !in w.Known())
    && (forall a, b :: a in acts && b in acts && a.kind == CONFLICT && b.kind == CONFLICT && a != b ==>
          env.copyName(a.path) != env.copyName(b.path))
  }

  lemma PlanIsApart(w: World, env: Env, acts: seq<Action>)
    requires FreshCopies(w, env, false) && PlanFor(acts, w, false)
    ensures Apart(w, env, acts)
  {
    PlanFacts(acts, w, false);
    forall a | a in acts
      ensures a.path in w.Known() && (a.kind == CONFLICT ==> InConflict(w, a.path, false)) {
      UnknownIsUnclassified(w, a.path, false);
    }
  }

  lemma MergeUnchangedOneMore(w: World, v: World, pass: Pass, env: Env, a: Action)
    requires MergeUnchanged(w, v) && KindsAgree(v) && BaselinesHonest(v) && Enabled(v, pass, env, a, false)
    requires a.kind == CONFLICT ==> env.copyName(a.path) !in w.Known()
    ensures MergeUnchanged(w, After(v, env, a, STEPS))
  {
    var x := After(v, env, a, STEPS);
    TouchesOnlyItsPath(v, env, a, STEPS);
    forall p | p in w.Known() ensures Merged(x, p) == Merged(w, p) {
      if p == a.path { MergedAtPath(v, pass, env, a, STEPS); }
      else { MergedElsewhere(v, x, Touched(env, a), p); }
    }
  }

  lemma CopiesKeepOneMore(w: World, v: World, pass: Pass, env: Env, done: seq<Action>, a: Action)
    requires CopiesKeep(w, v, env, done) && KindsAgree(v) && Enabled(v, pass, env, a, false)
    requires SameAt(w, v, a.path) && Apart(w, env, done + [a]) && a !in done
    ensures CopiesKeep(w, After(v, env, a, STEPS), env, done + [a])
  {
    var x := After(v, env, a, STEPS);
    TouchesOnlyItsPath(v, env, a, STEPS);
    assert a in done + [a];
    forall b | b in done + [a] && b.kind == CONFLICT ensures CopyKeeps(w, x, env, b) {
      if b == a {
        MergedAtCopy(v, pass, env, a);
        assert Get(v.local, a.path) == Get(w.local, a.path);
      } else {
        assert CopyKeeps(w, v, env, b);
        MergedElsewhere(v, x, Touched(env, a), env.copyName(b.path));
      }
    }
  }

  lemma UntouchedOneMore(w: World, v: World, env: Env, rest: seq<Action>)
    requires rest != [] && Untouched(w, v, rest) && OnePerPath(rest)
    requires forall a :: a in rest ==> a.path in w.Known()
    requires rest[0].kind == CONFLICT ==> env.copyName(rest[0].path) !in w.Known()
    ensures Untouched(w, After(v, env, rest[0], STEPS), rest[1..])
  {
    TouchesOnlyItsPath(v, env, rest[0], STEPS);
    forall b | b in rest[1..] ensures SameAt(w, After(v, env, rest[0], STEPS), b.path) {
      var i :| 0 <= i < |rest[1..]| && rest[1..][i] == b;
      assert b == rest[i + 1] && rest[0].path != rest[i + 1].path;
      assert SameAt(w, v, b.path);
      MergedElsewhere(v, After(v, env, rest[0], STEPS), Touched(env, rest[0]), b.path);
    }
  }

  lemma NothingElseOneMore(w: World, v: World, env: Env, done: seq<Action>, a: Action)
    requires NothingElse(w, v, env, done) && a.path in w.Known()
    ensures NothingElse(w, After(v, env, a, STEPS), env, done + [a])
  {
    var x := After(v, env, a, STEPS);
    TouchesOnlyItsPath(v, env, a, STEPS);
    forall p | p in x.Known() && p !in w.Known()
      ensures exists b :: b in done + [a] && b.kind == CONFLICT && env.copyName(b.path) == p {
      if p in Touched(env, a) {
        assert a in done + [a];
      } else {
        MergedElsewhere(v, x, Touched(env, a), p);
        assert p in v.Known() by { SameKnown(v, x, p); }
        var b :| b in done && b.kind == CONFLICT && env.copyName(b.path) == p;
        assert b in done + [a];
      }
    }
  }

  lemma SameKnown(w: World, v: World, p: Path)
    requires SameAt(w, v, p)
    ensures p in v.Known() <==> p in w.Known()
  {
  }

  ghost predicate MergeHolds(w: World, v: World, env: Env, done: seq<Action>, rest: seq<Action>) {
    && MergeUnchanged(w, v)
    && CopiesKeep(w, v, env, done)
    && Untouched(w, v, rest)
    && NothingElse(w, v, env, done)
  }

  lemma ApartPrefix(w: World, env: Env, acts: seq<Action>, k: nat)
    requires Apart(w, env, acts) && k < |acts|
    ensures Apart(w, env, acts[..k] + [acts[k]]) && acts[k] !in acts[..k]
    ensures OnePerPath(acts[k..]) && forall a :: a in acts[k..] ==> a in acts
  {
    assert acts[..k] + [acts[k]] == acts[..k + 1];
    assert forall a :: a in acts[..k + 1] ==> a in acts;
  }

  ghost predicate MergesAt(w: World, env: Env, acts: seq<Action>, k: nat)
    requires k <= |acts|
  {
    var v := Run(w, StartPass(w), env, acts, k).0;
    BaselinesHonest(v) && MergeHolds(w, v, env, acts[..k], acts[k..])
  }

  lemma {:induction false} MergesThroughout(w: World, env: Env, acts: seq<Action>, k: nat)
    requires k <= |acts| && MergesAt(w, env, acts, 0)
    requires forall m :: 0 <= m < |acts| && MergesAt(w, env, acts, m) ==> MergesAt(w, env, acts, m + 1)
    ensures MergesAt(w, env, acts, k)
  {
    if k > 0 { MergesThroughout(w, env, acts, k - 1); }
  }

  lemma MergeAlongThePass(w: World, env: Env, acts: seq<Action>, k: nat)
    requires Good(w) && BaselinesHonest(w) && FreshCopies(w, env, false) && PlanFor(acts, w, false) && k <= |acts|
    requires Apart(w, env, acts)
    ensures var v := Run(w, StartPass(w), env, acts, k).0;
      BaselinesHonest(v) && MergeHolds(w, v, env, acts[..k], acts[k..])
  {
    forall m | 0 <= m < |acts| && MergesAt(w, env, acts, m) ensures MergesAt(w, env, acts, m + 1) {
      MergeNext(w, env, acts, m);
    }
    MergesThroughout(w, env, acts, k);
  }

  lemma MergeNext(w: World, env: Env, acts: seq<Action>, k: nat)
    requires Good(w) && FreshCopies(w, env, false) && PlanFor(acts, w, false) && k < |acts|
    requires Apart(w, env, acts)
    requires var v := Run(w, StartPass(w), env, acts, k).0;
      BaselinesHonest(v) && MergeHolds(w, v, env, acts[..k], acts[k..])
    ensures var x := Run(w, StartPass(w), env, acts, k + 1).0;
      BaselinesHonest(x) && MergeHolds(w, x, env, acts[..k + 1], acts[k + 1..])
  {
    var v, pass, x := NthAction(w, env, acts, false, k);
    ApartPrefix(w, env, acts, k);
    MergeOneMore(w, v, pass, env, acts, k);
  }

  lemma MergeOneMore(w: World, v: World, pass: Pass, env: Env, acts: seq<Action>, k: nat)
    requires k < |acts| && Apart(w, env, acts) && MergeHolds(w, v, env, acts[..k], acts[k..])
    requires KindsAgree(v) && BaselinesHonest(v) && Enabled(v, pass, env, acts[k], false)
    requires Apart(w, env, acts[..k] + [acts[k]]) && acts[k] !in acts[..k]
    requires OnePerPath(acts[k..]) && forall a :: a in acts[k..] ==> a in acts
    ensures var x := After(v, env, acts[k], STEPS);
      BaselinesHonest(x) && MergeHolds(w, x, env, acts[..k + 1], acts[k + 1..])
  {
    var rest := acts[k..];
    var a := acts[k];
    assert rest[0] == a && rest[1..] == acts[k + 1..] && acts[..k + 1] == acts[..k] + [a];
    assert SameAt(w, v, a.path) && a in acts;
    MergeUnchangedOneMore(w, v, pass, env, a);
    CopiesKeepOneMore(w, v, pass, env, acts[..k], a);
    UntouchedOneMore(w, v, env, rest);
    NothingElseOneMore(w, v, env, acts[..k], a);
    BaselinesStayHonest(v, pass, env, a, false);
  }

  /** Both trees hold the three-way merge of `w` at every path that existed
      anywhere, each conflict's local edit is its copy on both sides, and nothing
      else exists. */
  ghost predicate ThreeWayMerged(w: World, v: World, env: Env, acts: seq<Action>) {
    && (forall p :: p in w.Known() ==> LocalView(v, p) == Merged(w, p) && RemoteView(v, p) == Merged(w, p))
    && (forall a :: a in acts && a.kind == CONFLICT ==> CopyOnBothSides(w, v, env, a))
    && NothingElse(w, v, env, acts)
  }

  ghost predicate CopyOnBothSides(w: World, v: World, env: Env, a: Action) {
    && a.path in w.local
    && LocalView(v, env.copyName(a.path)) == Some(File(w.local[a.path].content))
    && RemoteView(v, env.copyName(a.path)) == Some(File(w.local[a.path].content))
  }

  /** One completed pass is a three-way merge and leaves nothing to do. The plan may
      be any the sort allows, so set and tie order do not matter. */
  lemma PassIsThreeWayMerge(w: World, env: Env, acts: seq<Action>)
    requires Good(w) && BaselinesHonest(w) && FreshCopies(w, env, false) && PlanFor(acts, w, false)
    ensures var v := Run(w, StartPass(w), env, acts, |acts|).0;
      ThreeWayMerged(w, v, env, acts) && PlanFor([], v, false) && Good(v) && BaselinesHonest(v)
  {
    var n := |acts|;
    PlanIsApart(w, env, acts);
    MergeAlongThePass(w, env, acts, n);
    ResumeIsExact(w, env, acts, false, n);
    assert acts[n..] == [] && acts[..n] == acts;
    SettledMeansMerged(w, Run(w, StartPass(w), env, acts, n).0, env, acts);
  }

  lemma SettledMeansMerged(w: World, v: World, env: Env, acts: seq<Action>)
    requires MergeHolds(w, v, env, acts, [])
    requires KindsAgree(v) && BaselinesHonest(v) && PlanFor([], v, false)
    ensures ThreeWayMerged(w, v, env, acts)
  {
    forall p ensures LocalView(v, p) == Merged(v, p) && RemoteView(v, p) == Merged(v, p) {
      NothingPlanned(v, p);
      SettledIsMerged(v, p);
    }
    forall a | a in acts && a.kind == CONFLICT ensures CopyOnBothSides(w, v, env, a) {
      assert CopyKeeps(w, v, env, a);
    }
  }

  lemma NothingPlanned(w: World, p: Path)
    requires PlanFor([], w, false)
    ensures w.ActionAt(p, false) == None
  {
    PlanFacts([], w, false);
  }
}
