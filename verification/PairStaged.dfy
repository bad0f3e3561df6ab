/** What a pass leaves when any of its actions may fail part-way: every path is at some
    stage of its own action. */
module PairStaged {
  import opened Basics
  import opened Paths
  import opened Reconcile
  import opened PairWorld
  import opened PairSafety
  import opened PairEffect
  import opened PairMerge
  import opened PairFrame
  import opened PairConverge
  import opened PairFault

  /** The paths of `a` are as after `n` of its writes. */
  ghost predicate StagedAs(w: World, env: Env, a: Action, v: World, n: nat) {
    forall x :: x in Touched(env, a) ==> SameAt(After(w, env, a, n), v, x)
  }

  ghost predicate SomeStage(w: World, env: Env, a: Action, v: World) {
    exists n: nat :: StagedAs(w, env, a, v, n)
  }

  /** Not run yet; a folder on the way to something may be there already. */
  ghost predicate Unrun(w: World, env: Env, a: Action, v: World) {
    StagedAs(w, env, a, v, 0) || (a.kind in {CREATE_LOCAL_DIR, DELETE_REMOTE} && StagedAs(w, env, a, v, 1))
  }

  // ---- an action's own paths ----

  /** What the pass starts from and remembers. */
  ghost predicate Known(w: World, pass: Pass, env: Env, a: Action, bootstrap: bool) {
    && KindsAgree(w) && RemoteRooted(w) && LocalRooted(w) && Chosen(w, env, a, bootstrap)
    && pass.snapshot == w.RemoteMap()
  }

  lemma CreateRemoteAdvances(w: World, v: World, pass: Pass, env: Env, a: Action, bootstrap: bool, n: nat)
    requires Known(w, pass, env, a, bootstrap) && a.kind == CREATE_REMOTE_DIR && n >= 1 && StagedAs(w, env, a, v, n - 1)
    requires Write(v, pass, env, a, n).Done?
    ensures StagedAs(w, env, a, Write(v, pass, env, a, n).w, n)
  {
    ActionFacts(w, a, bootstrap);
    assert SameAt(After(w, env, a, n - 1), v, a.path);
  }

  lemma CreateLocalAdvances(w: World, v: World, pass: Pass, env: Env, a: Action, bootstrap: bool, n: nat)
    requires Known(w, pass, env, a, bootstrap) && a.kind == CREATE_LOCAL_DIR && n >= 1
    requires StagedAs(w, env, a, v, n - 1) || (n == 1 && StagedAs(w, env, a, v, 1))
    requires Write(v, pass, env, a, n).Done?
    ensures StagedAs(w, env, a, Write(v, pass, env, a, n).w, n)
  {
    ActionFacts(w, a, bootstrap);
    var p := a.path;
    if StagedAs(w, env, a, v, n - 1) { assert SameAt(After(w, env, a, n - 1), v, p); }
    else { assert SameAt(After(w, env, a, 1), v, p); }
    MadeFolder(v.local, p);
  }

  lemma MadeFolder(m: map<Path, LocalNode>, d: Path)
    requires d != ""
    ensures MakeDirs(m, d).Some? ==>
      d in MakeDirs(m, d).value && MakeDirs(m, d).value[d] == (if d in m then m[d] else LOCAL_DIR)
  {
  }

  lemma UploadAdvances(w: World, v: World, pass: Pass, env: Env, a: Action, bootstrap: bool, n: nat)
    requires Known(w, pass, env, a, bootstrap) && a.kind == UPLOAD && n >= 1 && StagedAs(w, env, a, v, n - 1)
    requires Write(v, pass, env, a, n).Done?
    ensures StagedAs(w, env, a, Write(v, pass, env, a, n).w, n)
  {
    ActionFacts(w, a, bootstrap);
    assert SameAt(After(w, env, a, n - 1), v, a.path);
  }

  /** Making the folder of `p` changes nothing at `p` or beside it. */
  lemma MkdirAbove(v: World, p: Path, q: Path)
    requires p != "" && Dirname(p) == Dirname(q) && q != ""
    ensures Get(MakeLocalFolder(v, Dirname(p)).w.local, q) == Get(v.local, q)
  {
    var d := Dirname(p);
    if d == "" {
      assert MakeDirs(v.local, d) == Some(v.local);
    } else {
      DirnameIsOneUp(q);
      MakeDirsKeeps(v.local, d);
      assert q == d || Below(d, q) ==> |q| <= |d|;
    }
  }

  lemma DownloadAdvances(w: World, v: World, pass: Pass, env: Env, a: Action, bootstrap: bool, n: nat)
    requires Known(w, pass, env, a, bootstrap) && a.kind == DOWNLOAD && n >= 1 && StagedAs(w, env, a, v, n - 1)
    requires Write(v, pass, env, a, n).Done?
    ensures StagedAs(w, env, a, Write(v, pass, env, a, n).w, n)
  {
    ActionFacts(w, a, bootstrap);
    MkdirAbove(v, a.path, a.path);
    DownloadAdvancesAt(w, v, pass, env, a, n);
  }

  lemma DownloadAdvancesAt(w: World, v: World, pass: Pass, env: Env, a: Action, n: nat)
    requires a.kind == DOWNLOAD && n >= 1 && a.path in w.remote && pass.snapshot == w.RemoteMap()
    requires SameAt(After(w, env, a, n - 1), v, a.path)
    requires Get(MakeLocalFolder(v, Dirname(a.path)).w.local, a.path) == Get(v.local, a.path)
    requires Write(v, pass, env, a, n).Done?
    ensures SameAt(After(w, env, a, n), Write(v, pass, env, a, n).w, a.path)
  {
  }

  lemma DeleteAdvances(w: World, v: World, pass: Pass, env: Env, a: Action, bootstrap: bool, n: nat)
    requires Known(w, pass, env, a, bootstrap) && IsDelete(a) && n >= 1 && StagedAs(w, env, a, v, n - 1)
    requires Write(v, pass, env, a, n).Done?
    ensures StagedAs(w, env, a, Write(v, pass, env, a, n).w, n)
  {
    ActionFacts(w, a, bootstrap);
    assert SameAt(After(w, env, a, n - 1), v, a.path);
  }

  lemma CopyBeside(w: World, pass: Pass, env: Env, a: Action, bootstrap: bool)
    requires Known(w, pass, env, a, bootstrap) && a.kind == CONFLICT
    ensures CopyTarget(pass, env.copyName(a.path)) == env.copyName(a.path) && env.copyName(a.path) != a.path
  {
    ActionFacts(w, a, bootstrap);
    assert HasRemoteFolder(w, a.path);
  }

  lemma ConflictAdvances(w: World, v: World, pass: Pass, env: Env, a: Action, bootstrap: bool, n: nat)
    requires Known(w, pass, env, a, bootstrap) && a.kind == CONFLICT && n >= 1 && StagedAs(w, env, a, v, n - 1)
    requires Write(v, pass, env, a, n).Done?
    ensures StagedAs(w, env, a, Write(v, pass, env, a, n).w, n)
  {
    var p, copy := a.path, env.copyName(a.path);
    ActionFacts(w, a, bootstrap);
    CopyBeside(w, pass, env, a, bootstrap);
    assert SameAt(After(w, env, a, n - 1), v, p) && SameAt(After(w, env, a, n - 1), v, copy);
    MkdirAbove(v, p, p);
    MkdirAbove(v, p, copy);
    OriginalAdvances(w, v, pass, env, a, n);
    CopyAdvances(w, v, pass, env, a, n);
  }

  lemma OriginalAdvances(w: World, v: World, pass: Pass, env: Env, a: Action, n: nat)
    requires a.kind == CONFLICT && n >= 1 && a.path in w.local && a.path in w.remote && env.copyName(a.path) !in w.Known()
    requires CopyTarget(pass, env.copyName(a.path)) == env.copyName(a.path) && env.copyName(a.path) != a.path
    requires pass.snapshot == w.RemoteMap() && ConflictWrite(v, pass, env, a.path, n).Done?
    requires SameAt(After(w, env, a, n - 1), v, a.path) && SameAt(After(w, env, a, n - 1), v, env.copyName(a.path))
    requires Get(MakeLocalFolder(v, Dirname(a.path)).w.local, a.path) == Get(v.local, a.path)
    ensures SameAt(After(w, env, a, n), ConflictWrite(v, pass, env, a.path, n).w, a.path)
  {
    OriginalStages(w, env, a, n - 1);
    OriginalStages(w, env, a, n);
    assert Get(v.remote, a.path) == Some(w.remote[a.path]);
    if 2 <= n <= 4 { OriginalWaits(v, pass, env, a.path, n); }
  }

  lemma OriginalWaits(v: World, pass: Pass, env: Env, p: Path, n: nat)
    requires CopyTarget(pass, env.copyName(p)) == env.copyName(p) && env.copyName(p) != p && 2 <= n <= 4
    requires Get(MakeLocalFolder(v, Dirname(p)).w.local, p) == Get(v.local, p)
    ensures SameAt(v, ConflictWrite(v, pass, env, p, n).w, p)
  {
  }

  lemma CopyAdvances(w: World, v: World, pass: Pass, env: Env, a: Action, n: nat)
    requires a.kind == CONFLICT && n >= 1 && a.path in w.local && a.path in w.remote && env.copyName(a.path) !in w.Known()
    requires CopyTarget(pass, env.copyName(a.path)) == env.copyName(a.path) && env.copyName(a.path) != a.path
    requires pass.snapshot == w.RemoteMap() && ConflictWrite(v, pass, env, a.path, n).Done?
    requires SameAt(After(w, env, a, n - 1), v, a.path) && SameAt(After(w, env, a, n - 1), v, env.copyName(a.path))
    requires Get(MakeLocalFolder(v, Dirname(a.path)).w.local, env.copyName(a.path)) == Get(v.local, env.copyName(a.path))
    ensures SameAt(After(w, env, a, n), ConflictWrite(v, pass, env, a.path, n).w, env.copyName(a.path))
  {
    var p, copy := a.path, env.copyName(a.path);
    CopyStages(w, env, a, n - 1);
    CopyStages(w, env, a, n);
    if n >= 2 {
      assert Get(v.local, copy) == Some(w.local[p]);
      if n >= 4 { CopyLater(v, pass, env, p, n); }
    } else {
      assert Get(v.local, p) == Some(w.local[p]);
    }
  }

  lemma CopyLater(v: World, pass: Pass, env: Env, p: Path, n: nat)
    requires env.copyName(p) != p && n >= 4
    requires Get(MakeLocalFolder(v, Dirname(p)).w.local, env.copyName(p)) == Get(v.local, env.copyName(p))
    ensures SameAt(v, ConflictWrite(v, pass, env, p, n).w, env.copyName(p))
  {
  }

  lemma Advances(w: World, v: World, pass: Pass, env: Env, a: Action, bootstrap: bool, n: nat)
    requires Known(w, pass, env, a, bootstrap) && n >= 1
    requires StagedAs(w, env, a, v, n - 1) || (n == 1 && Unrun(w, env, a, v))
    requires Write(v, pass, env, a, n).Done?
    ensures StagedAs(w, env, a, Write(v, pass, env, a, n).w, n)
  {
    if !StagedAs(w, env, a, v, n - 1) { SweptCannotGo(w, v, pass, env, a, bootstrap); }
    match a.kind
    case CREATE_REMOTE_DIR => CreateRemoteAdvances(w, v, pass, env, a, bootstrap, n);
    case CREATE_LOCAL_DIR => CreateLocalAdvances(w, v, pass, env, a, bootstrap, n);
    case UPLOAD => UploadAdvances(w, v, pass, env, a, bootstrap, n);
    case DOWNLOAD => DownloadAdvances(w, v, pass, env, a, bootstrap, n);
    case CONFLICT => ConflictAdvances(w, v, pass, env, a, bootstrap, n);
    case _ => DeleteAdvances(w, v, pass, env, a, bootstrap, n);
  }

  /** What an earlier folder delete took along cannot be deleted again. */
  lemma SweptCannotGo(w: World, v: World, pass: Pass, env: Env, a: Action, bootstrap: bool)
    requires Known(w, pass, env, a, bootstrap) && StagedAs(w, env, a, v, 1)
    ensures a.kind == DELETE_REMOTE ==> Write(v, pass, env, a, 1).Stopped?
  {
    assert SameAt(After(w, env, a, 1), v, a.path);
  }

  lemma StopChangesNothing(v: World, pass: Pass, env: Env, a: Action, n: nat)
    ensures Write(v, pass, env, a, n).Stopped? ==> Write(v, pass, env, a, n).w == v
  {
    if a.kind == CONFLICT {
      StoppedConflict(v, pass, env, a.path, n);
    } else if a.kind in {UPLOAD, DOWNLOAD} {
      StoppedTransfer(v, pass, env, a, n);
    }
  }

  lemma StoppedConflict(v: World, pass: Pass, env: Env, p: Path, n: nat)
    ensures ConflictWrite(v, pass, env, p, n).Stopped? ==> ConflictWrite(v, pass, env, p, n).w == v
  {
  }

  lemma StoppedTransfer(v: World, pass: Pass, env: Env, a: Action, n: nat)
    ensures UploadWrite(v, pass, env, a, n).Stopped? ==> UploadWrite(v, pass, env, a, n).w == v
    ensures DownloadWrite(v, pass, env, a, n).Stopped? ==> DownloadWrite(v, pass, env, a, n).w == v
  {
  }

  /** However far an action gets, its own paths are at one of its stages. */
  lemma {:induction false} OwnEffect(w: World, v: World, pass: Pass, env: Env, a: Action, bootstrap: bool, n: nat)
    requires Known(w, pass, env, a, bootstrap) && Unrun(w, env, a, v)
    ensures var o := Writes(v, pass, env, a, n);
      SomeStage(w, env, a, o.w) && (o.Done? ==> if n == 0 then o.w == v else StagedAs(w, env, a, o.w, n))
  {
    if n > 0 {
      OwnEffect(w, v, pass, env, a, bootstrap, n - 1);
      var o := Writes(v, pass, env, a, n - 1);
      if o.Done? {
        if Write(o.w, pass, env, a, n).Done? { Advances(w, o.w, pass, env, a, bootstrap, n); }
        StopChangesNothing(o.w, pass, env, a, n);
      }
    }
  }

  // ---- the paths of others ----

  /** What `a` may do to a path that is not its own: `mkdir -p` adds a folder above it,
      a remote folder delete takes what is below it. */
  ghost predicate Beside(v: World, u: World, a: Action, x: Path) {
    && Get(u.synced, x) == Get(v.synced, x)
    && (Get(u.local, x) == Get(v.local, x)
        || (x !in v.local && Get(u.local, x) == Some(LOCAL_DIR) && x != "" && Below(a.path, x)
            && a.kind in {CREATE_LOCAL_DIR, DOWNLOAD, CONFLICT}))
    && (Get(u.remote, x) == Get(v.remote, x) || (x !in u.remote && a.kind == DELETE_REMOTE && Below(x, a.path)))
  }

  /** What the folder of `p` being made can add at `x`. */
  lemma AddedAbove(m: map<Path, LocalNode>, p: Path, x: Path)
    requires x !in m
    ensures MakeDirs(m, Dirname(p)).Some? && x in MakeDirs(m, Dirname(p)).value ==>
      MakeDirs(m, Dirname(p)).value[x] == LOCAL_DIR && x != "" && Below(p, x)
  {
    var d := Dirname(p);
    MakeDirsKeeps(m, d);
    if d != "" {
      DirnameIsOneUp(p);
      if Below(d, x) { BelowTransitive(p, d, x); }
    }
  }

  lemma LocalBeside(v: World, pass: Pass, env: Env, a: Action, n: nat, x: Path)
    requires !MayWrite(pass, env, a, x) && x !in v.local
    ensures var u := Write(v, pass, env, a, n).w;
      x in u.local ==> u.local[x] == LOCAL_DIR && x != "" && Below(a.path, x) && a.kind in {CREATE_LOCAL_DIR, DOWNLOAD, CONFLICT}
  {
    if a.kind == CREATE_LOCAL_DIR { MakeDirsKeeps(v.local, a.path); }
    if a.kind == DOWNLOAD { AddedAbove(v.local, a.path, x); }
    if a.kind == CONFLICT { ConflictBeside(v, pass, env, a, n, x); }
  }

  lemma ConflictBeside(v: World, pass: Pass, env: Env, a: Action, n: nat, x: Path)
    requires a.kind == CONFLICT && !MayWrite(pass, env, a, x) && x !in v.local
    ensures var u := Write(v, pass, env, a, n).w; x in u.local ==> u.local[x] == LOCAL_DIR && x != "" && Below(a.path, x)
  {
    if n == 4 { AddedAbove(v.local, a.path, x); } else { ConflictAddsItsOwn(v, pass, env, a.path, n, x); }
  }

  lemma ConflictAddsItsOwn(v: World, pass: Pass, env: Env, p: Path, n: nat, x: Path)
    requires x != p && x != env.copyName(p) && x !in v.local && n != 4
    ensures x !in ConflictWrite(v, pass, env, p, n).w.local
  {
  }

  lemma WriteBeside(v: World, pass: Pass, env: Env, a: Action, n: nat, x: Path)
    requires !MayWrite(pass, env, a, x)
    ensures Beside(v, Write(v, pass, env, a, n).w, a, x)
  {
    WriteLeavesBaselines(v, pass, env, a, n, x);
    RemoteEffect(v, pass, env, a, n, x);
    if x in v.local { WriteLeavesLocal(v, pass, env, a, n, x); } else { LocalBeside(v, pass, env, a, n, x); }
  }

  lemma BesideTwice(v: World, u: World, t: World, a: Action, x: Path)
    requires Beside(v, u, a, x) && Beside(u, t, a, x)
    ensures Beside(v, t, a, x)
  {
  }

  lemma {:induction false} WritesBeside(v: World, pass: Pass, env: Env, a: Action, n: nat, x: Path)
    requires !MayWrite(pass, env, a, x)
    ensures Beside(v, Writes(v, pass, env, a, n).w, a, x)
  {
    if n > 0 {
      WritesBeside(v, pass, env, a, n - 1, x);
      var u := Writes(v, pass, env, a, n - 1).w;
      if Writes(v, pass, env, a, n - 1).Done? {
        WriteBeside(u, pass, env, a, n, x);
        BesideTwice(v, u, Write(u, pass, env, a, n).w, a, x);
      }
    }
  }

  // ---- which is what those paths' own actions would do ----

  lemma MadeIsPlanned(w: World, env: Env, a: Action, bootstrap: bool, x: Path)
    requires Good(w) && Chosen(w, env, a, bootstrap)
    requires a.kind in {CREATE_LOCAL_DIR, DOWNLOAD, CONFLICT} && x != "" && Below(a.path, x)
    ensures x in w.remote && w.remote[x].entry.isFolder
    ensures x !in w.local ==> w.ActionAt(x, bootstrap).Some? && w.ActionAt(x, bootstrap).value.kind == CREATE_LOCAL_DIR
    ensures x in w.local ==> w.ActionAt(x, bootstrap).None?
  {
    ActionFacts(w, a, bootstrap);
    RemoteAncestors(w, a.path, x);
    VanishesIsDelete(w, a.path, bootstrap);
    assert !Doomed(w, x);
  }

  lemma SweptIsPlanned(w: World, env: Env, a: Action, bootstrap: bool, x: Path)
    requires Good(w) && Chosen(w, env, a, bootstrap) && a.kind == DELETE_REMOTE && x in w.Known() && Below(x, a.path)
    ensures w.ActionAt(x, bootstrap).Some? && IsDelete(w.ActionAt(x, bootstrap).value)
    ensures x in w.remote ==> w.ActionAt(x, bootstrap).value.kind == DELETE_REMOTE
  {
    ActionFacts(w, a, bootstrap);
    VanishesIsDelete(w, x, bootstrap);
    VanishesIsDelete(w, a.path, bootstrap);
    if x in w.remote { RemoteAncestors(w, x, a.path); }
    if x in w.local { LocalAncestors(w, x, a.path); }
  }
}
