/** Every prefix of an action's durable writes keeps the preconditions of a pass,
    so a worker killed anywhere can start over. */
module PairInvariant {
  import opened Basics
  import opened Paths
  import opened Reconcile
  import opened PairWorld
  import opened PairSafety
  import opened PairEffect

  ghost predicate KindsAgreeAt(w: World, q: Path) {
    && (q in w.local && q in w.remote ==> w.local[q].entry.isFolder == w.remote[q].entry.isFolder)
    && (q in w.local && q in w.synced ==> w.local[q].entry.isFolder == w.synced[q].isFolder)
    && (q in w.remote && q in w.synced ==> w.remote[q].entry.isFolder == w.synced[q].isFolder)
  }

  lemma KindsAgreePointwise(w: World)
    ensures KindsAgree(w) <==> forall q :: KindsAgreeAt(w, q)
  {
    if forall q :: KindsAgreeAt(w, q) {
      forall p | p in w.local || p in w.remote || p in w.synced ensures KindsAgreeAt(w, p) {}
    }
  }

  lemma KindsAgreeAtPath(w: World, env: Env, a: Action, bootstrap: bool, n: nat)
    requires KindsAgree(w) && Chosen(w, env, a, bootstrap)
    ensures KindsAgreeAt(After(w, env, a, n), a.path)
  {
    ActionFacts(w, a, bootstrap);
    if a.kind == CONFLICT {
      OriginalStages(w, env, a, n);
    }
  }

  lemma KindsAgreeAtCopy(w: World, env: Env, a: Action, bootstrap: bool, n: nat)
    requires KindsAgree(w) && Chosen(w, env, a, bootstrap) && a.kind == CONFLICT
    ensures KindsAgreeAt(After(w, env, a, n), env.copyName(a.path))
  {
    ActionFacts(w, a, bootstrap);
    CopyStages(w, env, a, n);
  }

  lemma SameEntriesSameKinds(w: World, v: World, ps: set<Path>, q: Path)
    requires SameOutside(w, v, ps) && q !in ps && KindsAgreeAt(w, q)
    ensures KindsAgreeAt(v, q)
  {
    assert Get(v.local, q) == Get(w.local, q);
    assert Get(v.remote, q) == Get(w.remote, q);
    assert Get(v.synced, q) == Get(w.synced, q);
  }

  lemma KindsAgreeAfter(w: World, pass: Pass, env: Env, a: Action, bootstrap: bool, n: nat)
    requires KindsAgree(w) && Enabled(w, pass, env, a, bootstrap)
    ensures KindsAgree(After(w, env, a, n))
  {
    var v := After(w, env, a, n);
    TouchesOnlyItsPath(w, env, a, n);
    KindsAgreePointwise(w);
    KindsAgreePointwise(v);
    KindsAgreeAtPath(w, env, a, bootstrap, n);
    if a.kind == CONFLICT {
      KindsAgreeAtCopy(w, env, a, bootstrap, n);
    }
    forall q ensures KindsAgreeAt(v, q) {
      if q !in Touched(env, a) {
        SameEntriesSameKinds(w, v, Touched(env, a), q);
      }
    }
  }

  lemma LocalRootedAfter(w: World, pass: Pass, env: Env, a: Action, bootstrap: bool, n: nat)
    requires KindsAgree(w) && LocalRooted(w) && Enabled(w, pass, env, a, bootstrap)
    ensures LocalRooted(After(w, env, a, n))
  {
    ActionFacts(w, a, bootstrap);
    var v := After(w, env, a, n);
    forall q | q in v.local ensures q != "" && HasLocalFolder(v, q) {
      LocalFolderRemains(w, pass, env, a, bootstrap, n, q);
    }
  }

  lemma LocalFolderStays(w: World, pass: Pass, env: Env, a: Action, bootstrap: bool, n: nat, d: Path)
    requires KindsAgree(w) && Enabled(w, pass, env, a, bootstrap)
    requires d in w.local && w.local[d].entry.isFolder && !(a.kind == DELETE_LOCAL && a.path == d)
    ensures d in After(w, env, a, n).local && After(w, env, a, n).local[d].entry.isFolder
  {
    ActionFacts(w, a, bootstrap);
  }

  lemma NewLocalEntry(w: World, pass: Pass, env: Env, a: Action, bootstrap: bool, n: nat, q: Path)
    requires Enabled(w, pass, env, a, bootstrap)
    requires q !in w.local && q in After(w, env, a, n).local
    ensures q != "" && HasLocalFolder(w, q) && a.kind != DELETE_LOCAL
  {
  }

  lemma LocalFolderRemains(w: World, pass: Pass, env: Env, a: Action, bootstrap: bool, n: nat, q: Path)
    requires KindsAgree(w) && LocalRooted(w) && Enabled(w, pass, env, a, bootstrap)
    requires q in After(w, env, a, n).local
    ensures q != "" && HasLocalFolder(After(w, env, a, n), q)
  {
    var d := Dirname(q);
    if q !in w.local {
      NewLocalEntry(w, pass, env, a, bootstrap, n, q);
    }
    assert HasLocalFolder(w, q);
    if d != "" {
      DirnameIsOneUp(q);
      assert a.kind == DELETE_LOCAL && a.path == d ==> q !in w.local;
      LocalFolderStays(w, pass, env, a, bootstrap, n, d);
    }
  }

  lemma RemoteRootedAfter(w: World, pass: Pass, env: Env, a: Action, bootstrap: bool, n: nat)
    requires KindsAgree(w) && RemoteRooted(w) && Enabled(w, pass, env, a, bootstrap)
    ensures RemoteRooted(After(w, env, a, n))
  {
    var v := After(w, env, a, n);
    forall q | q in v.remote ensures q != "" && HasRemoteFolder(v, q) {
      RemoteFolderRemains(w, pass, env, a, bootstrap, n, q);
    }
  }

  lemma RemoteFolderStays(w: World, pass: Pass, env: Env, a: Action, bootstrap: bool, n: nat, d: Path)
    requires KindsAgree(w) && Enabled(w, pass, env, a, bootstrap)
    requires d in w.remote && w.remote[d].entry.isFolder && !(a.kind == DELETE_REMOTE && a.path == d)
    ensures d in After(w, env, a, n).remote && After(w, env, a, n).remote[d].entry.isFolder
  {
    ActionFacts(w, a, bootstrap);
  }

  /** A remote entry an action adds has its folder. */
  lemma NewRemoteEntry(w: World, pass: Pass, env: Env, a: Action, bootstrap: bool, n: nat, q: Path)
    requires Enabled(w, pass, env, a, bootstrap)
    requires q !in w.remote && q in After(w, env, a, n).remote
    ensures q != "" && HasRemoteFolder(w, q) && a.kind != DELETE_REMOTE
  {
  }

  lemma RemoteFolderRemains(w: World, pass: Pass, env: Env, a: Action, bootstrap: bool, n: nat, q: Path)
    requires KindsAgree(w) && RemoteRooted(w) && Enabled(w, pass, env, a, bootstrap)
    requires q in After(w, env, a, n).remote
    ensures q != "" && HasRemoteFolder(After(w, env, a, n), q)
  {
    var d := Dirname(q);
    if q !in w.remote {
      NewRemoteEntry(w, pass, env, a, bootstrap, n, q);
    }
    assert HasRemoteFolder(w, q);
    if d != "" {
      DirnameIsOneUp(q);
      assert a.kind == DELETE_REMOTE && a.path == d ==> q !in w.remote;
      RemoteFolderStays(w, pass, env, a, bootstrap, n, d);
    }
  }

  /** The acted path is never a doomed folder afterwards, and a deleted one is at
      most a tombstone. */
  lemma PathAfter(w: World, env: Env, a: Action, bootstrap: bool, n: nat)
    requires KindsAgree(w) && Chosen(w, env, a, bootstrap) && n >= 1
    ensures !Doomed(After(w, env, a, n), a.path)
    ensures IsDelete(a) && a.path in After(w, env, a, n).Known() ==> Vanishes(After(w, env, a, n), a.path)
  {
    ActionFacts(w, a, bootstrap);
    if a.kind == CONFLICT {
      OriginalStages(w, env, a, n);
    }
  }

  lemma DeleteClosedAfter(w: World, pass: Pass, env: Env, a: Action, bootstrap: bool, n: nat)
    requires Good(w) && Enabled(w, pass, env, a, bootstrap)
    ensures DeleteClosed(After(w, env, a, n))
  {
    var v := After(w, env, a, n);
    if n == 0 {
      assert v == w;
    } else {
      forall d, q | Doomed(v, d) && q in v.Known() && Below(q, d) ensures Vanishes(v, q) {
        DoomStaysClosed(w, pass, env, a, bootstrap, n, d, q);
      }
    }
  }

  lemma DoomStaysClosed(w: World, pass: Pass, env: Env, a: Action, bootstrap: bool, n: nat, d: Path, q: Path)
    requires Good(w) && Enabled(w, pass, env, a, bootstrap) && n >= 1
    requires var v := After(w, env, a, n); Doomed(v, d) && q in v.Known() && Below(q, d)
    ensures Vanishes(After(w, env, a, n), q)
  {
    var v := After(w, env, a, n);
    var ps := Touched(env, a);
    ActionFacts(w, a, bootstrap);
    TouchesOnlyItsPath(w, env, a, n);
    PathAfter(w, env, a, bootstrap, n);
    CopyIsNoFolder(w, env, a, bootstrap, n);
    assert d !in ps;
    SameEntriesSameAction(w, v, ps, d, bootstrap);
    if q !in ps {
      SameEntriesSameAction(w, v, ps, q, bootstrap);
    } else {
      if q != a.path {
        SiblingsShareAncestors(q, a.path, d);
      }
      VanishesIsDelete(w, a.path, bootstrap);
      assert Vanishes(w, a.path);
    }
  }

  lemma CopyIsNoFolder(w: World, env: Env, a: Action, bootstrap: bool, n: nat)
    requires KindsAgree(w) && Chosen(w, env, a, bootstrap)
    ensures a.kind == CONFLICT ==> !Doomed(After(w, env, a, n), env.copyName(a.path))
  {
    ActionFacts(w, a, bootstrap);
    if a.kind == CONFLICT { CopyStages(w, env, a, n); }
  }

  lemma GoodAfter(w: World, pass: Pass, env: Env, a: Action, bootstrap: bool, n: nat)
    requires Good(w) && Enabled(w, pass, env, a, bootstrap)
    ensures Good(After(w, env, a, n))
  {
    KindsAgreeAfter(w, pass, env, a, bootstrap, n);
    LocalRootedAfter(w, pass, env, a, bootstrap, n);
    RemoteRootedAfter(w, pass, env, a, bootstrap, n);
    DeleteClosedAfter(w, pass, env, a, bootstrap, n);
  }

  /** A finished action leaves nothing to do at its path or at its copy, for a
      bootstrap pass and for a later one. */
  lemma ActionSettles(w: World, pass: Pass, env: Env, a: Action, bootstrap: bool, later: bool)
    requires KindsAgree(w) && Enabled(w, pass, env, a, bootstrap)
    ensures After(w, env, a, STEPS).ActionAt(a.path, later) == None
    ensures a.kind == CONFLICT ==> After(w, env, a, STEPS).ActionAt(env.copyName(a.path), later) == None
  {
    ActionFacts(w, a, bootstrap);
    var v := After(w, env, a, STEPS);
    if a.kind == CONFLICT {
      CopyStages(w, env, a, STEPS);
      OriginalStages(w, env, a, STEPS);
      MatchedFilesNeedNothing(v, a.path, later);
      MatchedFilesNeedNothing(v, env.copyName(a.path), later);
    } else if a.kind in {UPLOAD, DOWNLOAD} {
      MatchedFilesNeedNothing(v, a.path, later);
    }
  }

  /** The two sides and the baseline of a path, column by column. */
  predicate InStep(v: World, q: Path) {
    && (q in v.local <==> q in v.synced) && (q in v.remote <==> q in v.synced)
    && (q in v.synced ==>
          var l, r, s := v.local[q].entry, v.remote[q].entry, v.synced[q];
          && s.itemId == Some(r.itemId) && s.etag == Some(r.etag) && s.isFolder == l.isFolder == r.isFolder
          && (if l.isFolder then s.mtime == None && s.size == None else s.mtime == Some(l.mtime) && s.size == Some(l.size)))
  }

  /** A finished action leaves its path, and its copy, with a complete and current baseline,
      or on neither side and without one. */
  lemma ActionRecords(w: World, pass: Pass, env: Env, a: Action, bootstrap: bool)
    requires KindsAgree(w) && Enabled(w, pass, env, a, bootstrap)
    ensures InStep(After(w, env, a, STEPS), a.path)
    ensures a.kind == CONFLICT ==> InStep(After(w, env, a, STEPS), env.copyName(a.path))
  {
    ActionFacts(w, a, bootstrap);
    if a.kind == CONFLICT {
      CopyStages(w, env, a, STEPS);
      OriginalStages(w, env, a, STEPS);
    }
  }

  /** A file's entry has the size of its bytes. */
  predicate SizedAt(v: World, q: Path) {
    && (q in v.local && !v.local[q].entry.isFolder ==> v.local[q].entry.size == |v.local[q].content|)
    && (q in v.remote && !v.remote[q].entry.isFolder ==> v.remote[q].entry.size == |v.remote[q].content|)
  }

  /** No prefix of an action leaves a wrong size anywhere. */
  lemma SizesStay(w: World, env: Env, a: Action, bootstrap: bool, n: nat, q: Path)
    requires KindsAgree(w) && Chosen(w, env, a, bootstrap) && SizedAt(w, a.path) && SizedAt(w, q)
    ensures SizedAt(After(w, env, a, n), q)
  {
    ActionFacts(w, a, bootstrap);
    if q !in Touched(env, a) {
      TouchesOnlyItsPath(w, env, a, n);
      assert Get(After(w, env, a, n).local, q) == Get(w.local, q) && Get(After(w, env, a, n).remote, q) == Get(w.remote, q);
    } else if a.kind == CONFLICT {
      CopyStages(w, env, a, n);
      OriginalStages(w, env, a, n);
    }
  }

  lemma MatchedFilesNeedNothing(w: World, q: Path, bootstrap: bool)
    requires LocalUnchanged(w, q) && RemoteUnchanged(w, q)
    ensures w.ActionAt(q, bootstrap) == None
  {
  }
}
