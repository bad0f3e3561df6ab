/** Under the preconditions of a pass every durable write goes through and touches
    only the action's path and its conflict copy. */
module PairEffect {
  import opened Basics
  import opened Paths
  import opened Reconcile
  import opened PairWorld
  import opened PairSafety

  /** What the classification says about the two sides, action by action. */
  lemma ActionFacts(w: World, a: Action, bootstrap: bool)
    requires KindsAgree(w) && w.ActionAt(a.path, bootstrap) == Some(a)
    ensures a.path in w.Known()
    ensures a.kind == CREATE_REMOTE_DIR ==>
      a.path in w.local && w.local[a.path].entry.isFolder && a.path !in w.remote && a.isFolder
    ensures a.kind == CREATE_LOCAL_DIR ==>
      a.path in w.remote && w.remote[a.path].entry.isFolder && a.path !in w.local && a.isFolder
    ensures a.kind in {UPLOAD, DOWNLOAD, CONFLICT} ==> !FolderAt(w, a.path) && !a.isFolder
    ensures a.kind == UPLOAD ==> a.path in w.local && !LocalUnchanged(w, a.path)
    ensures a.kind == UPLOAD && a.path !in w.remote ==> a.itemId == None
    ensures a.kind == UPLOAD && a.path in w.remote ==> RemoteUnchanged(w, a.path)
    ensures a.kind == UPLOAD && a.path in w.remote ==>
      a.itemId == Some(w.remote[a.path].entry.itemId) && a.etag == Some(w.remote[a.path].entry.etag)
    ensures a.kind == DOWNLOAD ==> a.path in w.remote && a.itemId == Some(w.remote[a.path].entry.itemId)
    ensures a.kind == DOWNLOAD ==> !RemoteUnchanged(w, a.path) && (a.path in w.local ==> LocalUnchanged(w, a.path))
    ensures a.kind == DELETE_LOCAL ==> a.path in w.local && a.path !in w.remote
    ensures a.kind == DELETE_REMOTE ==>
      a.path in w.remote && a.path !in w.local && a.itemId == Some(w.remote[a.path].entry.itemId)
    ensures a.kind == PURGE_TOMBSTONE ==> a.path !in w.local && a.path !in w.remote
    ensures a.kind == CONFLICT ==> a.path in w.local && a.path in w.remote
    ensures a.kind == CONFLICT ==> !LocalUnchanged(w, a.path) && !RemoteUnchanged(w, a.path)
  {
  }

  lemma MakeDirsOfExisting(local: map<Path, LocalNode>, d: Path)
    requires d == "" || (d in local && local[d].entry.isFolder)
    ensures MakeDirs(local, d) == Some(local)
  {
  }

  /** Every durable write of an enabled action goes through. */
  lemma WritesSucceed(w: World, pass: Pass, env: Env, a: Action, bootstrap: bool, n: nat)
    requires KindsAgree(w) && Enabled(w, pass, env, a, bootstrap) && n <= STEPS
    ensures Writes(w, pass, env, a, n) == Done(After(w, env, a, n))
  {
    ActionFacts(w, a, bootstrap);
    match a.kind
    case CREATE_REMOTE_DIR => CreateRemoteDirWrites(w, pass, env, a, n);
    case CREATE_LOCAL_DIR => CreateLocalDirWrites(w, pass, env, a, n);
    case UPLOAD => UploadWrites(w, pass, env, a, n);
    case DOWNLOAD => DownloadWrites(w, pass, env, a, n);
    case DELETE_REMOTE => DeleteRemoteWrites(w, pass, env, a, n);
    case DELETE_LOCAL => DeleteLocalWrites(w, pass, env, a, n);
    case PURGE_TOMBSTONE => PurgeWrites(w, pass, env, a, n);
    case CONFLICT => ConflictWrites(w, pass, env, a, n);
  }

  lemma CreateRemoteDirWrites(w: World, pass: Pass, env: Env, a: Action, n: nat)
    requires a.kind == CREATE_REMOTE_DIR && a.path !in w.remote
    requires pass.Parent(a.path).Some? && IsParentFolder(w, a.path, pass.Parent(a.path).value)
    ensures Writes(w, pass, env, a, n) == Done(After(w, env, a, n))
  {
    if n > 0 { CreateRemoteDirWrites(w, pass, env, a, n - 1); }
  }

  lemma CreateLocalDirWrites(w: World, pass: Pass, env: Env, a: Action, n: nat)
    requires a.kind == CREATE_LOCAL_DIR && a.path !in w.local && a.path in w.remote && a.path != ""
    requires HasLocalFolder(w, a.path) && Get(pass.snapshot, a.path) == w.R(a.path)
    ensures Writes(w, pass, env, a, n) == Done(After(w, env, a, n))
  {
    MakeDirsOfExisting(w.local, Dirname(a.path));
    if n > 0 { CreateLocalDirWrites(w, pass, env, a, n - 1); }
  }

  lemma UploadWrites(w: World, pass: Pass, env: Env, a: Action, n: nat)
    requires a.kind == UPLOAD && a.path in w.local && !w.local[a.path].entry.isFolder
    requires pass.Parent(a.path).Some? && IsParentFolder(w, a.path, pass.Parent(a.path).value)
    requires if a.path in w.remote then
        !w.remote[a.path].entry.isFolder && a.itemId == Some(w.remote[a.path].entry.itemId)
        && a.etag == Some(w.remote[a.path].entry.etag)
      else a.itemId == None
    ensures Writes(w, pass, env, a, n) == Done(After(w, env, a, n))
  {
    if n > 0 { UploadWrites(w, pass, env, a, n - 1); }
  }

  lemma DownloadWrites(w: World, pass: Pass, env: Env, a: Action, n: nat)
    requires a.kind == DOWNLOAD && a.path in w.remote && !w.remote[a.path].entry.isFolder
    requires a.path in w.local ==> !w.local[a.path].entry.isFolder
    requires a.itemId == Some(w.remote[a.path].entry.itemId)
    requires HasLocalFolder(w, a.path) && Get(pass.snapshot, a.path) == w.R(a.path)
    ensures Writes(w, pass, env, a, n) == Done(After(w, env, a, n))
  {
    MakeDirsOfExisting(w.local, Dirname(a.path));
    if n > 0 { DownloadWrites(w, pass, env, a, n - 1); }
  }

  lemma DeleteRemoteWrites(w: World, pass: Pass, env: Env, a: Action, n: nat)
    requires a.kind == DELETE_REMOTE && a.path in w.remote && a.itemId == Some(w.remote[a.path].entry.itemId)
    requires Get(pass.snapshot, a.path) == w.R(a.path)
    requires forall q :: q in w.remote ==> !Below(q, a.path)
    ensures Writes(w, pass, env, a, n) == Done(After(w, env, a, n))
  {
    if n > 0 {
      DeleteRemoteWrites(w, pass, env, a, n - 1);
      assert (map q | q in w.remote && q != a.path && !Below(q, a.path) :: w.remote[q]) == w.remote - {a.path};
    }
  }

  lemma DeleteLocalWrites(w: World, pass: Pass, env: Env, a: Action, n: nat)
    requires a.kind == DELETE_LOCAL
    requires forall q :: q in w.local ==> !Below(q, a.path)
    ensures Writes(w, pass, env, a, n) == Done(After(w, env, a, n))
  {
    if n > 0 { DeleteLocalWrites(w, pass, env, a, n - 1); }
  }

  lemma PurgeWrites(w: World, pass: Pass, env: Env, a: Action, n: nat)
    requires a.kind == PURGE_TOMBSTONE
    ensures Writes(w, pass, env, a, n) == Done(After(w, env, a, n))
  {
    if n > 0 { PurgeWrites(w, pass, env, a, n - 1); }
  }

  ghost predicate ConflictReady(w: World, pass: Pass, env: Env, a: Action) {
    var copy := env.copyName(a.path);
    && a.kind == CONFLICT && a.path in w.local && a.path in w.remote && a.path != ""
    && !w.local[a.path].entry.isFolder && !w.remote[a.path].entry.isFolder
    && HasLocalFolder(w, a.path) && Get(pass.snapshot, a.path) == w.R(a.path)
    && copy !in w.Known() && Dirname(copy) == Dirname(a.path)
    && ResolveParent(copy, pass.snapshot, map[], ROOT_ID).Some?
    && IsParentFolder(w, copy, ResolveParent(copy, pass.snapshot, map[], ROOT_ID).value)
  }

  lemma ConflictClaims(w: World, pass: Pass, env: Env, a: Action)
    requires ConflictReady(w, pass, env, a)
    ensures Write(w, pass, env, a, 1) == Done(After(w, env, a, 1))
  {
  }

  lemma ConflictUploads(w: World, pass: Pass, env: Env, a: Action)
    requires ConflictReady(w, pass, env, a)
    ensures Write(After(w, env, a, 1), pass, env, a, 2) == Done(After(w, env, a, 2))
  {
  }

  lemma ConflictRecordsCopy(w: World, pass: Pass, env: Env, a: Action)
    requires ConflictReady(w, pass, env, a)
    ensures Write(After(w, env, a, 2), pass, env, a, 3) == Done(After(w, env, a, 3))
  {
  }

  lemma ConflictDownloads(w: World, pass: Pass, env: Env, a: Action)
    requires ConflictReady(w, pass, env, a)
    ensures Write(After(w, env, a, 3), pass, env, a, 4) == Done(After(w, env, a, 4))
    ensures Write(After(w, env, a, 4), pass, env, a, 5) == Done(After(w, env, a, 5))
  {
    var v := After(w, env, a, 3);
    assert |Dirname(a.path)| < |a.path|;
    assert HasLocalFolder(v, a.path);
    MakeDirsOfExisting(v.local, Dirname(a.path));
    assert After(w, env, a, 4) == v;
  }

  lemma ConflictRecordsOriginal(w: World, pass: Pass, env: Env, a: Action)
    requires ConflictReady(w, pass, env, a)
    ensures Write(After(w, env, a, 5), pass, env, a, 6) == Done(After(w, env, a, 6))
  {
  }

  lemma {:induction false} ConflictWrites(w: World, pass: Pass, env: Env, a: Action, n: nat)
    requires ConflictReady(w, pass, env, a) && n <= STEPS
    ensures Writes(w, pass, env, a, n) == Done(After(w, env, a, n))
  {
    if n > 0 {
      ConflictWrites(w, pass, env, a, n - 1);
      ConflictNext(w, pass, env, a, n);
    } else {
      assert After(w, env, a, 0) == w;
    }
  }

  lemma ConflictNext(w: World, pass: Pass, env: Env, a: Action, n: nat)
    requires ConflictReady(w, pass, env, a) && 1 <= n <= STEPS
    ensures Write(After(w, env, a, n - 1), pass, env, a, n) == Done(After(w, env, a, n))
  {
    if n == 1 {
      assert After(w, env, a, 0) == w;
      ConflictClaims(w, pass, env, a);
    } else if n == 2 {
      ConflictUploads(w, pass, env, a);
    } else if n == 3 {
      ConflictRecordsCopy(w, pass, env, a);
    } else if n == 6 {
      ConflictRecordsOriginal(w, pass, env, a);
    } else {
      ConflictDownloads(w, pass, env, a);
    }
  }

  // ---- what an action leaves alone ----

  /** Nothing outside `ps` differs. */
  ghost predicate SameOutside(w: World, v: World, ps: set<Path>) {
    && (forall q :: q !in ps ==> Get(v.local, q) == Get(w.local, q))
    && (forall q :: q !in ps ==> Get(v.remote, q) == Get(w.remote, q))
    && (forall q :: q !in ps ==> Get(v.synced, q) == Get(w.synced, q))
  }

  function Touched(env: Env, a: Action): set<Path> {
    if a.kind == CONFLICT then {a.path, env.copyName(a.path)} else {a.path}
  }

  lemma TouchesOnlyItsPath(w: World, env: Env, a: Action, n: nat)
    ensures SameOutside(w, After(w, env, a, n), Touched(env, a))
  {
  }

  lemma SameEntriesSameAction(w: World, v: World, ps: set<Path>, q: Path, bootstrap: bool)
    requires SameOutside(w, v, ps) && q !in ps
    ensures v.L(q) == w.L(q) && v.R(q) == w.R(q) && v.S(q) == w.S(q)
    ensures v.ActionAt(q, bootstrap) == w.ActionAt(q, bootstrap)
    ensures FolderAt(v, q) == FolderAt(w, q) && Doomed(v, q) == Doomed(w, q) && Vanishes(v, q) == Vanishes(w, q)
    ensures q in v.Known() <==> q in w.Known()
  {
    assert Get(v.local, q) == Get(w.local, q);
    assert Get(v.remote, q) == Get(w.remote, q);
    assert Get(v.synced, q) == Get(w.synced, q);
  }

  /** The copy's entries at every stage: a plain file, on the local side first. */
  lemma CopyStages(w: World, env: Env, a: Action, n: nat)
    requires a.kind == CONFLICT && a.path in w.local && a.path in w.remote
    requires env.copyName(a.path) !in w.Known()
    ensures var v := After(w, env, a, n); var copy := env.copyName(a.path);
      && (copy in v.local <==> n >= 1) && (copy in v.remote <==> n >= 2) && (copy in v.synced <==> n >= 3)
      && (n >= 1 ==> v.local[copy] == w.local[a.path])
      && (n >= 2 ==> v.remote[copy] == Uploaded(env, copy, env.newId(copy), w.local[a.path].content))
      && (n >= 3 ==> v.synced[copy] == FileBaseline(env.newId(copy), env.newEtag(copy), w.local[a.path].entry))
  {
  }

  /** The original's entries at every stage of a conflict. */
  lemma OriginalStages(w: World, env: Env, a: Action, n: nat)
    requires a.kind == CONFLICT && a.path in w.local && a.path in w.remote
    requires env.copyName(a.path) !in w.Known()
    ensures var v := After(w, env, a, n); var p := a.path;
      && (p in v.local <==> n == 0 || n >= 5) && p in v.remote && v.remote[p] == w.remote[p]
      && (n == 0 ==> v.local[p] == w.local[p])
      && (n >= 5 ==> v.local[p] == Downloaded(env, p, w.remote[p].content))
      && (n < 6 ==> v.S(p) == w.S(p))
      && (n >= 6 ==> v.S(p) == Some(FileBaseline(w.remote[p].entry.itemId, w.remote[p].entry.etag, v.local[p].entry)))
  {
  }
}
