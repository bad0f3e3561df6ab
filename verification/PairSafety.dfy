/** What the three maps must satisfy before a pass, and the effect of each action
    when they do: one path, or the path and its conflict copy. */
module PairSafety {
  import opened Basics
  import opened Paths
  import opened Reconcile
  import opened PairWorld

  // ---- preconditions of a pass ----

  /** Local, remote and last-synced entries of a path are all files or all folders. */
  ghost predicate KindsAgree(w: World) {
    && (forall p :: p in w.local && p in w.remote ==> w.local[p].entry.isFolder == w.remote[p].entry.isFolder)
    && (forall p :: p in w.local && p in w.synced ==> w.local[p].entry.isFolder == w.synced[p].isFolder)
    && (forall p :: p in w.remote && p in w.synced ==> w.remote[p].entry.isFolder == w.synced[p].isFolder)
  }

  /** Every path's directory is in the same tree, as a folder. */
  ghost predicate LocalRooted(w: World) {
    forall p :: p in w.local ==> p != "" && HasLocalFolder(w, p)
  }

  predicate HasRemoteFolder(w: World, p: Path) {
    Dirname(p) == "" || (Dirname(p) in w.remote && w.remote[Dirname(p)].entry.isFolder)
  }

  ghost predicate RemoteRooted(w: World) {
    forall p :: p in w.remote ==> p != "" && HasRemoteFolder(w, p)
  }

  predicate FolderAt(w: World, p: Path) {
    || (p in w.local && w.local[p].entry.isFolder)
    || (p in w.remote && w.remote[p].entry.isFolder)
    || (p in w.synced && w.synced[p].isFolder)
  }

  /** A folder gone from exactly one side: slated for deletion on the other. */
  predicate Doomed(w: World, d: Path) {
    FolderAt(w, d) && d in w.synced && (d in w.local) != (d in w.remote)
  }

  predicate LocalUnchanged(w: World, p: Path) {
    p in w.local && p in w.synced && LocalMatchesSynced(w.local[p].entry, w.synced[p])
  }

  predicate RemoteUnchanged(w: World, p: Path) {
    p in w.remote && p in w.synced && RemoteMatchesSynced(w.remote[p].entry, w.synced[p])
  }

  /** The path is slated for deletion or purge. */
  predicate Vanishes(w: World, p: Path) {
    p in w.synced
    && !(p in w.local && p in w.remote)
    && (FolderAt(w, p) || ((p in w.local ==> LocalUnchanged(w, p)) && (p in w.remote ==> RemoteUnchanged(w, p))))
  }

  /** Whatever lies below a folder slated for deletion is itself slated for it. */
  ghost predicate DeleteClosed(w: World) {
    forall d, q :: Doomed(w, d) && q in w.Known() && Below(q, d) ==> Vanishes(w, q)
  }

  ghost predicate Good(w: World) {
    KindsAgree(w) && LocalRooted(w) && RemoteRooted(w) && "" !in w.synced && DeleteClosed(w)
  }

  predicate InConflict(w: World, p: Path, bootstrap: bool) {
    var a := w.ActionAt(p, bootstrap);
    a.Some? && a.value.kind == CONFLICT
  }

  /** Conflict copies get names, beside their originals, that nothing else uses. */
  ghost predicate FreshCopies(w: World, env: Env, bootstrap: bool) {
    && (forall p :: InConflict(w, p, bootstrap) ==>
          env.copyName(p) !in w.Known() && env.copyName(p) != "" && Dirname(env.copyName(p)) == Dirname(p))
    && (forall p, q :: InConflict(w, p, bootstrap) && InConflict(w, q, bootstrap) && p != q ==>
          env.copyName(p) != env.copyName(q))
  }

  /** `Vanishes` is exactly "classified as a delete or a purge". */
  lemma VanishesIsDelete(w: World, p: Path, bootstrap: bool)
    requires KindsAgree(w)
    ensures Vanishes(w, p) <==> w.ActionAt(p, bootstrap).Some? && IsDelete(w.ActionAt(p, bootstrap).value)
  {
  }

  // ---- the effect of an action ----

  function LocalAfter(w: World, env: Env, a: Action, n: nat): map<Path, LocalNode> {
    var p := a.path;
    match a.kind
    case CREATE_LOCAL_DIR => if n >= 1 then w.local[p := LOCAL_DIR] else w.local
    case DOWNLOAD => if n >= 2 && p in w.remote then w.local[p := Downloaded(env, p, w.remote[p].content)] else w.local
    case DELETE_LOCAL => if n >= 1 then w.local - {p} else w.local
    case CONFLICT =>
      if n >= 5 && p in w.local && p in w.remote then
        w.local[env.copyName(p) := w.local[p]][p := Downloaded(env, p, w.remote[p].content)]
      else if n >= 1 && p in w.local then (w.local - {p})[env.copyName(p) := w.local[p]]
      else w.local
    case _ => w.local
  }

  function UploadId(env: Env, a: Action): string {
    if a.itemId.Some? then a.itemId.value else env.newId(a.path)
  }

  function RemoteAfter(w: World, env: Env, a: Action, n: nat): map<Path, RemoteNode> {
    var p := a.path;
    match a.kind
    case CREATE_REMOTE_DIR => if n >= 1 then w.remote[p := NewRemoteFolder(env, p)] else w.remote
    case UPLOAD =>
      if n >= 1 && p in w.local then w.remote[p := Uploaded(env, p, UploadId(env, a), w.local[p].content)] else w.remote
    case DELETE_REMOTE => if n >= 1 then w.remote - {p} else w.remote
    case CONFLICT =>
      var copy := env.copyName(p);
      if n >= 2 && p in w.local then w.remote[copy := Uploaded(env, copy, env.newId(copy), w.local[p].content)]
      else w.remote
    case _ => w.remote
  }

  function SyncedAfter(w: World, env: Env, a: Action, n: nat): map<Path, SyncedEntry> {
    var p := a.path;
    match a.kind
    case CREATE_REMOTE_DIR =>
      if n >= 2 then w.synced[p := FolderBaseline(env.newId(p), env.newEtag(p))] else w.synced
    case CREATE_LOCAL_DIR =>
      if n >= 2 && p in w.remote then
        w.synced[p := FolderBaseline(w.remote[p].entry.itemId, w.remote[p].entry.etag)]
      else w.synced
    case UPLOAD =>
      if n >= 2 && p in w.local then
        w.synced[p := FileBaseline(UploadId(env, a), env.newEtag(p), w.local[p].entry)]
      else w.synced
    case DOWNLOAD =>
      if n >= 3 && p in w.remote then
        w.synced[p := FileBaseline(w.remote[p].entry.itemId, w.remote[p].entry.etag,
                                   Downloaded(env, p, w.remote[p].content).entry)]
      else w.synced
    case PURGE_TOMBSTONE => if n >= 1 then w.synced - {p} else w.synced
    case CONFLICT =>
      var copy := env.copyName(p);
      if n >= 3 && p in w.local && p in w.remote then
        var withCopy := w.synced[copy := FileBaseline(env.newId(copy), env.newEtag(copy), w.local[p].entry)];
        if n >= 6 then
          withCopy[p := FileBaseline(w.remote[p].entry.itemId, w.remote[p].entry.etag,
                                     Downloaded(env, p, w.remote[p].content).entry)]
        else withCopy
      else w.synced
    case _ => if n >= 2 then w.synced - {p} else w.synced
  }

  /** The world after the first `n` durable writes of `a`, when none is stopped. */
  function After(w: World, env: Env, a: Action, n: nat): World {
    World(LocalAfter(w, env, a, n), RemoteAfter(w, env, a, n), SyncedAfter(w, env, a, n))
  }

  /** The action is planned for `w`, and a conflict's copy gets a new name beside it. */
  ghost predicate Chosen(w: World, env: Env, a: Action, bootstrap: bool) {
    var copy := env.copyName(a.path);
    && w.ActionAt(a.path, bootstrap) == Some(a) && a.path != ""
    && (a.kind == CONFLICT ==> copy !in w.Known() && copy != "" && Dirname(copy) == Dirname(a.path))
  }

  /** Nothing stands in the way of `a`: its parent folders are there, the folder
      it deletes is empty, its copy's name is free, the pass's map is current. */
  ghost predicate Enabled(w: World, pass: Pass, env: Env, a: Action, bootstrap: bool) {
    var p := a.path;
    var copy := env.copyName(p);
    && Chosen(w, env, a, bootstrap)
    && Get(pass.snapshot, p) == w.R(p)
    && (a.kind in {CREATE_REMOTE_DIR, UPLOAD} ==> pass.Parent(p).Some? && IsParentFolder(w, p, pass.Parent(p).value))
    && (a.kind in {CREATE_LOCAL_DIR, DOWNLOAD, CONFLICT} ==> HasLocalFolder(w, p))
    && (a.kind == DELETE_LOCAL ==> forall q :: q in w.local ==> !Below(q, p))
    && (a.kind == DELETE_REMOTE ==> forall q :: q in w.remote ==> !Below(q, p))
    && (a.kind == CONFLICT ==>
          && ResolveParent(copy, pass.snapshot, map[], ROOT_ID).Some?
          && IsParentFolder(w, copy, ResolveParent(copy, pass.snapshot, map[], ROOT_ID).value))
  }
}
