/** The state one Folder Pair pass works on, and the effect of each action on it,
    one durable write at a time. */
module PairWorld {
  import opened Basics
  import opened Paths
  import opened Reconcile

  /** A local file or folder: what `os.stat` reports, and its bytes. */
  datatype LocalNode = LocalNode(entry: LocalEntry, content: Content)

  /** A drive item: what the item cache holds for it, and its bytes. */
  datatype RemoteNode = RemoteNode(entry: RemoteEntry, content: Content)

  /** Local tree, remote tree and `pair_files` baselines, by relative path. */
  datatype World = World(
    local: map<Path, LocalNode>, remote: map<Path, RemoteNode>, synced: map<Path, SyncedEntry>)
  {
    function LocalMap(): map<Path, LocalEntry> { map p | p in local :: local[p].entry }

    function RemoteMap(): map<Path, RemoteEntry> { map p | p in remote :: remote[p].entry }

    function Maps(): Maps { Reconcile.Maps(LocalMap(), RemoteMap(), synced) }

    function L(p: Path): Option<LocalEntry> { if p in local then Some(local[p].entry) else None }

    function R(p: Path): Option<RemoteEntry> { if p in remote then Some(remote[p].entry) else None }

    function S(p: Path): Option<SyncedEntry> { if p in synced then Some(synced[p]) else None }

    function ActionAt(p: Path, bootstrap: bool): Option<Action> {
      Classify(p, L(p), R(p), S(p), bootstrap)
    }

    function Known(): set<Path> { local.Keys + remote.Keys + synced.Keys }
  }

  /** The values the file system and the server choose during a pass. No path is
      written twice in one pass, so one value per path loses nothing. */
  datatype Env = Env(
    newId: Path -> string,
    newEtag: Path -> string,
    newMtime: Path -> string,
    localHash: Path -> Option<string>,
    remoteHash: Path -> Option<string>,
    copyName: Path -> Path)

  /** `created_remote_ids` wins over the map the pass started from. */
  function ResolveParent(p: Path, snapshot: map<Path, RemoteEntry>, created: map<Path, string>, root: string)
    : Option<string>
  {
    var parent := Dirname(p);
    if parent == "" then Some(root)
    else if parent in created then Some(created[parent])
    else if parent in snapshot then Some(snapshot[parent].itemId)
    else None
  }

  const ROOT_ID: string := "root"

  /** What a pass carries from action to action besides the world. */
  datatype Pass = Pass(snapshot: map<Path, RemoteEntry>, created: map<Path, string>)
  {
    function Parent(p: Path): Option<string> { ResolveParent(p, snapshot, created, ROOT_ID) }
  }

  /** The item with this id is the folder that holds `p`. */
  predicate IsParentFolder(w: World, p: Path, id: string) {
    var parent := Dirname(p);
    if parent == "" then id == ROOT_ID
    else parent in w.remote && w.remote[parent].entry.isFolder && w.remote[parent].entry.itemId == id
  }

  const LOCAL_DIR: LocalNode := LocalNode(LocalEntry(true, 0, "", None), [])

  /** `Path.mkdir(parents=True, exist_ok=True)`; `None` when a file is in the way. */
  function MakeDirs(local: map<Path, LocalNode>, d: Path): Option<map<Path, LocalNode>>
    decreases |d|
  {
    if d == "" then Some(local)
    else if d in local then (if local[d].entry.isFolder then Some(local) else None)
    else
      match MakeDirs(local, Dirname(d))
      case None => None
      case Some(m) => Some(m[d := LOCAL_DIR])
  }

  function FileBaseline(id: string, etag: string, l: LocalEntry): SyncedEntry {
    SyncedEntry(Some(id), Some(etag), Some(l.mtime), Some(l.size), false)
  }

  function FolderBaseline(id: string, etag: string): SyncedEntry {
    SyncedEntry(Some(id), Some(etag), None, None, true)
  }

  /** `download_content` to `p`: the bytes of the item with this id, atomically. */
  function Download(w: World, env: Env, p: Path, id: string): Option<World> {
    if p in w.remote && w.remote[p].entry.itemId == id && !w.remote[p].entry.isFolder
       && (p in w.local ==> !w.local[p].entry.isFolder) && HasLocalFolder(w, p) then
      Some(w.(local := w.local[p := Downloaded(env, p, w.remote[p].content)]))
    else None
  }

  function Downloaded(env: Env, p: Path, c: Content): LocalNode {
    LocalNode(LocalEntry(false, |c|, env.newMtime(p), env.localHash(p)), c)
  }

  function Uploaded(env: Env, p: Path, id: string, c: Content): RemoteNode {
    RemoteNode(RemoteEntry(false, |c|, env.newEtag(p), id, env.remoteHash(p)), c)
  }

  function NewRemoteFolder(env: Env, p: Path): RemoteNode {
    RemoteNode(RemoteEntry(true, 0, env.newEtag(p), env.newId(p), None), [])
  }

  predicate HasLocalFolder(w: World, p: Path) {
    Dirname(p) == "" || (Dirname(p) in w.local && w.local[Dirname(p)].entry.isFolder)
  }

  /** The `mkdir` of the target's folder that comes before every download. */
  function MakeLocalFolder(w: World, p: Path): Outcome {
    match MakeDirs(w.local, p)
    case None => Stopped(w)
    case Some(m) => Done(w.(local := m))
  }

  /** `upload_file` of the local file `from` as the item named `to`. */
  function UploadNew(w: World, env: Env, from: Path, to: Path, parent: string): Option<World> {
    if from in w.local && !w.local[from].entry.isFolder && IsParentFolder(w, to, parent)
       && (to in w.remote ==> !w.remote[to].entry.isFolder) then
      var id := if to in w.remote then w.remote[to].entry.itemId else env.newId(to);
      Some(w.(remote := w.remote[to := Uploaded(env, to, id, w.local[from].content)]))
    else None
  }

  /** `upload_file` onto an existing item; only the upload-session path for large
      files honours `If-Match`. */
  function UploadOver(w: World, env: Env, p: Path, id: string, etag: Option<string>): Option<World> {
    if p in w.local && !w.local[p].entry.isFolder && p in w.remote && !w.remote[p].entry.isFolder
       && w.remote[p].entry.itemId == id
       && (|w.local[p].content| <= SIMPLE_UPLOAD_MAX_BYTES || etag == Some(w.remote[p].entry.etag)) then
      Some(w.(remote := w.remote[p := Uploaded(env, p, id, w.local[p].content)]))
    else None
  }

  /** Where the conflict copy of `p` lands remotely: beside `p`, or in the pair's
      root when the map has no parent for it. */
  function CopyTarget(pass: Pass, copy: Path): Path {
    if ResolveParent(copy, pass.snapshot, map[], ROOT_ID).None? then Basename(copy) else copy
  }

  function CopyParent(pass: Pass, copy: Path): string {
    match ResolveParent(copy, pass.snapshot, map[], ROOT_ID)
    case Some(id) => id
    case None => ROOT_ID
  }

  /** One durable write of an action. `Stopped` is an exception: nothing was
      written and the rest of the action does not run. */
  datatype Outcome = Done(w: World) | Stopped(w: World)

  function Try(w: World, next: Option<World>): Outcome {
    match next
    case Some(v) => Done(v)
    case None => Stopped(w)
  }

  const STEPS: nat := 6

  const SIMPLE_UPLOAD_MAX_BYTES: nat := 4 * 1024 * 1024

  /** The folder on the server, then its baseline. */
  function CreateRemoteDirWrite(w: World, pass: Pass, env: Env, p: Path, n: nat): Outcome {
    if n == 1 then
      (match pass.Parent(p)
       case None => Stopped(w)
       case Some(id) =>
         if IsParentFolder(w, p, id) && p !in w.remote then
           Done(w.(remote := w.remote[p := NewRemoteFolder(env, p)]))
         else Stopped(w))
    else if n == 2 then
      if p in w.remote then
        Done(w.(synced := w.synced[p := FolderBaseline(w.remote[p].entry.itemId, w.remote[p].entry.etag)]))
      else Stopped(w)
    else Done(w)
  }

  function CreateLocalDirWrite(w: World, pass: Pass, p: Path, n: nat): Outcome {
    if n == 1 then MakeLocalFolder(w, p)
    else if n == 2 then
      if p in pass.snapshot then
        Done(w.(synced := w.synced[p := FolderBaseline(pass.snapshot[p].itemId, pass.snapshot[p].etag)]))
      else Stopped(w)
    else Done(w)
  }

  function UploadWrite(w: World, pass: Pass, env: Env, a: Action, n: nat): Outcome {
    var p := a.path;
    if n == 1 then
      (match (pass.Parent(p), a.itemId)
       case (None, _) => Stopped(w)
       case (Some(parent), None) => Try(w, UploadNew(w, env, p, p, parent))
       case (Some(_), Some(id)) => Try(w, UploadOver(w, env, p, id, a.etag)))
    else if n == 2 then
      if p in w.remote && p in w.local then
        Done(w.(synced := w.synced[p := FileBaseline(w.remote[p].entry.itemId, w.remote[p].entry.etag, w.local[p].entry)]))
      else Stopped(w)
    else Done(w)
  }

  function DownloadWrite(w: World, pass: Pass, env: Env, a: Action, n: nat): Outcome {
    var p := a.path;
    if n == 1 then MakeLocalFolder(w, Dirname(p))
    else if n == 2 then
      (match a.itemId
       case None => Stopped(w)
       case Some(id) => Try(w, Download(w, env, p, id)))
    else if n == 3 then
      if p in pass.snapshot && p in w.local then
        Done(w.(synced := w.synced[p := FileBaseline(pass.snapshot[p].itemId, pass.snapshot[p].etag, w.local[p].entry)]))
      else Stopped(w)
    else Done(w)
  }

  /** The server removes a folder with everything below it. */
  function DeleteRemoteWrite(w: World, pass: Pass, a: Action, n: nat): Outcome {
    var p := a.path;
    if n == 1 then
      if p in w.remote && a.itemId == Some(w.remote[p].entry.itemId)
         && (p in pass.snapshot ==> pass.snapshot[p].etag in {"", w.remote[p].entry.etag}) then
        Done(w.(remote := map q | q in w.remote && q != p && !Below(q, p) :: w.remote[q]))
      else Stopped(w)
    else if n == 2 then Done(w.(synced := w.synced - {p}))
    else Done(w)
  }

  /** `rmdir` refuses a folder that is not empty. */
  function DeleteLocalWrite(w: World, p: Path, n: nat): Outcome {
    if n == 1 then
      if p in w.local && w.local[p].entry.isFolder && (exists q :: q in w.local && Below(q, p)) then Stopped(w)
      else Done(w.(local := w.local - {p}))
    else if n == 2 then Done(w.(synced := w.synced - {p}))
    else Done(w)
  }

  /** The atomic rename claims the conflict; then the copy is uploaded, and the original
      downloaded in its place. */
  function ConflictWrite(w: World, pass: Pass, env: Env, p: Path, n: nat): Outcome {
    var copy := env.copyName(p);
    if n == 1 then
      if p in w.local && copy !in w.local && p in pass.snapshot then
        Done(w.(local := (w.local - {p})[copy := w.local[p]]))
      else Stopped(w)
    else if n == 2 then
      Try(w, UploadNew(w, env, copy, CopyTarget(pass, copy), CopyParent(pass, copy)))
    else if n == 3 then
      var target := CopyTarget(pass, copy);
      if target in w.remote && copy in w.local then
        Done(w.(synced := w.synced[copy := FileBaseline(w.remote[target].entry.itemId, w.remote[target].entry.etag, w.local[copy].entry)]))
      else Stopped(w)
    else if n == 4 then MakeLocalFolder(w, Dirname(p))
    else if n == 5 then
      if p in pass.snapshot then Try(w, Download(w, env, p, pass.snapshot[p].itemId)) else Stopped(w)
    else if n == 6 then
      if p in pass.snapshot && p in w.local then
        Done(w.(synced := w.synced[p := FileBaseline(pass.snapshot[p].itemId, pass.snapshot[p].etag, w.local[p].entry)]))
      else Stopped(w)
    else Done(w)
  }

  /** The `n`-th durable write of action `a` (1 to `STEPS`); most actions have two. */
  function Write(w: World, pass: Pass, env: Env, a: Action, n: nat): Outcome {
    match a.kind
    case CREATE_REMOTE_DIR => CreateRemoteDirWrite(w, pass, env, a.path, n)
    case CREATE_LOCAL_DIR => CreateLocalDirWrite(w, pass, a.path, n)
    case UPLOAD => UploadWrite(w, pass, env, a, n)
    case DOWNLOAD => DownloadWrite(w, pass, env, a, n)
    case DELETE_REMOTE => DeleteRemoteWrite(w, pass, a, n)
    case DELETE_LOCAL => DeleteLocalWrite(w, a.path, n)
    case PURGE_TOMBSTONE => if n == 1 then Done(w.(synced := w.synced - {a.path})) else Done(w)
    case CONFLICT => ConflictWrite(w, pass, env, a.path, n)
  }

  /** The first `n` durable writes of an action. */
  function Writes(w: World, pass: Pass, env: Env, a: Action, n: nat): Outcome {
    if n == 0 then Done(w)
    else
      match Writes(w, pass, env, a, n - 1)
      case Stopped(v) => Stopped(v)
      case Done(v) => Write(v, pass, env, a, n)
  }

  /** A whole action, and the parent ids it leaves for later ones. */
  function Execute(w: World, pass: Pass, env: Env, a: Action): (World, Pass) {
    var o := Writes(w, pass, env, a, STEPS);
    (o.w,
     if a.kind == CREATE_REMOTE_DIR && o.Done? then
       pass.(created := pass.created[a.path := env.newId(a.path)])
     else pass)
  }

  /** The first `k` actions of a pass. */
  function Run(w: World, pass: Pass, env: Env, acts: seq<Action>, k: nat): (World, Pass)
    requires k <= |acts|
  {
    if k == 0 then (w, pass)
    else
      var (v, ps) := Run(w, pass, env, acts, k - 1);
      Execute(v, ps, env, acts[k - 1])
  }

  function StartPass(w: World): Pass { Pass(w.RemoteMap(), map[]) }
}
