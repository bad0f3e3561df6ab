/** The three-way (local / remote / last-synced) diff of one Folder Pair. */
module Reconcile {
  import opened Basics
  import opened Paths

  datatype ActionType =
    | UPLOAD
    | DOWNLOAD
    | CREATE_LOCAL_DIR
    | CREATE_REMOTE_DIR
    | DELETE_REMOTE
    | DELETE_LOCAL
    | PURGE_TOMBSTONE
    | CONFLICT

  datatype LocalEntry = LocalEntry(isFolder: bool, size: nat, mtime: string, hash: Option<string>)

  datatype RemoteEntry = RemoteEntry(isFolder: bool, size: nat, etag: string, itemId: string, hash: Option<string>)

  datatype SyncedEntry = SyncedEntry(
    itemId: Option<string>, etag: Option<string>, mtime: Option<string>, size: Option<nat>, isFolder: bool)

  datatype Action = Action(
    path: Path, kind: ActionType, isFolder: bool, itemId: Option<string>, etag: Option<string>)

  predicate LocalMatchesSynced(l: LocalEntry, s: SyncedEntry) {
    s.mtime == Some(l.mtime) && s.size == Some(l.size)
  }

  predicate RemoteMatchesSynced(r: RemoteEntry, s: SyncedEntry) {
    s.etag == Some(r.etag)
  }

  /** First pairing only: same size, and the same hash when both sides report one. */
  predicate BootstrapTrusted(l: LocalEntry, r: RemoteEntry) {
    l.size == r.size && (l.hash.Some? && r.hash.Some? ==> l.hash == r.hash)
  }

  function ConflictOn(p: Path, l: LocalEntry): Action {
    Action(p, CONFLICT, l.isFolder, None, None)
  }

  function CreateOrUpload(p: Path, l: LocalEntry): Action {
    if l.isFolder then Action(p, CREATE_REMOTE_DIR, true, None, None)
    else Action(p, UPLOAD, false, None, None)
  }

  function CreateOrDownload(p: Path, r: RemoteEntry): Action {
    if r.isFolder then Action(p, CREATE_LOCAL_DIR, true, Some(r.itemId), None)
    else Action(p, DOWNLOAD, false, Some(r.itemId), None)
  }

  function UploadReplace(p: Path, l: LocalEntry, r: RemoteEntry): Action {
    Action(p, UPLOAD, l.isFolder, Some(r.itemId), Some(r.etag))
  }

  function DownloadReplace(p: Path, r: RemoteEntry): Action {
    Action(p, DOWNLOAD, r.isFolder, Some(r.itemId), None)
  }

  /** One round of the classification loop. */
  function Classify(
    p: Path, l: Option<LocalEntry>, r: Option<RemoteEntry>, s: Option<SyncedEntry>, bootstrap: bool): Option<Action>
  {
    if (l.Some? && l.value.isFolder) || (r.Some? && r.value.isFolder) || (s.Some? && s.value.isFolder) then
      match (l, r)
      case (Some(_), Some(_)) => None
      case (None, None) => if s.Some? then Some(Action(p, PURGE_TOMBSTONE, true, None, None)) else None
      case (Some(_), None) =>
        Some(Action(p, if s.None? then CREATE_REMOTE_DIR else DELETE_LOCAL, true, None, None))
      case (None, Some(re)) =>
        Some(Action(p, if s.None? then CREATE_LOCAL_DIR else DELETE_REMOTE, true, Some(re.itemId), None))
    else if s.None? then
      match (l, r)
      case (Some(le), Some(re)) =>
        if bootstrap && BootstrapTrusted(le, re) then None else Some(ConflictOn(p, le))
      case (Some(le), None) => Some(CreateOrUpload(p, le))
      case (None, Some(re)) => Some(CreateOrDownload(p, re))
      case (None, None) => None
    else
      match (l, r)
      case (None, None) => Some(Action(p, PURGE_TOMBSTONE, false, None, None))
      case (Some(le), Some(re)) =>
        var localChanged := !LocalMatchesSynced(le, s.value);
        var remoteChanged := !RemoteMatchesSynced(re, s.value);
        if localChanged && remoteChanged then Some(ConflictOn(p, le))
        else if localChanged then Some(UploadReplace(p, le, re))
        else if remoteChanged then Some(DownloadReplace(p, re))
        else None
      case (None, Some(re)) =>
        if !RemoteMatchesSynced(re, s.value) then Some(CreateOrDownload(p, re))
        else Some(Action(p, DELETE_REMOTE, false, Some(re.itemId), None))
      case (Some(le), None) =>
        if !LocalMatchesSynced(le, s.value) then Some(CreateOrUpload(p, le))
        else Some(Action(p, DELETE_LOCAL, false, None, None))
  }

  // ---- what the classification means for a file's two versions ----

  /** Somebody wrote the local file since its baseline: another time or another size. */
  predicate LocallyEdited(l: LocalEntry, s: Option<SyncedEntry>) {
    s.None? || s.value.mtime != Some(l.mtime) || s.value.size != Some(l.size)
  }

  /** Somebody wrote the remote file since its baseline: another etag. */
  predicate RemotelyEdited(r: RemoteEntry, s: Option<SyncedEntry>) {
    s.None? || s.value.etag != Some(r.etag)
  }

  /** First pairing: nothing reported tells the two files apart. */
  predicate Alike(l: LocalEntry, r: RemoteEntry) {
    l.size == r.size && (l.hash.None? || r.hash.None? || l.hash == r.hash)
  }

  predicate OnlyFiles(l: Option<LocalEntry>, r: Option<RemoteEntry>, s: Option<SyncedEntry>) {
    !(l.Some? && l.value.isFolder) && !(r.Some? && r.value.isFolder) && !(s.Some? && s.value.isFolder)
  }

  function KindAt(p: Path, l: Option<LocalEntry>, r: Option<RemoteEntry>, s: Option<SyncedEntry>, bootstrap: bool)
    : Option<ActionType>
  {
    match Classify(p, l, r, s, bootstrap) case None => None case Some(a) => Some(a.kind)
  }

  /** A local file's bytes are given up, by overwriting or deleting, if and only if nobody
      has written it since its baseline and the remote file was edited or is gone. */
  lemma LocalIsGivenUpIff(p: Path, l: LocalEntry, r: Option<RemoteEntry>, s: Option<SyncedEntry>, bootstrap: bool)
    requires OnlyFiles(Some(l), r, s)
    ensures KindAt(p, Some(l), r, s, bootstrap) in {Some(DOWNLOAD), Some(DELETE_LOCAL)}
       <==> !LocallyEdited(l, s) && (r.None? || RemotelyEdited(r.value, s))
  {
  }

  /** And a remote file's, if and only if nobody has written it and the local file was
      edited or is gone. */
  lemma RemoteIsGivenUpIff(p: Path, l: Option<LocalEntry>, r: RemoteEntry, s: Option<SyncedEntry>, bootstrap: bool)
    requires OnlyFiles(l, Some(r), s)
    ensures KindAt(p, l, Some(r), s, bootstrap) in {Some(UPLOAD), Some(DELETE_REMOTE)}
       <==> !RemotelyEdited(r, s) && (l.None? || LocallyEdited(l.value, s))
  {
  }

  /** Two files are both kept, the local one as a copy, if and only if both were written,
      unless a first pairing cannot tell them apart. */
  lemma BothAreKeptIff(p: Path, l: LocalEntry, r: RemoteEntry, s: Option<SyncedEntry>, bootstrap: bool)
    requires OnlyFiles(Some(l), Some(r), s)
    ensures KindAt(p, Some(l), Some(r), s, bootstrap) == Some(CONFLICT)
       <==> LocallyEdited(l, s) && RemotelyEdited(r, s) && !(bootstrap && s.None? && Alike(l, r))
    ensures KindAt(p, Some(l), Some(r), s, bootstrap) == None
       <==> (!LocallyEdited(l, s) && !RemotelyEdited(r, s)) || (bootstrap && s.None? && Alike(l, r))
  {
  }

  /** The three maps a pass starts from. */
  datatype Maps = Maps(
    local: map<Path, LocalEntry>, remote: map<Path, RemoteEntry>, synced: map<Path, SyncedEntry>)
  {
    function Paths(): set<Path> { local.Keys + remote.Keys + synced.Keys }

    function ActionAt(p: Path, bootstrap: bool): Option<Action> {
      Classify(p, Get(local, p), Get(remote, p), Get(synced, p), bootstrap)
    }

    /** Every classified path with its action. */
    function Classified(bootstrap: bool): map<Path, Action> {
      map p | p in Paths() && ActionAt(p, bootstrap).Some? :: ActionAt(p, bootstrap).value
    }
  }

  // ---- execution order ----

  predicate IsDelete(a: Action) {
    a.kind in {DELETE_LOCAL, DELETE_REMOTE, PURGE_TOMBSTONE}
  }

  /** `a` may stand before `b`: creates and writes first (folders before files,
      shallow first), then deletes (deepest first). */
  predicate MayPrecede(a: Action, b: Action) {
    if IsDelete(a) != IsDelete(b) then IsDelete(b)
    else if IsDelete(a) then Slashes(a.path) >= Slashes(b.path)
    else if a.isFolder != b.isFolder then a.isFolder
    else Slashes(a.path) <= Slashes(b.path)
  }

  ghost predicate Ordered(acts: seq<Action>) {
    forall i, j :: 0 <= i < j < |acts| ==> MayPrecede(acts[i], acts[j])
  }

  ghost predicate OnePerPath(acts: seq<Action>) {
    forall i, j :: 0 <= i < j < |acts| ==> acts[i].path != acts[j].path
  }

  /** `acts` holds exactly the classified actions, each once, in an order the
      sort can produce: ties are in any order. */
  ghost predicate ValidPlan(acts: seq<Action>, classified: map<Path, Action>) {
    && Ordered(acts)
    && OnePerPath(acts)
    && (forall a :: a in acts ==> a.path in classified && classified[a.path] == a)
    && (forall p :: p in classified ==> classified[p] in acts)
  }

  /** Stable insertion, from the right, into an ordered list. */
  function Insert(sorted: seq<Action>, a: Action): (r: seq<Action>)
    ensures |r| == |sorted| + 1
    ensures forall x :: x in r <==> x == a || x in sorted
  {
    if sorted == [] || MayPrecede(sorted[|sorted| - 1], a) then
      sorted + [a]
    else
      var last := sorted[|sorted| - 1];
      assert sorted == sorted[..|sorted| - 1] + [last];
      Insert(sorted[..|sorted| - 1], a) + [last]
  }

  lemma {:induction false} InsertKeepsOrder(sorted: seq<Action>, a: Action)
    requires Ordered(sorted)
    ensures Ordered(Insert(sorted, a))
  {
    if sorted == [] || MayPrecede(sorted[|sorted| - 1], a) {
    } else {
      InsertKeepsOrder(sorted[..|sorted| - 1], a);
      var last := sorted[|sorted| - 1];
      var front := Insert(sorted[..|sorted| - 1], a);
      forall i | 0 <= i < |front| ensures MayPrecede(front[i], last) {
        assert front[i] in front;
        if front[i] != a {
          assert front[i] in sorted[..|sorted| - 1];
        }
      }
    }
  }

  lemma {:induction false} InsertKeepsOnePerPath(sorted: seq<Action>, a: Action)
    requires OnePerPath(sorted)
    requires forall x :: x in sorted ==> x.path != a.path
    ensures OnePerPath(Insert(sorted, a))
  {
    if sorted == [] || MayPrecede(sorted[|sorted| - 1], a) {
    } else {
      InsertKeepsOnePerPath(sorted[..|sorted| - 1], a);
      var last := sorted[|sorted| - 1];
      var front := Insert(sorted[..|sorted| - 1], a);
      forall i | 0 <= i < |front| ensures front[i].path != last.path {
        assert front[i] in front;
        if front[i] != a {
          assert front[i] in sorted[..|sorted| - 1];
        }
      }
    }
  }

  /** The partition loop of the sort, action by action; both halves stay sorted. */
  method SortedForExecution(actions: seq<Action>) returns (plan: seq<Action>)
    requires OnePerPath(actions)
    ensures Ordered(plan) && OnePerPath(plan)
    ensures |plan| == |actions| && forall a :: a in plan <==> a in actions
  {
    var writes: seq<Action>, deletes: seq<Action> := [], [];
    for i := 0 to |actions|
      invariant |writes| + |deletes| == i
      invariant forall a :: a in writes <==> a in actions[..i] && !IsDelete(a)
      invariant forall a :: a in deletes <==> a in actions[..i] && IsDelete(a)
      invariant Ordered(writes) && Ordered(deletes)
      invariant OnePerPath(writes) && OnePerPath(deletes)
    {
      var a := actions[i];
      assert actions[..i + 1] == actions[..i] + [a];
      if IsDelete(a) {
        InsertKeepsOrder(deletes, a);
        InsertKeepsOnePerPath(deletes, a);
        deletes := Insert(deletes, a);
      } else {
        InsertKeepsOrder(writes, a);
        InsertKeepsOnePerPath(writes, a);
        writes := Insert(writes, a);
      }
    }
    WritesThenDeletes(actions, writes, deletes);
    plan := writes + deletes;
  }

  lemma WritesThenDeletes(actions: seq<Action>, writes: seq<Action>, deletes: seq<Action>)
    requires OnePerPath(actions)
    requires Ordered(writes) && Ordered(deletes) && OnePerPath(writes) && OnePerPath(deletes)
    requires forall a :: a in writes <==> a in actions && !IsDelete(a)
    requires forall a :: a in deletes <==> a in actions && IsDelete(a)
    ensures Ordered(writes + deletes) && OnePerPath(writes + deletes)
  {
    assert forall i :: 0 <= i < |writes| ==> writes[i] in writes;
    assert forall i :: 0 <= i < |deletes| ==> deletes[i] in deletes;
  }

  /** The classification loop visits the paths in an arbitrary order. */
  method ReconcilePair(m: Maps, bootstrap: bool) returns (plan: seq<Action>)
    ensures ValidPlan(plan, m.Classified(bootstrap))
  {
    var actions: seq<Action> := [];
    var todo := m.Paths();
    ghost var classified := m.Classified(bootstrap);
    while todo != {}
      invariant todo <= m.Paths()
      invariant OnePerPath(actions)
      invariant forall a :: a in actions ==>
        a.path !in todo && a.path in classified && classified[a.path] == a
      invariant forall p :: p in classified && p !in todo ==> classified[p] in actions
      decreases todo
    {
      var p :| p in todo;
      todo := todo - {p};
      var found := ClassifyAt(m, p, bootstrap);
      if found.Some? {
        actions := actions + [found.value];
      }
    }
    plan := SortedForExecution(actions);
  }

  method ClassifyAt(m: Maps, p: Path, bootstrap: bool) returns (found: Option<Action>)
    requires p in m.Paths()
    ensures found.Some? <==> p in m.Classified(bootstrap)
    ensures found.Some? ==> found.value == m.Classified(bootstrap)[p] && found.value.path == p
  {
    found := m.ActionAt(p, bootstrap);
  }

  lemma ClassifiedIsTotal(m: Maps, bootstrap: bool, p: Path)
    ensures p in m.Classified(bootstrap) <==> m.ActionAt(p, bootstrap).Some?
    ensures p in m.Classified(bootstrap) ==> m.Classified(bootstrap)[p] == m.ActionAt(p, bootstrap).value
    ensures p in m.Classified(bootstrap) ==> m.Classified(bootstrap)[p].path == p
  {
  }

  // ---- what the order means ----

  /** An ancestor's create stands before every create or write below it, and a
      folder's delete after every other delete below it and after every create. */
  lemma PlanIsTopological(acts: seq<Action>, m: Maps, bootstrap: bool, i: nat, j: nat)
    requires ValidPlan(acts, m.Classified(bootstrap)) && i < |acts| && j < |acts|
    requires Below(acts[j].path, acts[i].path)
    ensures acts[i].kind in {CREATE_LOCAL_DIR, CREATE_REMOTE_DIR} ==> i < j
    ensures IsDelete(acts[i]) ==> j < i
  {
    BelowIsDeeper(acts[j].path, acts[i].path);
    assert acts[i] in acts;
    CreatesFolder(m, bootstrap, acts[i].path);
  }

  lemma CreatesFolder(m: Maps, bootstrap: bool, p: Path)
    requires p in m.Classified(bootstrap)
    ensures Phase(m.Classified(bootstrap)[p].kind) == 0 ==> m.Classified(bootstrap)[p].isFolder
  {
    ClassifiedIsTotal(m, bootstrap, p);
    FolderActions(m, bootstrap, p);
  }

  /** Folders first, then the writes of files, then the deletes. */
  function Phase(k: ActionType): nat {
    match k
    case CREATE_LOCAL_DIR | CREATE_REMOTE_DIR => 0
    case UPLOAD | DOWNLOAD | CONFLICT => 1
    case DELETE_LOCAL | DELETE_REMOTE | PURGE_TOMBSTONE => 2
  }

  /** Every plan runs in three phases; deletes go deepest first, creates shallowest first. */
  lemma PlanHasPhases(acts: seq<Action>, m: Maps, bootstrap: bool, i: nat, j: nat)
    requires ValidPlan(acts, m.Classified(bootstrap)) && i < j < |acts|
    ensures Phase(acts[i].kind) <= Phase(acts[j].kind)
    ensures Phase(acts[i].kind) == Phase(acts[j].kind) == 2 ==> Slashes(acts[i].path) >= Slashes(acts[j].path)
    ensures Phase(acts[i].kind) == Phase(acts[j].kind) < 2 ==> Slashes(acts[i].path) <= Slashes(acts[j].path)
  {
    assert acts[i] in acts && acts[j] in acts;
    ClassifiedIsTotal(m, bootstrap, acts[i].path);
    ClassifiedIsTotal(m, bootstrap, acts[j].path);
    FolderActions(m, bootstrap, acts[i].path);
    FolderActions(m, bootstrap, acts[j].path);
  }

  lemma FolderActions(m: Maps, bootstrap: bool, p: Path)
    ensures m.ActionAt(p, bootstrap).Some? ==>
      var a := m.ActionAt(p, bootstrap).value;
      (a.isFolder ==> Phase(a.kind) != 1) && (!a.isFolder ==> Phase(a.kind) != 0)
  {
  }
}
