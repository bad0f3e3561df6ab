/** Excluded names: the pruning walk and the two filters hide the same paths, and a
    hidden path takes no part in a pass. */
module Exclusion {
  import opened Basics
  import opened Paths
  import opened Reconcile
  import CacheModel
  import CacheWalk

  /** `rel_path.split("/")`. */
  function Split(p: Path): (parts: seq<string>)
    ensures parts != []
    decreases |p|
  {
    var i := LastSlash(p);
    if i < 0 then [p] else Split(p[..i]) + [p[i + 1..]]
  }

  predicate Any(parts: seq<string>, excluded: string -> bool) {
    exists part :: part in parts && excluded(part)
  }

  /** Some component of the path matches a pattern. */
  predicate Hidden(p: Path, excluded: string -> bool) { Any(Split(p), excluded) }

  lemma AnyOfMore(parts: seq<string>, last: string, excluded: string -> bool)
    ensures Any(parts + [last], excluded) <==> Any(parts, excluded) || excluded(last)
    ensures Any([last], excluded) <==> excluded(last)
  {
    assert last in [last] && last in parts + [last];
    if Any(parts, excluded) {
      var part :| part in parts && excluded(part);
      assert part in parts + [last];
    }
  }

  lemma HiddenByNameOrFolder(p: Path, excluded: string -> bool)
    requires LastSlash(p) != 0
    ensures Hidden(p, excluded) <==> excluded(Basename(p)) || (Dirname(p) != "" && Hidden(Dirname(p), excluded))
  {
    var i := LastSlash(p);
    if i < 0 {
      assert p[0..] == p;
      AnyOfMore([], p, excluded);
    } else {
      AnyOfMore(Split(p[..i]), p[i + 1..], excluded);
    }
  }

  // ---- the local side: a walk that prunes ----

  datatype DiskNode = DiskFile(size: nat, mtime: string) | DiskFolder | Link(toFolder: bool)

  type Disk = map<Path, DiskNode>

  /** Relative paths; every entry is in a real folder. */
  ghost predicate DiskOk(disk: Disk) {
    forall p :: p in disk ==> EntryOk(disk, p)
  }

  predicate EntryOk(disk: Disk, p: Path) {
    && p != "" && LastSlash(p) != 0
    && (Dirname(p) == "" || (Dirname(p) in disk && disk[Dirname(p)].DiskFolder?))
  }

  function EntryOf(n: DiskNode): LocalEntry
    requires !n.Link?
  {
    if n.DiskFolder? then LocalEntry(true, 0, "", None) else LocalEntry(false, n.size, n.mtime, None)
  }

  predicate Shown(disk: Disk, excluded: string -> bool, p: Path) {
    p in disk && !disk[p].Link? && !Hidden(p, excluded)
  }

  /** The specification: every path without an excluded component, links aside. */
  function VisibleDisk(disk: Disk, excluded: string -> bool): map<Path, LocalEntry> {
    map p | p in disk && Shown(disk, excluded, p) :: EntryOf(disk[p])
  }

  /** The folders the walk has to enter. */
  predicate IsShownFolder(disk: Disk, excluded: string -> bool, d: Path) {
    d == "" || (Shown(disk, excluded, d) && disk[d].DiskFolder?)
  }

  /** After the folders in `done` have been listed. */
  ghost predicate Listed(disk: Disk, excluded: string -> bool, result: map<Path, LocalEntry>, done: set<Path>) {
    forall p :: p in result <==> Shown(disk, excluded, p) && Dirname(p) in done
  }

  /** Folders listed or waiting: the root, and every folder found so far. */
  ghost predicate Waiting(disk: Disk, result: map<Path, LocalEntry>, done: set<Path>, stack: seq<Path>) {
    forall d :: d in done || d in stack <==> d == "" || (d in result && d in disk && disk[d].DiskFolder?)
  }

  /** One folder: its visible entries, and the folders among them. */
  method ListFolder(disk: Disk, excluded: string -> bool, d: Path)
    returns (entries: map<Path, LocalEntry>, folders: seq<Path>)
    requires DiskOk(disk) && IsShownFolder(disk, excluded, d)
    ensures forall p :: p in entries <==> Shown(disk, excluded, p) && Dirname(p) == d
    ensures forall p :: p in entries ==> Shown(disk, excluded, p) && entries[p] == EntryOf(disk[p])
    ensures forall p :: p in folders <==> p in entries && p in disk && disk[p].DiskFolder?
    ensures forall i, j :: 0 <= i < j < |folders| ==> folders[i] != folders[j]
  {
    entries, folders := map[], [];
    var todo := set p | p in disk && Dirname(p) == d;
    ghost var all := todo;
    while todo != {}
      invariant todo <= all
      invariant forall p :: p in entries <==> p in all && p !in todo && Shown(disk, excluded, p)
      invariant forall p :: p in entries ==> Shown(disk, excluded, p) && entries[p] == EntryOf(disk[p])
      invariant forall p :: p in folders <==> p in entries && p in disk && disk[p].DiskFolder?
      invariant forall i, j :: 0 <= i < j < |folders| ==> folders[i] != folders[j]
      decreases todo
    {
      var p :| p in todo;
      todo := todo - {p};
      assert EntryOk(disk, p);
      HiddenByNameOrFolder(p, excluded);
      if !disk[p].Link? && !excluded(Basename(p)) {
        entries := entries[p := EntryOf(disk[p])];
        if disk[p].DiskFolder? {
          folders := folders + [p];
        }
      }
    }
  }

  lemma {:induction false} ShownIsListed(
    disk: Disk, excluded: string -> bool, result: map<Path, LocalEntry>, done: set<Path>, p: Path)
    requires DiskOk(disk) && Listed(disk, excluded, result, done) && Waiting(disk, result, done, [])
    requires Shown(disk, excluded, p)
    ensures p in result
    decreases |p|
  {
    assert EntryOk(disk, p);
    HiddenByNameOrFolder(p, excluded);
    var d := Dirname(p);
    if d != "" {
      ShownIsListed(disk, excluded, result, done, d);
    }
    assert d in done || d in [];
  }

  /** What is on the disk at a path, and its entry: kind, and for a file size and time as
      `os.stat` reports them. */
  predicate Reports(n: DiskNode, e: LocalEntry) {
    match n
    case DiskFolder => e.isFolder
    case DiskFile(size, mtime) => !e.isFolder && e.size == size && e.mtime == mtime && e.hash.None?
    case Link(_) => false
  }

  /** `_build_local_map`: pruning a folder hides exactly the paths below it, no matter
      how deep; each folder is listed once, so the walk ends. */
  method BuildLocalMap(disk: Option<Disk>, excluded: string -> bool) returns (result: map<Path, LocalEntry>)
    requires disk.Some? ==> DiskOk(disk.value)
    ensures result == if disk.None? then map[] else VisibleDisk(disk.value, excluded)
    ensures disk.Some? ==> forall p :: p in result ==> p in disk.value && Reports(disk.value[p], result[p])
  {
    result := map[];
    if disk.None? {
      return;
    }
    var fs := disk.value;
    var stack: seq<Path> := [""];
    ghost var done: set<Path> := {};
    while stack != []
      invariant forall i, j :: 0 <= i < j < |stack| ==> stack[i] != stack[j]
      invariant forall d :: d in stack ==> d !in done && IsShownFolder(fs, excluded, d)
      invariant done <= fs.Keys + {""}
      invariant Listed(fs, excluded, result, done)
      invariant Waiting(fs, result, done, stack)
      invariant forall p :: p in result ==> p in fs && !fs[p].Link? && result[p] == EntryOf(fs[p])
      decreases fs.Keys + {""} - done
    {
      var d := stack[|stack| - 1];
      var rest := stack[..|stack| - 1];
      assert stack == rest + [d];
      var entries, folders := ListFolder(fs, excluded, d);
      FolderIsDone(fs, excluded, result, done, rest, d, entries, folders);
      result := result + entries;
      stack := rest + folders;
      done := done + {d};
    }
    forall p ensures p in result <==> p in VisibleDisk(fs, excluded) {
      if Shown(fs, excluded, p) {
        ShownIsListed(fs, excluded, result, done, p);
      }
    }
  }

  lemma FolderIsDone(
    disk: Disk, excluded: string -> bool, result: map<Path, LocalEntry>, done: set<Path>, rest: seq<Path>, d: Path,
    entries: map<Path, LocalEntry>, folders: seq<Path>)
    requires DiskOk(disk) && IsShownFolder(disk, excluded, d) && d !in done && d !in rest
    requires forall i, j :: 0 <= i < j < |rest| ==> rest[i] != rest[j]
    requires forall x :: x in rest ==> x !in done && IsShownFolder(disk, excluded, x)
    requires Listed(disk, excluded, result, done) && Waiting(disk, result, done, rest + [d])
    requires forall p :: p in entries <==> Shown(disk, excluded, p) && Dirname(p) == d
    requires forall p :: p in folders <==> p in entries && p in disk && disk[p].DiskFolder?
    requires forall i, j :: 0 <= i < j < |folders| ==> folders[i] != folders[j]
    ensures Listed(disk, excluded, result + entries, done + {d})
    ensures Waiting(disk, result + entries, done + {d}, rest + folders)
    ensures forall x :: x in rest + folders ==> x !in done + {d} && IsShownFolder(disk, excluded, x)
    ensures forall i, j :: 0 <= i < j < |rest + folders| ==> (rest + folders)[i] != (rest + folders)[j]
    ensures d in disk.Keys + {""}
  {
    forall x | x in folders ensures x !in done && x != d && x !in rest && x != "" {
      assert EntryOk(disk, x);
      assert x !in result;
      assert x in done || x in rest + [d] ==> x == "" || x in result;
    }
    forall x ensures x in done + {d} || x in rest + folders
        <==> x == "" || (x in result + entries && x in disk && disk[x].DiskFolder?) {
      assert x in done || x in rest + [d] <==> x == "" || (x in result && x in disk && disk[x].DiskFolder?);
    }
    assert forall i :: 0 <= i < |folders| ==> folders[i] in folders;
    assert forall i :: 0 <= i < |rest| ==> rest[i] in rest;
  }

  // ---- the remote side: a filter over the cache ----

  function Rel(rows: CacheModel.Rows, root: CacheModel.Id, y: CacheModel.Id): Path {
    var path, base := CacheModel.PathOf(rows, y), CacheModel.PathOf(rows, root);
    if path.Some? && base.Some? then CacheModel.Tail(path.value, |base.value| + 1) else ""
  }

  /** A row of the pair's subtree that is on the drive and not hidden. */
  ghost predicate Exported(rows: CacheModel.Rows, root: CacheModel.Id, y: CacheModel.Id, excluded: string -> bool)
    requires root in rows && rows[root].path.Some?
  {
    && CacheWalk.Matches(rows, rows[root].path.value, y)
    && rows[y].remoteId.Some? && !Hidden(Rel(rows, root, y), excluded)
  }

  function RemoteEntryOf(row: CacheModel.Row): RemoteEntry
    requires row.remoteId.Some?
  {
    var etag := if row.meta.etag.Some? then row.meta.etag.value else "";
    RemoteEntry(row.isFolder, row.meta.size, etag, row.remoteId.value, row.meta.hash)
  }

  /** The row's entry is under its own relative path. */
  predicate HasEntry(rows: CacheModel.Rows, root: CacheModel.Id, result: map<Path, RemoteEntry>, y: CacheModel.Id) {
    y in rows && Rel(rows, root, y) in result && Describes(rows[y], result[Rel(rows, root, y)])
  }

  /** The cached columns of the item; no etag is the empty one. */
  predicate Describes(row: CacheModel.Row, e: RemoteEntry) {
    && row.remoteId == Some(e.itemId) && row.isFolder == e.isFolder
    && row.meta.size == e.size && row.meta.hash == e.hash
    && (row.meta.etag == Some(e.etag) || (row.meta.etag.None? && e.etag == ""))
  }

  ghost predicate ComesFromRow(rows: CacheModel.Rows, root: CacheModel.Id, excluded: string -> bool, rel: Path)
    requires root in rows && rows[root].path.Some?
  {
    exists y :: Exported(rows, root, y, excluded) && Rel(rows, root, y) == rel
  }

  lemma FoundRow(rows: CacheModel.Rows, rank: CacheModel.Id -> nat, root: CacheModel.Id, y: CacheModel.Id)
    requires CacheModel.Acyclic(rows, rank) && CacheWalk.Indexed(rows) && CacheModel.Live(rows, root)
    requires CacheWalk.Reached(rows, rank, root, y)
    ensures y in rows && rows[y].path.Some? && CacheWalk.Matches(rows, rows[root].path.value, y)
    ensures var prefix := rows[root].path.value + "/";
      var path := rows[y].path.value;
      path != rows[root].path.value && CacheWalk.IsPrefix(prefix, path) && path[|prefix|..] == Rel(rows, root, y)
  {
    CacheWalk.ReachedMatches(rows, rank, root, y);
    CacheWalk.RelativePathsAreKeys(rows, rank, root, y, y);
  }

  lemma RelsDiffer(
    rows: CacheModel.Rows, rank: CacheModel.Id -> nat, root: CacheModel.Id, y: CacheModel.Id, z: CacheModel.Id)
    requires CacheModel.Acyclic(rows, rank) && CacheWalk.Indexed(rows) && CacheModel.Live(rows, root)
    requires CacheWalk.Reached(rows, rank, root, y) && CacheWalk.Reached(rows, rank, root, z) && y != z
    ensures Rel(rows, root, y) != Rel(rows, root, z)
  {
    CacheWalk.RelativePathsAreKeys(rows, rank, root, y, z);
    FoundRow(rows, rank, root, y);
    FoundRow(rows, rank, root, z);
  }

  /** The map after the rows of `done`. */
  ghost predicate BuiltFrom(
    rows: CacheModel.Rows, root: CacheModel.Id, excluded: string -> bool, done: seq<CacheModel.Id>,
    result: map<Path, RemoteEntry>)
    requires root in rows && rows[root].path.Some?
  {
    && (forall y :: y in done && Exported(rows, root, y, excluded) ==> HasEntry(rows, root, result, y))
    && (forall rel :: rel in result ==> ComesFromRow(rows, root, excluded, rel))
  }

  lemma OneMoreEntry(
    rows: CacheModel.Rows, rank: CacheModel.Id -> nat, root: CacheModel.Id, excluded: string -> bool,
    done: seq<CacheModel.Id>, result: map<Path, RemoteEntry>, y: CacheModel.Id)
    requires CacheModel.Acyclic(rows, rank) && CacheWalk.Indexed(rows) && CacheModel.Live(rows, root)
    requires BuiltFrom(rows, root, excluded, done, result)
    requires forall z :: z in done ==> z != y && CacheWalk.Reached(rows, rank, root, z)
    requires CacheWalk.Reached(rows, rank, root, y) && Exported(rows, root, y, excluded)
    ensures BuiltFrom(rows, root, excluded, done + [y], result[Rel(rows, root, y) := RemoteEntryOf(rows[y])])
  {
    var next := result[Rel(rows, root, y) := RemoteEntryOf(rows[y])];
    forall z | z in done + [y] && Exported(rows, root, z, excluded) ensures HasEntry(rows, root, next, z) {
      if z != y {
        assert z in done;
        RelsDiffer(rows, rank, root, y, z);
      }
    }
  }

  /** `_build_remote_map`: the walk's rows under their relative paths. Every visible row
      of the subtree gets its own key, whatever the order. */
  method BuildRemoteMap(
    rows: CacheModel.Rows, ghost rank: CacheModel.Id -> nat, root: CacheModel.Id, excluded: string -> bool)
    returns (result: map<Path, RemoteEntry>)
    requires CacheModel.Acyclic(rows, rank) && CacheWalk.Indexed(rows) && CacheModel.Live(rows, root)
    ensures forall y :: Exported(rows, root, y, excluded) ==> HasEntry(rows, root, result, y)
    ensures forall rel :: rel in result ==> ComesFromRow(rows, root, excluded, rel)
  {
    var base := rows[root].path.value;
    var prefix := base + "/";
    var found := CacheWalk.ListDescendants(rows, rank, root);
    result := map[];
    for i := 0 to |found|
      invariant BuiltFrom(rows, root, excluded, found[..i], result)
    {
      var y := found[i];
      assert y in found && found[..i + 1] == found[..i] + [y];
      FoundRow(rows, rank, root, y);
      var path := rows[y].path.value;
      if path == base || !CacheWalk.IsPrefix(prefix, path) {
        assert false;
      }
      var rel := path[|prefix|..];
      if !Hidden(rel, excluded) && rows[y].remoteId.Some? {
        OneMoreEntry(rows, rank, root, excluded, found[..i], result, y);
        result := result[rel := RemoteEntryOf(rows[y])];
      }
    }
    assert found[..|found|] == found;
    forall y | Exported(rows, root, y, excluded) ensures HasEntry(rows, root, result, y) {
      CacheWalk.MatchesIsReached(rows, rank, root, y);
    }
  }

  // ---- the baselines: the same filter ----

  /** `list_pair_files` yields each path once. */
  method BuildSyncedMap(pairFiles: map<Path, SyncedEntry>, excluded: string -> bool)
    returns (result: map<Path, SyncedEntry>)
    ensures result == Visible(pairFiles, excluded)
  {
    result := map[];
    var todo := pairFiles.Keys;
    while todo != {}
      invariant todo <= pairFiles.Keys
      invariant result == map p | p in pairFiles && p !in todo && !Hidden(p, excluded) :: pairFiles[p]
      decreases todo
    {
      var p :| p in todo;
      todo := todo - {p};
      if !Hidden(p, excluded) {
        result := result[p := pairFiles[p]];
      }
    }
  }

  function Visible<E>(m: map<Path, E>, excluded: string -> bool): map<Path, E> {
    map p | p in m && !Hidden(p, excluded) :: m[p]
  }

  // ---- what the filters mean for a pass ----

  function VisibleMaps(m: Maps, excluded: string -> bool): Maps {
    Maps(Visible(m.local, excluded), Visible(m.remote, excluded), Visible(m.synced, excluded))
  }

  /** Reconciling filtered maps is filtering the reconciliation. */
  lemma FilterCommutes(m: Maps, excluded: string -> bool, bootstrap: bool)
    ensures VisibleMaps(m, excluded).Classified(bootstrap) == Visible(m.Classified(bootstrap), excluded)
  {
    var v := VisibleMaps(m, excluded);
    forall p ensures v.ActionAt(p, bootstrap) == if Hidden(p, excluded) then None else m.ActionAt(p, bootstrap) {
      assert Hidden(p, excluded) ==> Get(v.local, p) == None && Get(v.remote, p) == None && Get(v.synced, p) == None;
      assert !Hidden(p, excluded) ==>
        Get(v.local, p) == Get(m.local, p) && Get(v.remote, p) == Get(m.remote, p) && Get(v.synced, p) == Get(m.synced, p);
    }
    forall p ensures p in v.Classified(bootstrap) <==> p in Visible(m.Classified(bootstrap), excluded) {
      ClassifiedIsTotal(v, bootstrap, p);
      ClassifiedIsTotal(m, bootstrap, p);
    }
  }

  /** So a plan holds an action for every visible path that needs one and for no other. */
  lemma PlanIsVisible(m: Maps, excluded: string -> bool, bootstrap: bool, plan: seq<Action>, p: Path)
    requires ValidPlan(plan, VisibleMaps(m, excluded).Classified(bootstrap))
    ensures (exists a :: a in plan && a.path == p) <==> m.ActionAt(p, bootstrap).Some? && !Hidden(p, excluded)
  {
    FilterCommutes(m, excluded, bootstrap);
    ClassifiedIsTotal(m, bootstrap, p);
    var classified := VisibleMaps(m, excluded).Classified(bootstrap);
    if p in classified {
      assert classified[p] in plan && classified[p].path == p;
    }
  }
}
