/** The Folder Pair worker: the imperative pass, proved against `PairWorld`. */
module PairWorker {
  import opened Basics
  import opened Paths
  import opened Reconcile
  import opened PairWorld
  import opened PairSafety
  import opened PairPass
  import opened PairBootstrap

  /** The steps after an action's last durable write write nothing. */
  lemma WritesEnd(w: World, pass: Pass, env: Env, a: Action, last: nat, n: nat)
    requires last <= n
    requires a.kind == PURGE_TOMBSTONE ==> last >= 1
    requires a.kind in {CREATE_LOCAL_DIR, CREATE_REMOTE_DIR, UPLOAD, DELETE_LOCAL, DELETE_REMOTE} ==> last >= 2
    requires a.kind == DOWNLOAD ==> last >= 3
    requires a.kind == CONFLICT ==> last >= 6
    ensures Writes(w, pass, env, a, n) == Writes(w, pass, env, a, last)
    decreases n
  {
    if last < n { WritesEnd(w, pass, env, a, last, n - 1); }
  }

  lemma {:induction false} StoppedStays(w: World, pass: Pass, env: Env, a: Action, m: nat, n: nat)
    requires m <= n && Writes(w, pass, env, a, m).Stopped?
    ensures Writes(w, pass, env, a, n) == Writes(w, pass, env, a, m)
    decreases n
  {
    if m < n { StoppedStays(w, pass, env, a, m, n - 1); }
  }

  class Worker {
    var local: map<Path, LocalNode>
    var remote: map<Path, RemoteNode>
    var synced: map<Path, SyncedEntry>
    /** `last_sync_at` is still null. */
    var bootstrap: bool

    constructor (w: World)
      ensures World() == w && bootstrap
    {
      local, remote, synced := w.local, w.remote, w.synced;
      bootstrap := true;
    }

    function World(): World
      reads this
    {
      PairWorld.World(local, remote, synced)
    }

    // ---- the file system and the server ----

    /** `mkdir(parents=True, exist_ok=True)`: walks up to the first folder that
        exists, then down again. */
    method MakeFolders(d: Path) returns (ok: bool)
      modifies this`local
      ensures MakeDirs(old(local), d) == if ok then Some(local) else None
      ensures !ok ==> local == old(local)
      decreases |d|
    {
      if d == "" {
        return true;
      }
      if d in local {
        return local[d].entry.isFolder;
      }
      ok := MakeFolders(Dirname(d));
      if ok {
        local := local[d := LOCAL_DIR];
      }
    }

    method DownloadContent(env: Env, p: Path, id: string) returns (ok: bool)
      modifies this`local
      ensures Try(old(World()), Download(old(World()), env, p, id)) == if ok then Done(World()) else Stopped(World())
    {
      if p !in remote || remote[p].entry.itemId != id || remote[p].entry.isFolder {
        return false;
      }
      if (p in local && local[p].entry.isFolder) || !HasLocalFolder(World(), p) {
        return false;
      }
      local := local[p := Downloaded(env, p, remote[p].content)];
      ok := true;
    }

    method UploadFile(env: Env, from: Path, to: Path, parent: string) returns (ok: bool)
      modifies this`remote
      ensures Try(old(World()), UploadNew(old(World()), env, from, to, parent)) == if ok then Done(World()) else Stopped(World())
    {
      if from !in local || local[from].entry.isFolder || !IsParentFolder(World(), to, parent) {
        return false;
      }
      var id := env.newId(to);
      if to in remote {
        if remote[to].entry.isFolder {
          return false;
        }
        id := remote[to].entry.itemId;
      }
      remote := remote[to := Uploaded(env, to, id, local[from].content)];
      ok := true;
    }

    method ReplaceFile(env: Env, p: Path, id: string, etag: Option<string>) returns (ok: bool)
      modifies this`remote
      ensures Try(old(World()), UploadOver(old(World()), env, p, id, etag)) == if ok then Done(World()) else Stopped(World())
    {
      ok := p in local && !local[p].entry.isFolder && p in remote && !remote[p].entry.isFolder
        && remote[p].entry.itemId == id
        && (|local[p].content| <= SIMPLE_UPLOAD_MAX_BYTES || etag == Some(remote[p].entry.etag));
      if ok {
        remote := remote[p := Uploaded(env, p, id, local[p].content)];
      }
    }

    // ---- the actions, each ending at the first exception ----

    method CreateRemoteDir(pass: Pass, env: Env, a: Action) returns (ok: bool)
      requires a.kind == CREATE_REMOTE_DIR
      modifies this`remote, this`synced
      ensures Writes(old(World()), pass, env, a, STEPS) == if ok then Done(World()) else Stopped(World())
    {
      ghost var w := World();
      var parent := pass.Parent(a.path);
      if parent.None? || !IsParentFolder(World(), a.path, parent.value) || a.path in remote {
        StoppedStays(w, pass, env, a, 1, STEPS);
        return false;
      }
      remote := remote[a.path := NewRemoteFolder(env, a.path)];
      assert Writes(w, pass, env, a, 1) == Done(World());
      synced := synced[a.path := FolderBaseline(remote[a.path].entry.itemId, remote[a.path].entry.etag)];
      assert Writes(w, pass, env, a, 2) == Done(World());
      WritesEnd(w, pass, env, a, 2, STEPS);
      ok := true;
    }

    method CreateLocalDir(pass: Pass, env: Env, a: Action) returns (ok: bool)
      requires a.kind == CREATE_LOCAL_DIR
      modifies this`local, this`synced
      ensures Writes(old(World()), pass, env, a, STEPS) == if ok then Done(World()) else Stopped(World())
    {
      ghost var w := World();
      ok := MakeFolders(a.path);
      if !ok {
        StoppedStays(w, pass, env, a, 1, STEPS);
        return;
      }
      assert Writes(w, pass, env, a, 1) == Done(World());
      if a.path !in pass.snapshot {
        StoppedStays(w, pass, env, a, 2, STEPS);
        return false;
      }
      synced := synced[a.path := FolderBaseline(pass.snapshot[a.path].itemId, pass.snapshot[a.path].etag)];
      assert Writes(w, pass, env, a, 2) == Done(World());
      WritesEnd(w, pass, env, a, 2, STEPS);
    }

    method Upload(pass: Pass, env: Env, a: Action) returns (ok: bool)
      requires a.kind == UPLOAD
      modifies this`remote, this`synced
      ensures Writes(old(World()), pass, env, a, STEPS) == if ok then Done(World()) else Stopped(World())
    {
      ghost var w := World();
      var parent := pass.Parent(a.path);
      if parent.None? {
        ok := false;
      } else if a.itemId.None? {
        ok := UploadFile(env, a.path, a.path, parent.value);
      } else {
        ok := ReplaceFile(env, a.path, a.itemId.value, a.etag);
      }
      if !ok {
        StoppedStays(w, pass, env, a, 1, STEPS);
        return;
      }
      assert Writes(w, pass, env, a, 1) == Done(World());
      var sent := remote[a.path].entry;
      synced := synced[a.path := FileBaseline(sent.itemId, sent.etag, local[a.path].entry)];
      assert Writes(w, pass, env, a, 2) == Done(World());
      WritesEnd(w, pass, env, a, 2, STEPS);
    }

    method DownloadFile(pass: Pass, env: Env, a: Action) returns (ok: bool)
      requires a.kind == DOWNLOAD
      modifies this`local, this`synced
      ensures Writes(old(World()), pass, env, a, STEPS) == if ok then Done(World()) else Stopped(World())
    {
      ghost var w := World();
      ok := MakeFolders(Dirname(a.path));
      if !ok {
        StoppedStays(w, pass, env, a, 1, STEPS);
        return;
      }
      assert Writes(w, pass, env, a, 1) == Done(World());
      if a.itemId.None? {
        StoppedStays(w, pass, env, a, 2, STEPS);
        return false;
      }
      ok := DownloadContent(env, a.path, a.itemId.value);
      if !ok {
        StoppedStays(w, pass, env, a, 2, STEPS);
        return;
      }
      assert Writes(w, pass, env, a, 2) == Done(World());
      if a.path !in pass.snapshot {
        StoppedStays(w, pass, env, a, 3, STEPS);
        return false;
      }
      var r := pass.snapshot[a.path];
      synced := synced[a.path := FileBaseline(r.itemId, r.etag, local[a.path].entry)];
      assert Writes(w, pass, env, a, 3) == Done(World());
      WritesEnd(w, pass, env, a, 3, STEPS);
    }

    method DeleteRemote(pass: Pass, env: Env, a: Action) returns (ok: bool)
      requires a.kind == DELETE_REMOTE
      modifies this`remote, this`synced
      ensures Writes(old(World()), pass, env, a, STEPS) == if ok then Done(World()) else Stopped(World())
    {
      ghost var w := World();
      var p := a.path;
      if p !in remote || a.itemId != Some(remote[p].entry.itemId)
         || (p in pass.snapshot && pass.snapshot[p].etag !in {"", remote[p].entry.etag}) {
        StoppedStays(w, pass, env, a, 1, STEPS);
        return false;
      }
      remote := map q | q in remote && q != p && !Below(q, p) :: remote[q];
      assert Writes(w, pass, env, a, 1) == Done(World());
      synced := synced - {p};
      assert Writes(w, pass, env, a, 2) == Done(World());
      WritesEnd(w, pass, env, a, 2, STEPS);
      ok := true;
    }

    method DeleteLocal(pass: Pass, env: Env, a: Action) returns (ok: bool)
      requires a.kind == DELETE_LOCAL
      modifies this`local, this`synced
      ensures Writes(old(World()), pass, env, a, STEPS) == if ok then Done(World()) else Stopped(World())
    {
      ghost var w := World();
      var p := a.path;
      if p in local && local[p].entry.isFolder && exists q :: q in local && Below(q, p) {
        StoppedStays(w, pass, env, a, 1, STEPS);
        return false;
      }
      local := local - {p};
      assert Writes(w, pass, env, a, 1) == Done(World());
      synced := synced - {p};
      assert Writes(w, pass, env, a, 2) == Done(World());
      WritesEnd(w, pass, env, a, 2, STEPS);
      ok := true;
    }

    /** Keep both: rename, upload the copy and record it, then fetch the original. */
    method ResolveConflict(pass: Pass, env: Env, a: Action) returns (ok: bool)
      requires a.kind == CONFLICT
      modifies this`local, this`remote, this`synced
      ensures Writes(old(World()), pass, env, a, STEPS) == if ok then Done(World()) else Stopped(World())
    {
      ghost var w := World();
      ok := ClaimAndUploadCopy(pass, env, a);
      if !ok {
        StoppedStays(w, pass, env, a, 3, STEPS);
        return;
      }
      ok := MakeFolders(Dirname(a.path));
      if !ok {
        StoppedStays(w, pass, env, a, 4, STEPS);
        return;
      }
      assert Writes(w, pass, env, a, 4) == Done(World());
      if a.path !in pass.snapshot {
        StoppedStays(w, pass, env, a, 5, STEPS);
        return false;
      }
      var r := pass.snapshot[a.path];
      ok := DownloadContent(env, a.path, r.itemId);
      if !ok {
        StoppedStays(w, pass, env, a, 5, STEPS);
        return;
      }
      assert Writes(w, pass, env, a, 5) == Done(World());
      synced := synced[a.path := FileBaseline(r.itemId, r.etag, local[a.path].entry)];
      assert Writes(w, pass, env, a, 6) == Done(World());
    }

    method ClaimAndUploadCopy(pass: Pass, env: Env, a: Action) returns (ok: bool)
      requires a.kind == CONFLICT
      modifies this`local, this`remote, this`synced
      ensures Writes(old(World()), pass, env, a, 3) == if ok then Done(World()) else Stopped(World())
    {
      ghost var w := World();
      var p, copy := a.path, env.copyName(a.path);
      if p !in local || copy in local || p !in pass.snapshot {
        StoppedStays(w, pass, env, a, 1, 3);
        return false;
      }
      local := (local - {p})[copy := local[p]];
      assert Writes(w, pass, env, a, 1) == Done(World());
      var target := CopyTarget(pass, copy);
      ok := UploadFile(env, copy, target, CopyParent(pass, copy));
      if !ok {
        StoppedStays(w, pass, env, a, 2, 3);
        return;
      }
      assert Writes(w, pass, env, a, 2) == Done(World());
      var sent := remote[target].entry;
      synced := synced[copy := FileBaseline(sent.itemId, sent.etag, local[copy].entry)];
      assert Writes(w, pass, env, a, 3) == Done(World());
    }

    method ExecuteAction(pass: Pass, env: Env, a: Action) returns (next: Pass, ok: bool)
      modifies this`local, this`remote, this`synced
      ensures (World(), next) == Execute(old(World()), pass, env, a)
      ensures ok == Writes(old(World()), pass, env, a, STEPS).Done?
    {
      ghost var w := World();
      next := pass;
      match a.kind {
        case CREATE_REMOTE_DIR =>
          ok := CreateRemoteDir(pass, env, a);
          if ok { next := pass.(created := pass.created[a.path := env.newId(a.path)]); }
        case CREATE_LOCAL_DIR => ok := CreateLocalDir(pass, env, a);
        case UPLOAD => ok := Upload(pass, env, a);
        case DOWNLOAD => ok := DownloadFile(pass, env, a);
        case DELETE_REMOTE => ok := DeleteRemote(pass, env, a);
        case DELETE_LOCAL => ok := DeleteLocal(pass, env, a);
        case PURGE_TOMBSTONE =>
          synced := synced - {a.path};
          WritesEnd(w, pass, env, a, 1, STEPS);
          ok := true;
        case CONFLICT => ok := ResolveConflict(pass, env, a);
      }
    }

    /** The two baseline loops of a completed bootstrap pass. */
    method WriteBootstrapBaselines(m: Maps, acted: set<Path>)
      modifies this`synced
      ensures synced == old(synced) + BootstrapBaselines(m, acted)
    {
      WriteFileBaselines(m, acted);
      WriteFolderBaselines(m);
    }

    method WriteFileBaselines(m: Maps, acted: set<Path>)
      modifies this`synced
      ensures synced == old(synced) + FileBaselines(m, acted)
    {
      var todo := m.local.Keys;
      while todo != {}
        invariant todo <= m.local.Keys
        invariant synced == old(synced) + (FileBaselines(m, acted) - todo)
        decreases todo
      {
        var p :| p in todo;
        todo := todo - {p};
        if GetsFileBaseline(m, acted, p) {
          synced := synced[p := FileBaseline(m.remote[p].itemId, m.remote[p].etag, m.local[p])];
        }
      }
      assert FileBaselines(m, acted) - todo == FileBaselines(m, acted);
    }

    method WriteFolderBaselines(m: Maps)
      modifies this`synced
      ensures synced == old(synced) + FolderBaselines(m)
    {
      var todo := m.local.Keys;
      while todo != {}
        invariant todo <= m.local.Keys
        invariant synced == old(synced) + (FolderBaselines(m) - todo)
        decreases todo
      {
        var p :| p in todo;
        todo := todo - {p};
        if GetsFolderBaseline(m, p) {
          synced := synced[p := FolderBaseline(m.remote[p].itemId, m.remote[p].etag)];
        }
      }
      assert FolderBaselines(m) - todo == FolderBaselines(m);
    }

    /** The action loop; the stop flag is seen before action `stopAt`. */
    method RunActions(plan: seq<Action>, env: Env, stopAt: nat)
      returns (done: nat, acted: set<Path>, unresolvedNewItem: bool)
      modifies this`local, this`remote, this`synced
      ensures done == if stopAt < |plan| then stopAt else |plan|
      ensures World() == Run(old(World()), StartPass(old(World())), env, plan, done).0
      ensures acted == ActedPaths(plan, done)
      ensures unresolvedNewItem <==> TakenNameMet(old(World()), env, plan, done)
    {
      ghost var w := World();
      var pass := StartPass(World());
      acted, unresolvedNewItem, done := {}, false, 0;
      while done < |plan| && done != stopAt
        invariant done <= |plan| && done <= stopAt
        invariant unresolvedNewItem <==> TakenNameMet(w, env, plan, done)
        invariant (World(), pass) == Run(w, StartPass(w), env, plan, done)
        invariant acted == ActedPaths(plan, done)
      {
        var a := plan[done];
        var taken := a.kind == CREATE_REMOTE_DIR && a.path in remote;
        var ok;
        pass, ok := ExecuteAction(pass, env, a);
        assert MeetsTakenName(w, env, plan, done) <==> taken && !ok;
        unresolvedNewItem := unresolvedNewItem || (taken && !ok);
        acted := acted + {a.path};
        done := done + 1;
      }
    }

    /** One pass. A pass that was stopped, or that met a name the server already had,
        leaves `last_sync_at` alone, so a bootstrap pass stays one until it completes. */
    method SyncOnePair(env: Env, stopAt: nat) returns (plan: seq<Action>, done: nat, complete: bool)
      modifies this
      ensures PlanFor(plan, old(World()), old(bootstrap))
      ensures done == if stopAt < |plan| then stopAt else |plan|
      ensures var end := Run(old(World()), StartPass(old(World())), env, plan, done).0;
        World() == if complete && old(bootstrap) then WithBaselines(old(World()), end, ActedPaths(plan, done)) else end
      ensures complete ==> stopAt >= |plan| && !bootstrap
      ensures !complete ==> bootstrap == old(bootstrap)
      ensures complete <==> stopAt >= |plan| && !TakenNameMet(old(World()), env, plan, done)
      ensures Unhindered(old(World()), env, old(bootstrap)) && stopAt >= |plan| ==>
        complete && PlanFor([], World(), false)
    {
      ghost var w, wasBootstrap := World(), bootstrap;
      var m := World().Maps();
      plan := ReconcilePair(m, bootstrap);
      var acted, unresolvedNewItem;
      done, acted, unresolvedNewItem := RunActions(plan, env, stopAt);
      complete := done == |plan| && !unresolvedNewItem;
      if complete {
        if bootstrap {
          WriteBootstrapBaselines(m, acted);
        }
        bootstrap := false;
      }
      CompletePass(w, env, plan, wasBootstrap);
    }
  }

  /** The server already has something under the name of a new folder. */
  predicate MeetsTakenName(w: World, env: Env, plan: seq<Action>, i: nat)
    requires i < |plan|
  {
    var (v, pass) := Run(w, StartPass(w), env, plan, i);
    plan[i].kind == CREATE_REMOTE_DIR && plan[i].path in v.remote && !Writes(v, pass, env, plan[i], STEPS).Done?
  }

  predicate TakenNameMet(w: World, env: Env, plan: seq<Action>, n: nat)
    requires n <= |plan|
  {
    exists i :: 0 <= i < n && MeetsTakenName(w, env, plan, i)
  }

  /** From a good world nothing stands in a pass's way, and it leaves nothing to do. */
  lemma CompletePass(w: World, env: Env, plan: seq<Action>, bootstrap: bool)
    requires PlanFor(plan, w, bootstrap)
    ensures Unhindered(w, env, bootstrap) ==>
      && !TakenNameMet(w, env, plan, |plan|)
      && var end := Run(w, StartPass(w), env, plan, |plan|).0;
         PlanFor([], if bootstrap then WithBaselines(w, end, ActedPaths(plan, |plan|)) else end, false)
  {
    if Unhindered(w, env, bootstrap) { UnhinderedPass(w, env, plan, bootstrap); }
  }

  ghost predicate Unhindered(w: World, env: Env, bootstrap: bool) { Good(w) && FreshCopies(w, env, bootstrap) }

  lemma UnhinderedPass(w: World, env: Env, plan: seq<Action>, bootstrap: bool)
    requires Unhindered(w, env, bootstrap) && PlanFor(plan, w, bootstrap)
    ensures !TakenNameMet(w, env, plan, |plan|)
    ensures var end := Run(w, StartPass(w), env, plan, |plan|).0;
      PlanFor([], if bootstrap then WithBaselines(w, end, ActedPaths(plan, |plan|)) else end, false)
  {
    forall i | 0 <= i < |plan| ensures !MeetsTakenName(w, env, plan, i) {
      NthRuns(w, env, plan, bootstrap, i);
    }
    if bootstrap {
      BootstrapThenNothing(w, env, plan);
    } else {
      ResumeIsExact(w, env, plan, false, |plan|);
      assert plan[|plan|..] == [];
    }
  }
}
