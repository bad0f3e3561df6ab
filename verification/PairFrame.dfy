/** What durable writes leave alone, whatever state they start from. */
module PairFrame {
  import opened Basics
  import opened Paths
  import opened Reconcile
  import opened PairWorld

  /** `mkdir -p` changes nothing that exists, and adds only folders on the way. */
  lemma {:induction false} MakeDirsKeeps(m: map<Path, LocalNode>, d: Path)
    ensures MakeDirs(m, d).Some? ==>
      forall x :: x in m ==> x in MakeDirs(m, d).value && MakeDirs(m, d).value[x] == m[x]
    ensures MakeDirs(m, d).Some? ==>
      forall x :: x in MakeDirs(m, d).value && x !in m ==>
        MakeDirs(m, d).value[x] == LOCAL_DIR && x != "" && (x == d || Below(d, x))
    decreases |d|
  {
    if d != "" && d !in m {
      MakeDirsKeeps(m, Dirname(d));
      if Dirname(d) != "" {
        DirnameIsOneUp(d);
        forall x | Below(Dirname(d), x) ensures Below(d, x) { BelowTransitive(d, Dirname(d), x); }
      } else if MakeDirs(m, "").Some? {
        assert MakeDirs(m, "") == Some(m);
      }
    }
  }

  /** The paths an action may write to: its own, and a conflict's copy. */
  predicate MayWrite(pass: Pass, env: Env, a: Action, q: Path) {
    q == a.path || (a.kind == CONFLICT && (q == env.copyName(a.path) || q == CopyTarget(pass, env.copyName(a.path))))
  }

  /** A durable write leaves every other baseline alone. */
  lemma WriteLeavesBaselines(w: World, pass: Pass, env: Env, a: Action, n: nat, q: Path)
    requires !MayWrite(pass, env, a, q)
    ensures Get(Write(w, pass, env, a, n).w.synced, q) == Get(w.synced, q)
  {
    if a.kind == CONFLICT {
      ConflictLeavesBaselines(w, pass, env, a, n, q);
    } else if a.kind in {UPLOAD, DOWNLOAD} {
      TransferLeavesBaselines(w, pass, env, a, n, q);
    }
  }

  lemma ConflictLeavesBaselines(w: World, pass: Pass, env: Env, a: Action, n: nat, q: Path)
    requires a.kind == CONFLICT && q != a.path && q != env.copyName(a.path)
    ensures Get(Write(w, pass, env, a, n).w.synced, q) == Get(w.synced, q)
  {
  }

  lemma TransferLeavesBaselines(w: World, pass: Pass, env: Env, a: Action, n: nat, q: Path)
    requires a.kind in {UPLOAD, DOWNLOAD} && q != a.path
    ensures Get(Write(w, pass, env, a, n).w.synced, q) == Get(w.synced, q)
  {
  }

  /** And every other local entry: `rmdir` refuses a folder that still holds something. */
  lemma WriteLeavesLocal(w: World, pass: Pass, env: Env, a: Action, n: nat, q: Path)
    requires !MayWrite(pass, env, a, q) && q in w.local
    ensures var v := Write(w, pass, env, a, n).w; q in v.local && v.local[q] == w.local[q]
  {
    match a.kind
    case CREATE_LOCAL_DIR => MakeDirsKeeps(w.local, a.path);
    case DOWNLOAD => MakeDirsKeeps(w.local, Dirname(a.path));
    case CONFLICT => MakeDirsKeeps(w.local, Dirname(a.path));
    case _ =>
  }

  /** A remote entry disappears or changes if and only if a folder above it is deleted. */
  lemma WriteTakesRemoteIff(w: World, pass: Pass, env: Env, a: Action, n: nat, q: Path)
    requires !MayWrite(pass, env, a, q) && q in w.remote
    ensures Get(Write(w, pass, env, a, n).w.remote, q) != Get(w.remote, q)
       <==> a.kind == DELETE_REMOTE && n == 1 && Write(w, pass, env, a, n).Done? && Below(q, a.path)
  {
    if a.kind == DELETE_REMOTE { DeleteTakesRemoteIff(w, pass, a, n, q); } else { RemoteEffect(w, pass, env, a, n, q); }
  }

  lemma DeleteTakesRemoteIff(w: World, pass: Pass, a: Action, n: nat, q: Path)
    requires q != a.path && q in w.remote
    ensures Get(DeleteRemoteWrite(w, pass, a, n).w.remote, q) != Get(w.remote, q)
       <==> n == 1 && DeleteRemoteWrite(w, pass, a, n).Done? && Below(q, a.path)
  {
  }

  lemma {:induction false} WritesLeaveOthers(w: World, pass: Pass, env: Env, a: Action, n: nat, q: Path)
    requires !MayWrite(pass, env, a, q)
    ensures var v := Writes(w, pass, env, a, n).w;
      && Get(v.synced, q) == Get(w.synced, q)
      && (q in w.local ==> q in v.local && v.local[q] == w.local[q])
  {
    if n > 0 {
      WritesLeaveOthers(w, pass, env, a, n - 1, q);
      if Writes(w, pass, env, a, n - 1).Done? {
        var u := Writes(w, pass, env, a, n - 1).w;
        WriteLeavesBaselines(u, pass, env, a, n, q);
        if q in u.local { WriteLeavesLocal(u, pass, env, a, n, q); }
      }
    }
  }

  /** What one durable write can do to the remote tree. */
  lemma RemoteEffect(v: World, pass: Pass, env: Env, a: Action, n: nat, x: Path)
    ensures var r := Write(v, pass, env, a, n).w.remote;
      && (a.kind == DELETE_REMOTE ==> r == v.remote || r == map y | y in v.remote && y != a.path && !Below(y, a.path) :: v.remote[y])
      && (a.kind in {CREATE_LOCAL_DIR, DOWNLOAD, DELETE_LOCAL, PURGE_TOMBSTONE} ==> r == v.remote)
      && (a.kind in {UPLOAD, CREATE_REMOTE_DIR} && x != a.path ==> Get(r, x) == Get(v.remote, x))
      && (a.kind == CONFLICT && x != CopyTarget(pass, env.copyName(a.path)) ==> Get(r, x) == Get(v.remote, x))
  {
    if a.kind == CONFLICT {
      if x != CopyTarget(pass, env.copyName(a.path)) { ConflictRemoteEffect(v, pass, env, a, n, x); }
    } else if a.kind == UPLOAD {
      UploadRemoteEffect(v, pass, env, a, n, x);
    } else if a.kind in {CREATE_LOCAL_DIR, DOWNLOAD} {
      FetchKeepsRemote(v, pass, env, a, n);
    }
  }

  lemma UploadRemoteEffect(v: World, pass: Pass, env: Env, a: Action, n: nat, x: Path)
    ensures x != a.path ==> Get(UploadWrite(v, pass, env, a, n).w.remote, x) == Get(v.remote, x)
  {
  }

  lemma FetchKeepsRemote(v: World, pass: Pass, env: Env, a: Action, n: nat)
    ensures DownloadWrite(v, pass, env, a, n).w.remote == v.remote && CreateLocalDirWrite(v, pass, a.path, n).w.remote == v.remote
  {
  }

  lemma ConflictRemoteEffect(v: World, pass: Pass, env: Env, a: Action, n: nat, x: Path)
    requires a.kind == CONFLICT && x != CopyTarget(pass, env.copyName(a.path))
    ensures Get(Write(v, pass, env, a, n).w.remote, x) == Get(v.remote, x)
  {
    if n == 2 { CopyRemoteEffect(v, pass, env, a.path, x); } else { ConflictKeepsRemote(v, pass, env, a.path, n); }
  }

  lemma CopyRemoteEffect(v: World, pass: Pass, env: Env, p: Path, x: Path)
    requires x != CopyTarget(pass, env.copyName(p))
    ensures Get(ConflictWrite(v, pass, env, p, 2).w.remote, x) == Get(v.remote, x)
  {
  }

  lemma ConflictKeepsRemote(v: World, pass: Pass, env: Env, p: Path, n: nat)
    requires n != 2
    ensures ConflictWrite(v, pass, env, p, n).w.remote == v.remote
  {
  }

  lemma {:induction false} RunKeepsSnapshot(w: World, pass: Pass, env: Env, acts: seq<Action>, k: nat)
    requires k <= |acts|
    ensures Run(w, pass, env, acts, k).1.snapshot == pass.snapshot
  {
    if k > 0 {
      RunKeepsSnapshot(w, pass, env, acts, k - 1);
    }
  }

  /** No conflict copy gets the name `q`. */
  predicate NoCopyAt(acts: seq<Action>, pass: Pass, env: Env, q: Path) {
    forall a :: a in acts && a.kind == CONFLICT ==>
      q != env.copyName(a.path) && q != CopyTarget(pass, env.copyName(a.path))
  }
}
