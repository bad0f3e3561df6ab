/** A server on which a folder's etag changes with its children: a folder's delete is
    refused in a pass that has already changed something directly inside it. */
module PairDrift {
  import opened Basics
  import opened Paths
  import opened Reconcile
  import opened PairWorld
  import opened PairSafety
  import opened PairEffect
  import opened PairInvariant
  import opened PairPass
  import opened PairMerge
  import opened PairFrame

  /** The remote path an action adds, replaces or removes. */
  function RemotePath(pass: Pass, env: Env, a: Action): Path {
    if a.kind == CONFLICT then CopyTarget(pass, env.copyName(a.path)) else a.path
  }

  /** The pass's map has the etag from before the pass: 412 for a touched folder. */
  predicate Refused(a: Action, touched: set<Path>) { a.kind == DELETE_REMOTE && a.path in touched }

  /** World, pass, folders whose etag has changed since the pass began, deletes refused. */
  datatype Drift = Drift(w: World, pass: Pass, touched: set<Path>, refused: set<Path>)

  function DriftExecute(s: Drift, env: Env, a: Action): Drift {
    if Refused(a, s.touched) then s.(refused := s.refused + {a.path})
    else
      var (v, next) := Execute(s.w, s.pass, env, a);
      Drift(v, next, if v.remote != s.w.remote then s.touched + {Dirname(RemotePath(s.pass, env, a))} else s.touched, s.refused)
  }

  function DriftFrom(w: World, pass: Pass, env: Env, acts: seq<Action>, k: nat): Drift
    requires k <= |acts|
  {
    if k == 0 then Drift(w, pass, {}, {}) else DriftExecute(DriftFrom(w, pass, env, acts, k - 1), env, acts[k - 1])
  }

  function DriftRun(w: World, env: Env, acts: seq<Action>, k: nat): Drift
    requires k <= |acts|
  {
    DriftFrom(w, StartPass(w), env, acts, k)
  }

  // ---- the same pass on a server with still folder etags ----

  /** The world without the entries whose deletes were refused. */
  function Minus(u: World, refused: set<Path>): World {
    World(u.local, u.remote - refused, u.synced - refused)
  }

  /** A write that goes through without the refused entries goes through with them, to
      the same effect on the rest. */
  predicate Commutes(u: World, refused: set<Path>, pass: Pass, env: Env, a: Action, n: nat) {
    var o, o' := Write(Minus(u, refused), pass, env, a, n), Write(u, pass, env, a, n);
    o.Done? ==> o'.Done? && o.w == Minus(o'.w, refused)
  }

  predicate Clear(refused: set<Path>, pass: Pass, env: Env, a: Action) {
    a.path !in refused
    && (a.kind == CONFLICT ==> env.copyName(a.path) !in refused && CopyTarget(pass, env.copyName(a.path)) !in refused)
  }

  lemma MinusPut<V>(m: map<Path, V>, refused: set<Path>, p: Path, x: V)
    requires p !in refused
    ensures (m - refused)[p := x] == m[p := x] - refused
    ensures (m - refused) - {p} == (m - {p}) - refused
  {
  }

  lemma CreateCommutes(u: World, refused: set<Path>, pass: Pass, env: Env, a: Action, n: nat)
    requires Clear(refused, pass, env, a) && a.kind in {CREATE_REMOTE_DIR, CREATE_LOCAL_DIR}
    ensures Commutes(u, refused, pass, env, a, n)
  {
    MinusPut(u.remote, refused, a.path, NewRemoteFolder(env, a.path));
    if a.path in u.remote { MinusPut(u.synced, refused, a.path, FolderBaseline(u.remote[a.path].entry.itemId, u.remote[a.path].entry.etag)); }
    if a.path in pass.snapshot { MinusPut(u.synced, refused, a.path, FolderBaseline(pass.snapshot[a.path].itemId, pass.snapshot[a.path].etag)); }
  }

  lemma UploadCommutes(u: World, refused: set<Path>, pass: Pass, env: Env, a: Action, n: nat)
    requires Clear(refused, pass, env, a) && a.kind == UPLOAD
    ensures Commutes(u, refused, pass, env, a, n)
  {
    var p := a.path;
    if p in u.local {
      var id := if p in u.remote then u.remote[p].entry.itemId else env.newId(p);
      MinusPut(u.remote, refused, p, Uploaded(env, p, id, u.local[p].content));
      if a.itemId.Some? { MinusPut(u.remote, refused, p, Uploaded(env, p, a.itemId.value, u.local[p].content)); }
      if p in u.remote {
        MinusPut(u.synced, refused, p, FileBaseline(u.remote[p].entry.itemId, u.remote[p].entry.etag, u.local[p].entry));
      }
    }
  }

  lemma DownloadCommutes(u: World, refused: set<Path>, pass: Pass, env: Env, a: Action, n: nat)
    requires Clear(refused, pass, env, a) && a.kind == DOWNLOAD
    ensures Commutes(u, refused, pass, env, a, n)
  {
    var p := a.path;
    if p in pass.snapshot && p in u.local {
      MinusPut(u.synced, refused, p, FileBaseline(pass.snapshot[p].itemId, pass.snapshot[p].etag, u.local[p].entry));
    }
  }

  lemma DeleteCommutes(u: World, refused: set<Path>, pass: Pass, env: Env, a: Action, n: nat)
    requires Clear(refused, pass, env, a) && IsDelete(a)
    ensures Commutes(u, refused, pass, env, a, n)
  {
    var p := a.path;
    assert (u.synced - refused) - {p} == (u.synced - {p}) - refused;
    assert (map q | q in u.remote - refused && q != p && !Below(q, p) :: (u.remote - refused)[q])
        == (map q | q in u.remote && q != p && !Below(q, p) :: u.remote[q]) - refused;
  }

  lemma ConflictCommutes(u: World, refused: set<Path>, pass: Pass, env: Env, a: Action, n: nat)
    requires Clear(refused, pass, env, a) && a.kind == CONFLICT
    ensures Commutes(u, refused, pass, env, a, n)
  {
    if n == 2 {
      CopyUploadCommutes(u, refused, pass, env, a);
    } else if n == 3 {
      CopyBaselineCommutes(u, refused, pass, env, a);
    } else if n == 6 {
      OriginalBaselineCommutes(u, refused, pass, env, a);
    } else {
      LocalConflictCommutes(u, refused, pass, env, a, n);
    }
  }

  lemma CopyUploadCommutes(u: World, refused: set<Path>, pass: Pass, env: Env, a: Action)
    requires Clear(refused, pass, env, a) && a.kind == CONFLICT
    ensures Commutes(u, refused, pass, env, a, 2)
  {
    var copy := env.copyName(a.path);
    var target := CopyTarget(pass, copy);
    if copy in u.local {
      var id := if target in u.remote then u.remote[target].entry.itemId else env.newId(target);
      MinusPut(u.remote, refused, target, Uploaded(env, target, id, u.local[copy].content));
    }
  }

  lemma CopyBaselineCommutes(u: World, refused: set<Path>, pass: Pass, env: Env, a: Action)
    requires Clear(refused, pass, env, a) && a.kind == CONFLICT
    ensures Commutes(u, refused, pass, env, a, 3)
  {
    var copy := env.copyName(a.path);
    var target := CopyTarget(pass, copy);
    if copy in u.local && target in u.remote {
      MinusPut(u.synced, refused, copy, FileBaseline(u.remote[target].entry.itemId, u.remote[target].entry.etag, u.local[copy].entry));
    }
  }

  lemma OriginalBaselineCommutes(u: World, refused: set<Path>, pass: Pass, env: Env, a: Action)
    requires Clear(refused, pass, env, a) && a.kind == CONFLICT
    ensures Commutes(u, refused, pass, env, a, 6)
  {
    var p := a.path;
    if p in pass.snapshot && p in u.local {
      MinusPut(u.synced, refused, p, FileBaseline(pass.snapshot[p].itemId, pass.snapshot[p].etag, u.local[p].entry));
    }
  }

  lemma LocalConflictCommutes(u: World, refused: set<Path>, pass: Pass, env: Env, a: Action, n: nat)
    requires Clear(refused, pass, env, a) && a.kind == CONFLICT && n !in {2, 3, 6}
    ensures Commutes(u, refused, pass, env, a, n)
  {
  }

  lemma WriteCommutes(u: World, refused: set<Path>, pass: Pass, env: Env, a: Action, n: nat)
    requires Clear(refused, pass, env, a)
    ensures Commutes(u, refused, pass, env, a, n)
  {
    if IsDelete(a) { DeleteCommutes(u, refused, pass, env, a, n); }
    else if a.kind == UPLOAD { UploadCommutes(u, refused, pass, env, a, n); }
    else if a.kind == DOWNLOAD { DownloadCommutes(u, refused, pass, env, a, n); }
    else if a.kind == CONFLICT { ConflictCommutes(u, refused, pass, env, a, n); }
    else { CreateCommutes(u, refused, pass, env, a, n); }
  }

  lemma {:induction false} WritesCommute(u: World, refused: set<Path>, pass: Pass, env: Env, a: Action, n: nat)
    requires Clear(refused, pass, env, a) && Writes(Minus(u, refused), pass, env, a, n).Done?
    ensures Writes(u, pass, env, a, n).Done?
    ensures Writes(Minus(u, refused), pass, env, a, n).w == Minus(Writes(u, pass, env, a, n).w, refused)
  {
    if n > 0 {
      WritesCommute(u, refused, pass, env, a, n - 1);
      WriteCommutes(Writes(u, pass, env, a, n - 1).w, refused, pass, env, a, n);
    }
  }

  /** The refused deletes are among the first `k` actions. */
  ghost predicate RefusedBefore(acts: seq<Action>, k: nat, refused: set<Path>) {
    forall q :: q in refused ==> exists i :: 0 <= i < k <= |acts| && acts[i].path == q && acts[i].kind == DELETE_REMOTE
  }

  lemma NextIsClear(w: World, env: Env, acts: seq<Action>, k: nat, pass: Pass, refused: set<Path>)
    requires FreshCopies(w, env, false) && PlanFor(acts, w, false) && k < |acts| && RefusedBefore(acts, k, refused)
    requires acts[k].kind == CONFLICT ==> CopyTarget(pass, env.copyName(acts[k].path)) == env.copyName(acts[k].path)
    ensures Clear(refused, pass, env, acts[k])
  {
    PlannedPathsAreKnown(w, env, acts, false, acts[k]);
    forall q | q in refused ensures q in w.Known() && q != acts[k].path {
      var i :| 0 <= i < k && acts[i].path == q;
      PlannedPathsAreKnown(w, env, acts, false, acts[i]);
    }
  }

  lemma EnabledCopyLands(v: World, pass: Pass, env: Env, a: Action, bootstrap: bool)
    requires Enabled(v, pass, env, a, bootstrap) && a.kind == CONFLICT
    ensures CopyTarget(pass, env.copyName(a.path)) == env.copyName(a.path)
  {
  }

  ghost predicate StillRun(w: World, env: Env, acts: seq<Action>, k: nat, s: Drift)
    requires k <= |acts|
  {
    Run(w, StartPass(w), env, acts, k) == (Minus(s.w, s.refused), s.pass) && RefusedBefore(acts, k, s.refused)
  }

  ghost predicate StillSoFar(w: World, env: Env, acts: seq<Action>, k: nat)
    requires k <= |acts|
  {
    StillRun(w, env, acts, k, DriftRun(w, env, acts, k))
  }

  ghost predicate StillNext(w: World, env: Env, acts: seq<Action>, k: nat)
    requires k < |acts|
  {
    StillSoFar(w, env, acts, k) ==> StillSoFar(w, env, acts, k + 1)
  }

  lemma {:induction false} StillThroughout(w: World, env: Env, acts: seq<Action>, k: nat)
    requires k <= |acts| && forall j :: 0 <= j < |acts| ==> StillNext(w, env, acts, j)
    ensures StillSoFar(w, env, acts, k)
  {
    if k > 0 {
      StillThroughout(w, env, acts, k - 1);
      assert StillNext(w, env, acts, k - 1);
    } else {
      DriftStart(w, env, acts);
    }
  }

  /** At every point the drifting run is the still run, the refused deletes undone. */
  lemma DriftIsStill(w: World, env: Env, acts: seq<Action>, k: nat)
    requires Good(w) && FreshCopies(w, env, false) && PlanFor(acts, w, false) && k <= |acts|
    ensures StillRun(w, env, acts, k, DriftRun(w, env, acts, k))
  {
    forall j | 0 <= j < |acts| ensures StillNext(w, env, acts, j) {
      if StillSoFar(w, env, acts, j) { DriftNext(w, env, acts, j, DriftRun(w, env, acts, j)); }
    }
    StillThroughout(w, env, acts, k);
  }

  lemma DriftStart(w: World, env: Env, acts: seq<Action>)
    ensures Run(w, StartPass(w), env, acts, 0) == (Minus(w, {}), StartPass(w))
  {
    assert Minus(w, {}) == w;
  }

  lemma DriftNext(w: World, env: Env, acts: seq<Action>, k: nat, s: Drift)
    requires Good(w) && FreshCopies(w, env, false) && PlanFor(acts, w, false) && k < |acts|
    requires StillRun(w, env, acts, k, s)
    ensures StillRun(w, env, acts, k + 1, DriftExecute(s, env, acts[k]))
  {
    NthRuns(w, env, acts, false, k);
    if Refused(acts[k], s.touched) {
      RefusedStep(acts, k, s, env);
    } else {
      if acts[k].kind == CONFLICT { EnabledCopyLands(Minus(s.w, s.refused), s.pass, env, acts[k], false); }
      NextIsClear(w, env, acts, k, s.pass, s.refused);
      ExecutedStep(acts, k, s, env);
    }
  }

  lemma RefusedStep(acts: seq<Action>, k: nat, s: Drift, env: Env)
    requires k < |acts| && RefusedBefore(acts, k, s.refused) && Refused(acts[k], s.touched)
    requires Writes(Minus(s.w, s.refused), s.pass, env, acts[k], STEPS) == Done(After(Minus(s.w, s.refused), env, acts[k], STEPS))
    ensures var t := DriftExecute(s, env, acts[k]);
      && Execute(Minus(s.w, s.refused), s.pass, env, acts[k]) == (Minus(t.w, t.refused), t.pass)
      && RefusedBefore(acts, k + 1, t.refused)
  {
    var a := acts[k];
    assert s.w.remote - (s.refused + {a.path}) == (s.w.remote - s.refused) - {a.path};
    assert s.w.synced - (s.refused + {a.path}) == (s.w.synced - s.refused) - {a.path};
    assert acts[k].path == a.path;
  }

  lemma ExecutedStep(acts: seq<Action>, k: nat, s: Drift, env: Env)
    requires k < |acts| && RefusedBefore(acts, k, s.refused) && !Refused(acts[k], s.touched)
    requires Clear(s.refused, s.pass, env, acts[k])
    requires Writes(Minus(s.w, s.refused), s.pass, env, acts[k], STEPS).Done?
    ensures var t := DriftExecute(s, env, acts[k]);
      && Execute(Minus(s.w, s.refused), s.pass, env, acts[k]) == (Minus(t.w, t.refused), t.pass)
      && RefusedBefore(acts, k + 1, t.refused)
  {
    WritesCommute(s.w, s.refused, s.pass, env, acts[k], STEPS);
  }

  // ---- what a refused delete leaves ----

  /** The entry is as the pass found it, or was swept away with a folder above it. */
  predicate Kept(w: World, u: World, q: Path) {
    Get(u.synced, q) == Get(w.synced, q) && (q in u.remote ==> Get(w.remote, q) == Some(u.remote[q]))
  }

  lemma {:induction false} WritesKeepEntry(w: World, u: World, pass: Pass, env: Env, a: Action, n: nat, q: Path)
    requires Kept(w, u, q) && !MayWrite(pass, env, a, q)
    ensures Kept(w, Writes(u, pass, env, a, n).w, q)
  {
    if n > 0 {
      WritesKeepEntry(w, u, pass, env, a, n - 1, q);
      var x := Writes(u, pass, env, a, n - 1).w;
      WriteLeavesBaselines(x, pass, env, a, n, q);
      RemoteEffect(x, pass, env, a, n, q);
    }
  }

  /** The entry of a planned path, up to its turn and, if it is refused, after it. */
  lemma {:induction false} RefusedIsKept(w: World, env: Env, acts: seq<Action>, k: nat, q: Path)
    requires k <= |acts| && OnePerPath(acts) && NoCopyAt(acts, StartPass(w), env, q)
    ensures var s := DriftRun(w, env, acts, k);
      && s.pass.snapshot == w.RemoteMap()
      && ((forall i :: 0 <= i < k ==> acts[i].path != q) || q in s.refused ==> Kept(w, s.w, q))
  {
    if k > 0 {
      RefusedIsKept(w, env, acts, k - 1, q);
      var s := DriftRun(w, env, acts, k - 1);
      var a := acts[k - 1];
      assert a in acts;
      RefusedAreEarlier(w, StartPass(w), env, acts, k - 1);
      if !Refused(a, s.touched) && a.path != q {
        assert CopyTarget(s.pass, env.copyName(a.path)) == CopyTarget(StartPass(w), env.copyName(a.path));
        if Kept(w, s.w, q) { WritesKeepEntry(w, s.w, s.pass, env, a, STEPS, q); }
      }
    }
  }

  lemma {:induction false} RefusedAreEarlier(w: World, pass: Pass, env: Env, acts: seq<Action>, k: nat)
    requires k <= |acts|
    ensures RefusedBefore(acts, k, DriftFrom(w, pass, env, acts, k).refused)
  {
    if k > 0 {
      RefusedAreEarlier(w, pass, env, acts, k - 1);
      var before := DriftFrom(w, pass, env, acts, k - 1).refused;
      forall q | q in DriftFrom(w, pass, env, acts, k).refused
        ensures exists i :: 0 <= i < k && acts[i].path == q && acts[i].kind == DELETE_REMOTE
      {
        if q in before {
          var i :| 0 <= i < k - 1 && acts[i].path == q && acts[i].kind == DELETE_REMOTE;
        } else {
          assert acts[k - 1].path == q;
        }
      }
    }
  }
}
