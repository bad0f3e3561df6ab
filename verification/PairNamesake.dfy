/** A conflict copy whose name the drive already has: the program looks for a free name
    among the local files only. */
module PairNamesake {
  import opened Basics
  import opened Paths
  import opened Reconcile
  import opened PairWorld
  import opened PairPass
  import opened PairFrame

  /** A conflict that can be resolved: its file is there, and its copy's name is free
      locally. On the drive the name may be taken, by a file. */
  predicate Resolvable(v: World, pass: Pass, env: Env, a: Action) {
    var p := a.path;
    var copy := env.copyName(p);
    && a.kind == CONFLICT && p in v.local && !v.local[p].entry.isFolder && p in pass.snapshot
    && copy !in v.local && copy != p
    && IsParentFolder(v, CopyTarget(pass, copy), CopyParent(pass, copy))
    && (CopyTarget(pass, copy) in v.remote ==> !v.remote[CopyTarget(pass, copy)].entry.isFolder)
  }

  lemma {:induction false} LaterWritesKeepRemote(v: World, pass: Pass, env: Env, a: Action, n: nat)
    requires a.kind == CONFLICT && n >= 2
    ensures Writes(v, pass, env, a, n).w.remote == Writes(v, pass, env, a, 2).w.remote
  {
    if n > 2 {
      LaterWritesKeepRemote(v, pass, env, a, n - 1);
      ConflictKeepsRemote(Writes(v, pass, env, a, n - 1).w, pass, env, a.path, n);
    }
  }

  lemma CopyArrives(v: World, pass: Pass, env: Env, a: Action)
    requires Resolvable(v, pass, env, a)
    ensures var copy := env.copyName(a.path); var target := CopyTarget(pass, copy);
      var r := Writes(v, pass, env, a, 2).w.remote;
      && target in r && r[target].content == v.local[a.path].content
      && (target in v.remote ==> r[target].entry.itemId == v.remote[target].entry.itemId)
      && forall x :: x != target ==> Get(r, x) == Get(v.remote, x)
  {
    var copy := env.copyName(a.path);
    var v1 := v.(local := (v.local - {a.path})[copy := v.local[a.path]]);
    assert Writes(v, pass, env, a, 0) == Done(v);
    assert Writes(v, pass, env, a, 1) == Done(v1);
    assert Writes(v, pass, env, a, 2) == Write(v1, pass, env, a, 2);
    forall x | x != CopyTarget(pass, copy) ensures Get(Write(v1, pass, env, a, 2).w.remote, x) == Get(v1.remote, x) {
      CopyRemoteEffect(v1, pass, env, a.path, x);
    }
  }

  /** Where the copy lands on the drive: beside its original, or in the pair's root if the
      pass's map lists no folder for it. */
  predicate LandsOn(pass: Pass, copy: Path, x: Path) {
    x == if Dirname(copy) == "" || Dirname(copy) in pass.snapshot then copy else Basename(copy)
  }

  /** Resolving a conflict leaves a remote file with other bytes than the edit's as it was,
      if and only if the copy does not land on its name; it stays the same item either way. */
  lemma NamesakeSurvivesIff(v: World, pass: Pass, env: Env, a: Action, x: Path)
    requires Resolvable(v, pass, env, a) && x in v.remote && v.remote[x].content != v.local[a.path].content
    ensures var r := Writes(v, pass, env, a, STEPS).w.remote;
      && x in r && r[x].entry.itemId == v.remote[x].entry.itemId
      && (r[x].content == v.remote[x].content <==> !LandsOn(pass, env.copyName(a.path), x))
  {
    CopyArrives(v, pass, env, a);
    LaterWritesKeepRemote(v, pass, env, a, STEPS);
    assert LandsOn(pass, env.copyName(a.path), x) <==> x == CopyTarget(pass, env.copyName(a.path));
    if x != CopyTarget(pass, env.copyName(a.path)) { assert Get(Writes(v, pass, env, a, STEPS).w.remote, x) == Some(v.remote[x]); }
  }

  // ---- a concrete pass ----

  function Node(etag: string, id: string, c: Content): RemoteNode {
    RemoteNode(RemoteEntry(false, |c|, etag, id, None), c)
  }

  /** `f` was edited on both sides; `c` is on the drive only. */
  function Start(): World {
    World(
      map["f" := LocalNode(LocalEntry(false, 1, "t2", None), [2])],
      map["f" := Node("e2", "F", [3]), "c" := Node("e3", "C", [4])],
      map["f" := SyncedEntry(Some("F"), Some("e1"), Some("t1"), Some(1), false)])
  }

  const ON_F: Action := Action("f", CONFLICT, false, None, None)
  const FETCH_C: Action := Action("c", DOWNLOAD, false, Some("C"), None)

  lemma PlanOfStart()
    ensures PlanFor([ON_F, FETCH_C], Start(), false)
  {
    NoSlashes("f");
    NoSlashes("c");
    var t := Start().Maps().Classified(false);
    assert Start().Maps().ActionAt("f", false) == Some(ON_F) && Start().Maps().ActionAt("c", false) == Some(FETCH_C);
    assert t.Keys == {"f", "c"};
    assert t == map["f" := ON_F, "c" := FETCH_C];
  }

  /** When the conflict's copy is named `c`, the bytes of the drive's own `c` are gone after
      its resolution. */
  lemma NamesakeIsOverwritten(env: Env)
    requires env.copyName("f") == "c"
    ensures PlanFor([ON_F, FETCH_C], Start(), false)
    ensures var r := Writes(Start(), StartPass(Start()), env, ON_F, STEPS).w.remote;
      "c" in r && r["c"].content == [2] && Start().remote["c"].content == [4]
  {
    PlanOfStart();
    var w, pass := Start(), StartPass(Start());
    assert LastSlash("c") == -1;
    assert Dirname("c") == "";
    assert CopyTarget(pass, "c") == "c" && CopyParent(pass, "c") == ROOT_ID;
    CopyArrives(w, pass, env, ON_F);
    LaterWritesKeepRemote(w, pass, env, ON_F, STEPS);
  }
}
