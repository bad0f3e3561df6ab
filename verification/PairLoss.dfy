/** Without the delete-closed precondition: an unseen remote edit below a folder that
    was deleted locally is lost in two passes. */
module PairLoss {
  import opened Basics
  import opened Paths
  import opened Reconcile
  import opened PairWorld
  import opened PairSafety
  import opened PairPass

  const EDIT: Content := [1 as bv8]

  const FOLDER: RemoteNode := RemoteNode(RemoteEntry(true, 0, "e", "D", None), [])
  const EDITED: RemoteNode := RemoteNode(RemoteEntry(false, 1, "e2", "F", None), EDIT)

  /** Folder `d` and file `d/f` were synced; both are gone locally, `d/f` was edited
      remotely. */
  function Start(): World {
    World(
      map[],
      map["d" := FOLDER, "d/f" := EDITED],
      map["d" := FolderBaseline("D", "e"), "d/f" := SyncedEntry(Some("F"), Some("e1"), Some("t"), Some(1), false)])
  }

  const FIRST: seq<Action> := [
    Action("d/f", DOWNLOAD, false, Some("F"), None), Action("d", DELETE_REMOTE, true, Some("D"), None)]

  const SECOND: seq<Action> := [
    Action("d", CREATE_REMOTE_DIR, true, None, None), Action("d/f", DELETE_LOCAL, false, None, None)]

  /** The first pass fetches the edit, then deletes the remote folder with the edit
      in it. */
  function Middle(env: Env): World {
    World(
      map["d" := LOCAL_DIR, "d/f" := Downloaded(env, "d/f", EDIT)],
      map[],
      map["d/f" := FileBaseline("F", "e2", Downloaded(env, "d/f", EDIT).entry)])
  }

  lemma Shape()
    ensures Dirname("d/f") == "d" && Dirname("d") == "" && Slashes("d") == 0 && Slashes("d/f") == 1 && Below("d/f", "d")
  {
    assert LastSlash("d/f") == 1;
    assert LastSlash("d") == -1;
    DirnameIsOneUp("d/f");
    NoSlashes("d");
  }

  /** Every other precondition of a pass holds. */
  lemma OnlyDeleteClosedFails()
    ensures KindsAgree(Start()) && LocalRooted(Start()) && RemoteRooted(Start()) && !DeleteClosed(Start())
  {
    Shape();
    assert Doomed(Start(), "d") && "d/f" in Start().Known() && !Vanishes(Start(), "d/f");
  }

  lemma FirstPlan()
    ensures PlanFor(FIRST, Start(), false)
  {
    Shape();
    var t := Start().Maps().Classified(false);
    assert t.Keys == {"d", "d/f"};
    assert FIRST[0] in FIRST && FIRST[1] in FIRST;
  }

  lemma SecondPlan(env: Env)
    ensures PlanFor(SECOND, Middle(env), false)
  {
    Shape();
    var t := Middle(env).Maps().Classified(false);
    assert t.Keys == {"d", "d/f"};
    assert SECOND[0] in SECOND && SECOND[1] in SECOND;
  }

  function Fetched(env: Env): World {
    Start().(local := Middle(env).local, synced := Start().synced["d/f" := Middle(env).synced["d/f"]])
  }

  lemma FetchesTheEdit(env: Env)
    ensures Writes(Start(), StartPass(Start()), env, FIRST[0], 3) == Done(Fetched(env))
    ensures Writes(Start(), StartPass(Start()), env, FIRST[0], STEPS) == Done(Fetched(env))
  {
    Shape();
    var w, pass, a := Start(), StartPass(Start()), FIRST[0];
    var w1 := w.(local := map["d" := LOCAL_DIR]);
    assert MakeDirs(w.local, "d") == Some(w1.local) by { assert MakeDirs(w.local, "") == Some(w.local); }
    assert Writes(w, pass, env, a, 0) == Done(w);
    assert Writes(w, pass, env, a, 1) == Done(w1);
    var w2 := w.(local := Middle(env).local);
    assert Writes(w, pass, env, a, 2) == Done(w2);
    assert Writes(w, pass, env, a, 3) == Done(Fetched(env));
    assert Writes(w, pass, env, a, 4) == Done(Fetched(env));
    assert Writes(w, pass, env, a, 5) == Done(Fetched(env));
  }

  lemma DeletesTheFolder(env: Env)
    ensures Writes(Fetched(env), StartPass(Start()), env, FIRST[1], STEPS) == Done(Middle(env))
  {
    Shape();
    var w, pass, a := Fetched(env), StartPass(Start()), FIRST[1];
    var w1 := w.(remote := map[]);
    assert forall q :: q in w.remote ==> q == "d" || Below(q, "d");
    assert Writes(w, pass, env, a, 0) == Done(w);
    assert Writes(w, pass, env, a, 1) == Done(w1);
    assert w.synced - {"d"} == Middle(env).synced;
    assert Writes(w, pass, env, a, 2) == Done(Middle(env));
    assert Writes(w, pass, env, a, 3) == Done(Middle(env));
    assert Writes(w, pass, env, a, 4) == Done(Middle(env));
    assert Writes(w, pass, env, a, 5) == Done(Middle(env));
  }

  lemma FirstPass(env: Env)
    ensures Run(Start(), StartPass(Start()), env, FIRST, 2).0 == Middle(env)
  {
    FetchesTheEdit(env);
    DeletesTheFolder(env);
    assert Run(Start(), StartPass(Start()), env, FIRST, 1) == (Fetched(env), StartPass(Start()));
  }

  function End(env: Env): World {
    World(
      map["d" := LOCAL_DIR],
      map["d" := NewRemoteFolder(env, "d")],
      map["d" := FolderBaseline(env.newId("d"), env.newEtag("d"))])
  }

  /** Recreates the folder remotely, then deletes the last copy of the edit: it is
      now an unchanged local file that the remote side no longer has. */
  lemma SecondPass(env: Env)
    ensures Run(Middle(env), StartPass(Middle(env)), env, SECOND, 2).0 == End(env)
  {
    Shape();
    var w, pass := Middle(env), StartPass(Middle(env));
    var w1 := w.(remote := map["d" := NewRemoteFolder(env, "d")]);
    var w2 := w1.(synced := w1.synced["d" := FolderBaseline(env.newId("d"), env.newEtag("d"))]);
    var a := SECOND[0];
    assert Writes(w, pass, env, a, 0) == Done(w);
    assert Writes(w, pass, env, a, 1) == Done(w1);
    assert Writes(w, pass, env, a, 2) == Done(w2);
    assert Writes(w, pass, env, a, 3) == Done(w2);
    assert Writes(w, pass, env, a, 4) == Done(w2);
    assert Writes(w, pass, env, a, 5) == Done(w2);
    var next := pass.(created := pass.created["d" := env.newId("d")]);
    assert Run(w, pass, env, SECOND, 1) == (w2, next);
    LastCopyDeleted(w2, next, env);
    assert w2.local - {"d/f"} == End(env).local && w2.synced - {"d/f"} == End(env).synced;
  }

  lemma LastCopyDeleted(w: World, pass: Pass, env: Env)
    requires "d/f" in w.local && !w.local["d/f"].entry.isFolder
    ensures Writes(w, pass, env, SECOND[1], STEPS) == Done(w.(local := w.local - {"d/f"}, synced := w.synced - {"d/f"}))
  {
    var a := SECOND[1];
    var w1 := w.(local := w.local - {"d/f"});
    var w2 := w1.(synced := w.synced - {"d/f"});
    assert Writes(w, pass, env, a, 0) == Done(w);
    assert Writes(w, pass, env, a, 1) == Done(w1);
    assert Writes(w, pass, env, a, 2) == Done(w2);
    assert Writes(w, pass, env, a, 3) == Done(w2);
    assert Writes(w, pass, env, a, 4) == Done(w2);
    assert Writes(w, pass, env, a, 5) == Done(w2);
  }

  /** Deleting a folder locally against an edit inside it remotely: two ordinary
      passes, and the edit the user has never seen is on neither side. */
  lemma UnseenEditLostInTwoPasses(env: Env)
    ensures KindsAgree(Start()) && LocalRooted(Start()) && RemoteRooted(Start()) && !DeleteClosed(Start())
    ensures "d/f" in Start().remote && !RemoteUnchanged(Start(), "d/f")
    ensures PlanFor(FIRST, Start(), false)
    ensures var middle := Run(Start(), StartPass(Start()), env, FIRST, 2).0;
      && PlanFor(SECOND, middle, false)
      && var end := Run(middle, StartPass(middle), env, SECOND, 2).0;
         && (forall p :: p in end.local ==> end.local[p].content != EDIT)
         && (forall p :: p in end.remote ==> end.remote[p].content != EDIT)
  {
    OnlyDeleteClosedFails();
    EditIsUnseen();
    FirstPlan();
    FirstPass(env);
    SecondPlan(env);
    SecondPass(env);
    EndLacksTheEdit(env);
  }

  lemma EditIsUnseen()
    ensures "d/f" in Start().remote && !RemoteUnchanged(Start(), "d/f")
  {
    Shape();
  }

  lemma EndLacksTheEdit(env: Env)
    ensures forall p :: p in End(env).local ==> End(env).local[p].content != EDIT
    ensures forall p :: p in End(env).remote ==> End(env).remote[p].content != EDIT
  {
  }
}
