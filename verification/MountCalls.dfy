/** The handlers as the kernel calls them, by parent and name: their error returns, and
    that a call they let through is one the mount's theorems allow. */
module MountCalls {
  import opened Basics
  import opened MountModel
  import opened MountInvariant
  import opened MountEvents
  import opened MountWorker

  datatype Errno = ENOENT | EISDIR | ENOTDIR | ENOTEMPTY | EEXIST

  predicate IsChild(s: State, parent: Id, name: string, y: Id) {
    s.Live(y) && y != ROOT && s.rows[y].parent == parent && s.rows[y].name == name
  }

  /** The live parent's child of that name, if there is one. */
  ghost predicate Resolves(s: State, parent: Id, name: string, child: Option<Id>) {
    match child
    case Some(y) => IsChild(s, parent, name, y)
    case None => forall y :: !IsChild(s, parent, name, y)
  }

  /** `_resolve_child_by_name`. */
  method ResolveChild(m: Mount, parent: Id, name: string) returns (child: Option<Id>)
    ensures Resolves(m.State(), parent, name, child)
  {
    var todo := m.rows.Keys;
    while todo != {}
      invariant todo <= m.rows.Keys
      invariant forall y :: y !in todo ==> !IsChild(m.State(), parent, name, y)
      decreases todo
    {
      var y :| y in todo;
      todo := todo - {y};
      if IsChild(m.State(), parent, name, y) {
        return Some(y);
      }
    }
    child := None;
  }

  method HasLiveChild(m: Mount, x: Id) returns (found: bool)
    ensures found <==> exists y :: m.State().Live(y) && y != ROOT && m.rows[y].parent == x
  {
    found := false;
    var todo := m.rows.Keys;
    while todo != {}
      invariant todo <= m.rows.Keys
      invariant forall y :: y in m.rows && y !in todo ==> !(m.State().Live(y) && y != ROOT && m.rows[y].parent == x)
      decreases todo
    {
      var y :| y in todo;
      todo := todo - {y};
      if m.State().Live(y) && y != ROOT && m.rows[y].parent == x {
        return true;
      }
    }
  }

  /** `mkdir`: succeeds if and only if the parent is live and the name free in it. */
  method Mkdir(m: Mount, parent: Id, name: string) returns (error: Option<Errno>)
    modifies m
    ensures error.None? <==> old(m.State().Live(parent)) && FreeLocally(old(m.State()), parent, name, None)
    ensures error.Some? ==> error.value == if old(m.State().Live(parent)) then EEXIST else ENOENT
    ensures m.State() == if error.Some? then old(m.State()) else MountModel.Mkdir(old(m.State()), parent, name)
    ensures Accounted(old(m.State())) && Allowed(old(m.State()), EvMkdir(parent, name)) ==> Accounted(m.State())
  {
    if !m.State().Live(parent) {
      return Some(ENOENT);
    }
    var existing := ResolveChild(m, parent, name);
    FreeIffUnresolved(m.State(), parent, name, existing);
    if existing.Some? {
      return Some(EEXIST);
    }
    m.MakeDir(parent, name);
    error := None;
  }

  /** `unlink`: a call that goes through is allowed. */
  method Unlink(m: Mount, parent: Id, name: string) returns (error: Option<Errno>, child: Option<Id>)
    modifies m
    ensures old(m.State().Live(parent)) ==> Resolves(old(m.State()), parent, name, child)
    ensures error == (if !old(m.State().Live(parent)) || child.None? then Some(ENOENT)
                      else if old(m.State().LiveFolder(child.value)) then Some(EISDIR) else None)
    ensures error.None? && !old(m.ended) ==> Allowed(old(m.State()), EvUnlink(child.value))
    ensures error.None? ==> old(m.State().Live(child.value)) && m.State() == DeleteOffline(old(m.State()), child.value)
    ensures error.Some? ==> m.State() == old(m.State())
    ensures Accounted(old(m.State())) && !old(m.ended) ==> Accounted(m.State())
  {
    child := None;
    if !m.State().Live(parent) {
      return Some(ENOENT), None;
    }
    child := ResolveChild(m, parent, name);
    if child.None? {
      return Some(ENOENT), child;
    }
    if m.rows[child.value].isFolder {
      return Some(EISDIR), child;
    }
    m.DeleteItem(child.value);
    error := None;
  }

  /** `rmdir`: goes through if and only if the named child is an empty folder. */
  method Rmdir(m: Mount, parent: Id, name: string) returns (error: Option<Errno>, child: Option<Id>)
    modifies m
    ensures old(m.State().Live(parent)) ==> Resolves(old(m.State()), parent, name, child)
    ensures error == (if !old(m.State().Live(parent)) || child.None? then Some(ENOENT)
                      else if !old(m.State().LiveFolder(child.value)) then Some(ENOTDIR)
                      else if NoLiveChild(old(m.State()), child.value) then None else Some(ENOTEMPTY))
    ensures error.None? && !old(m.ended) ==> Allowed(old(m.State()), EvRmdir(child.value))
    ensures error.None? ==> old(m.State().Live(child.value)) && m.State() == DeleteOffline(old(m.State()), child.value)
    ensures error.Some? ==> m.State() == old(m.State())
    ensures Accounted(old(m.State())) && !old(m.ended) ==> Accounted(m.State())
  {
    child := None;
    if !m.State().Live(parent) {
      return Some(ENOENT), None;
    }
    child := ResolveChild(m, parent, name);
    if child.None? {
      return Some(ENOENT), child;
    }
    if !m.rows[child.value].isFolder {
      return Some(ENOTDIR), child;
    }
    var occupied := HasLiveChild(m, child.value);
    if occupied {
      return Some(ENOTEMPTY), child;
    }
    m.DeleteItem(child.value);
    error := None;
  }

  /** How a call ends: with success, an error return, or, if an exception escapes the
      handler, the end of the whole session. */
  datatype Reply = Success | Error(errno: Errno) | SessionEnds

  /** `rename`: goes through if and only if the child exists and the target name is free
      or its own; a taken name violates the unique path index, and nothing catches that. */
  method RenameEntry(m: Mount, from: Id, name: string, to: Id, newName: string, noReplace: bool)
    returns (reply: Reply, child: Option<Id>)
    requires NamesUnique(m.State())
    modifies m
    ensures old(m.State().Live(from) && m.State().Live(to)) ==> Resolves(old(m.State()), from, name, child)
    ensures reply == (if !old(m.State().Live(from) && m.State().Live(to)) || child.None? then Error(ENOENT)
                      else if noReplace && !FreeLocally(old(m.State()), to, newName, None) then Error(EEXIST)
                      else if FreeLocally(old(m.State()), to, newName, child) then Success else SessionEnds)
    ensures reply.Success? ==>
      old(m.State().Live(child.value)) && m.State() == MountModel.Rename(old(m.State()), child.value, to, newName)
    ensures !reply.Success? ==> m.State() == old(m.State()).(ended := old(m.ended) || reply.SessionEnds?)
    ensures reply.Success? && Accounted(old(m.State())) && Allowed(old(m.State()), EvRename(child.value, to, newName)) ==>
      Accounted(m.State())
  {
    child := None;
    if !m.State().Live(from) || !m.State().Live(to) {
      return Error(ENOENT), None;
    }
    child := ResolveChild(m, from, name);
    if child.None? {
      return Error(ENOENT), child;
    }
    var target := ResolveChild(m, to, newName);
    TargetIsAlone(m.State(), to, newName, child.value, target);
    if target.Some? && noReplace {
      return Error(EEXIST), child;
    }
    if target.Some? && target != child {
      m.ended := true;
      return SessionEnds, child;
    }
    m.RenameItem(child.value, to, newName);
    reply := Success;
  }

  lemma FreeIffUnresolved(s: State, parent: Id, name: string, child: Option<Id>)
    requires Resolves(s, parent, name, child)
    ensures FreeLocally(s, parent, name, None) <==> child.None?
  {
    match child
    case Some(y) => assert IsChild(s, parent, name, y);
    case None =>
      forall y | s.Live(y) && y != ROOT && s.rows[y].parent == parent ensures s.rows[y].name != name {
        assert !IsChild(s, parent, name, y);
      }
  }

  lemma TargetIsAlone(s: State, to: Id, name: string, child: Id, target: Option<Id>)
    requires NamesUnique(s) && Resolves(s, to, name, target)
    ensures FreeLocally(s, to, name, None) <==> target.None?
    ensures FreeLocally(s, to, name, Some(child)) <==> target.None? || target == Some(child)
  {
    FreeIffUnresolved(s, to, name, target);
    if target.Some? {
      assert IsChild(s, to, name, target.value);
    }
  }
}
