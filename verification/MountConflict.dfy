/** The queued write of a file on the mount, one micro-step at a time: claim, pre-check,
    then either replace the remote file or keep both versions; crashes and remote edits
    may come in anywhere. */
module MountConflict {
  import opened Basics
  import ConflictNames

  type Etag = nat

  datatype Status = Pending | InProgress

  datatype Version = Version(content: Content, etag: Etag)

  /** What a copy's name is made of: the item's name at that moment, and the time. */
  datatype Label = Label(stem: string, ts: string, suffix: string)

  /** Where the worker stands in `_execute_write`. */
  datatype Pc =
    | Idle
    | Claimed                                  // op marked in progress
    | Matched                                  // pre-check done, nothing to protect
    | Conflict(etag: Etag)                     // pre-check saw this newer version
    | CopyUploaded(etag: Etag, name: string)   // local edit is on the drive, copy not yet cached
    | CopyKnown(etag: Etag)                    // copy cached
    | Downloaded(etag: Etag)                   // remote bytes over the staged file
    | PutDone(etag: Etag)                      // the file was replaced, reply in hand
    | Confirmed                                // row updated, op not yet dropped

  datatype State = State(
    staged: Content,                 // the local bytes
    base: Etag,                      // the row's etag
    remote: Version,                 // the file on the drive
    files: map<string, Content>,     // the other files of its folder on the drive
    known: set<string>,              // names the cache lists in that folder
    parentSynced: bool,
    op: Option<Status>,
    pc: Pc,
    clock: Etag,                     // etags from here on are unused
    // what the theorems are about; no step looks at these
    edit: Content,                   // the latest local edit
    delivered: bool,                 // that edit has been the file's current version
    origin: Etag,                    // the version the staged bytes come from
    theirs: Version)                 // the latest version someone else wrote

  datatype Choice =
    | Claim | PreCheck | PreCheckFails | Put
    | UploadCopy(tag: Label, n: nat) | SkipCopy | CacheCopy | Download | Confirm | DropOp
    | Crash | Reset | CallFails
    | Flush(bytes: Content) | Poll | Reopen | RemoteEdit(content: Content)

  /** The copy's name: the first candidate the cache does not list. */
  predicate NameFor(known: set<string>, tag: Label, n: nat) {
    && CopyName(tag, n) !in known
    && forall k: nat :: k < n ==> CopyName(tag, k) in known
  }

  function CopyName(tag: Label, n: nat): string { ConflictNames.Candidate(tag.stem, tag.ts, tag.suffix, n) }

  /** One micro-step; a choice that is not possible changes nothing. */
  function Step(s: State, c: Choice): State {
    match c
    case Claim =>
      if s.pc == Idle && s.op == Some(Pending) then s.(op := Some(InProgress), pc := Claimed) else s
    case PreCheck =>
      if s.pc != Claimed then s
      else s.(pc := if s.remote.etag != s.base then Conflict(s.remote.etag) else Matched)
    case PreCheckFails =>
      // no answer, or no etag in the row: the file is replaced unchecked
      if s.pc == Claimed then s.(pc := Matched) else s
    case Put =>
      // the small-file PUT ignores If-Match
      if s.pc != Matched then s
      else s.(remote := Version(s.staged, s.clock), clock := s.clock + 1, pc := PutDone(s.clock),
              origin := s.clock, delivered := s.delivered || s.staged == s.edit)
    case UploadCopy(tag, n) =>
      if s.pc.Conflict? && s.parentSynced && NameFor(s.known, tag, n) then
        s.(files := s.files[CopyName(tag, n) := s.staged], pc := CopyUploaded(s.pc.etag, CopyName(tag, n)))
      else s
    case SkipCopy =>
      // parent not on the drive: nothing is copied, and the caller drops the op
      if s.pc.Conflict? && !s.parentSynced then s.(pc := Confirmed) else s
    case CacheCopy =>
      if s.pc.CopyUploaded? then s.(known := s.known + {s.pc.name}, pc := CopyKnown(s.pc.etag)) else s
    case Download =>
      if s.pc.CopyKnown? then
        s.(staged := s.remote.content, origin := s.remote.etag, pc := Downloaded(s.pc.etag))
      else s
    case Confirm =>
      // the pre-check's reply, or the PUT's
      if s.pc.Downloaded? || s.pc.PutDone? then s.(base := s.pc.etag, pc := Confirmed) else s
    case DropOp =>
      if s.pc == Confirmed then s.(op := None, pc := Idle) else s
    case Crash => s.(pc := Idle)
    case Reset =>
      if s.pc == Idle && s.op == Some(InProgress) then s.(op := Some(Pending)) else s
    case CallFails =>
      // an exception out of any call: `mark_op_error`
      if s.pc != Idle && s.op.Some? then s.(op := Some(Pending), pc := Idle) else s
    case Flush(bytes) =>
      // enqueues a write unless one is queued already
      if s.pc != Idle then s
      else s.(staged := bytes, edit := bytes, delivered := false, op := if s.op.None? then Some(Pending) else s.op)
    case Poll =>
      // nothing queued: the delta poll refreshes the row, an open handle keeps its bytes
      if s.pc == Idle && s.op.None? then s.(base := s.remote.etag) else s
    case Reopen =>
      // nothing queued: a poll and a fresh `open` bring row and bytes up to date
      if s.pc == Idle && s.op.None? then
        s.(staged := s.remote.content, base := s.remote.etag, origin := s.remote.etag)
      else s
    case RemoteEdit(content) =>
      s.(remote := Version(content, s.clock), theirs := Version(content, s.clock), clock := s.clock + 1)
  }

  function Run(s: State, choices: seq<Choice>): State
    decreases |choices|
  {
    if choices == [] then s else Run(Step(s, choices[0]), choices[1..])
  }

  /** Every pre-check is answered, nobody edits the file between a matching pre-check and
      its PUT, and a flush that queues a write finds the row's etag no newer than the
      bytes: no poll has refreshed the row under the handle. */
  predicate Quiet(s: State, choices: seq<Choice>)
    decreases |choices|
  {
    choices == [] ||
    (QuietChoice(s, choices[0]) && Quiet(Step(s, choices[0]), choices[1..]))
  }

  predicate QuietChoice(s: State, c: Choice) {
    && (s.pc == Claimed ==> c != PreCheckFails)
    && (s.pc == Matched ==> !c.RemoteEdit?)
    && (s.pc == Idle && s.op.None? && c.Flush? ==> s.base <= s.origin)
  }

  // ---- any history of edits on both sides ----

  /** The local edit is in the staged file, in a copy the cache lists, or was delivered. */
  predicate EditKept(s: State) {
    s.staged == s.edit || s.delivered || CopyHeld(s)
  }

  predicate CopyHeld(s: State) {
    exists name :: name in s.known && name in s.files && s.files[name] == s.edit
  }

  predicate Inv(s: State) {
    && s.parentSynced
    && (s.op == Some(InProgress) <== s.pc != Idle)
    && EtagsOk(s) && EditOk(s)
  }

  /** A PUT can only come from a match, and the staged bytes are never older than the
      row's etag says. */
  predicate EtagsOk(s: State) {
    && s.base <= s.remote.etag < s.clock && s.origin <= s.remote.etag
    && (s.op.Some? || s.pc != Idle ==> s.base <= s.origin)
    && (s.pc == Matched ==> s.base == s.remote.etag)
    && (s.pc.PutDone? ==> s.pc.etag == s.origin)
    && (s.pc.Conflict? || s.pc.CopyUploaded? || s.pc.CopyKnown? ==> s.pc.etag <= s.remote.etag)
    && (s.pc.Downloaded? ==> s.pc.etag <= s.origin)
    && (s.theirs == s.remote || (s.theirs.etag < s.remote.etag && s.theirs.etag <= s.origin))
  }

  predicate EditOk(s: State) {
    && EditKept(s)
    && (s.pc.CopyUploaded? ==> s.pc.name in s.files && s.files[s.pc.name] == s.staged)
    && (s.pc.CopyKnown? ==> exists name :: name in s.known && name in s.files && s.files[name] == s.staged)
    && (s.op.None? || s.pc == Confirmed || s.pc.PutDone? || s.pc.Downloaded? ==> s.delivered || CopyHeld(s))
  }

  lemma StepKeepsEtags(s: State, c: Choice)
    requires EtagsOk(s) && QuietChoice(s, c)
    ensures EtagsOk(Step(s, c))
  {
  }

  lemma StepKeepsEdit(s: State, c: Choice)
    requires Inv(s)
    ensures EditOk(Step(s, c))
  {
    var t := Step(s, c);
    assert s.op.Some? ==> s.op.value.Pending? || s.op.value.InProgress?;
    if CopyHeld(s) {
      var name :| name in s.known && name in s.files && s.files[name] == s.edit;
      assert name in t.known && name in t.files && t.files[name] == s.edit;
    }
    if s.pc.CopyKnown? {
      var name :| name in s.known && name in s.files && s.files[name] == s.staged;
      assert name in t.known && name in t.files && t.files[name] == s.staged;
    }
    if c.CacheCopy? && s.pc.CopyUploaded? {
      assert s.pc.name in t.known && t.files[s.pc.name] == t.staged;
    }
  }

  lemma StepKeepsInv(s: State, c: Choice)
    requires Inv(s) && QuietChoice(s, c)
    ensures Inv(Step(s, c))
  {
    StepKeepsEtags(s, c);
    StepKeepsEdit(s, c);
  }

  lemma {:induction false} RunKeepsInv(s: State, choices: seq<Choice>)
    requires Inv(s) && Quiet(s, choices)
    ensures Inv(Run(s, choices))
    decreases |choices|
  {
    if choices != [] {
      StepKeepsInv(s, choices[0]);
      RunKeepsInv(Step(s, choices[0]), choices[1..]);
    }
  }

  /** A file the mount and the drive agree on, with nothing queued. */
  function Synced(content: Content, etag: Etag, files: map<string, Content>): State {
    var v := Version(content, etag);
    State(content, etag, v, files, files.Keys, true, None, Idle, etag + 1, content, true, etag, v)
  }

  /** Whatever the schedule of edits on both sides, passes, failed calls, kills and
      restarts: a PUT only ever replaces the version its own bytes come from, so no
      version someone else wrote is overwritten unseen; the last local edit is staged,
      delivered or in a conflict copy, and it is on the drive once nothing is queued. */
  lemma NothingUnseenIsLost(content: Content, etag: Etag, files: map<string, Content>, choices: seq<Choice>)
    requires Quiet(Synced(content, etag, files), choices)
    ensures var end := Run(Synced(content, etag, files), choices);
      && (end.pc == Matched ==> end.origin == end.remote.etag)
      && (end.theirs == end.remote || end.theirs.etag <= end.origin)
      && EditKept(end)
      && (end.op.None? ==> end.delivered || end.edit in end.files.Values)
  {
    RunKeepsInv(Synced(content, etag, files), choices);
    var end := Run(Synced(content, etag, files), choices);
    if CopyHeld(end) {
      var name :| name in end.known && name in end.files && end.files[name] == end.edit;
    }
  }

  /** A copy is uploaded under this name. */
  predicate Takes(s: State, c: Choice, name: string) {
    c.UploadCopy? && s.pc.Conflict? && s.parentSynced && NameFor(s.known, c.tag, c.n) && CopyName(c.tag, c.n) == name
  }

  predicate Taken(s: State, choices: seq<Choice>, name: string)
    decreases |choices|
  {
    choices != [] && (Takes(s, choices[0], name) || Taken(Step(s, choices[0]), choices[1..], name))
  }

  /** These bytes are never the staged ones. */
  predicate NeverStaged(s: State, choices: seq<Choice>, bytes: Content)
    decreases |choices|
  {
    s.staged != bytes && (choices == [] || NeverStaged(Step(s, choices[0]), choices[1..], bytes))
  }

  /** A file of the folder with bytes of its own keeps them over a run if and only if no
      copy takes its name; and a copy takes only a name the cache does not list. */
  lemma {:induction false} FileSurvivesIff(s: State, choices: seq<Choice>, name: string, bytes: Content)
    requires name in s.files && NeverStaged(s, choices, bytes)
    ensures name in Run(s, choices).files
    ensures Run(s, choices).files[name] == bytes <==> s.files[name] == bytes && !Taken(s, choices, name)
    ensures forall c :: Takes(s, c, name) ==> name !in s.known
    decreases |choices|
  {
    if choices != [] {
      FileSurvivesIff(Step(s, choices[0]), choices[1..], name, bytes);
    }
  }

  /** Files the cache lists are never touched by a conflict copy. */
  lemma StepKeepsFiles(s: State, c: Choice, name: string)
    requires name in s.known && name in s.files
    ensures var t := Step(s, c); name in t.known && name in t.files && t.files[name] == s.files[name]
  {
  }

  lemma {:induction false} ListedFilesAreUntouched(s: State, choices: seq<Choice>, name: string)
    requires name in s.known && name in s.files
    ensures var t := Run(s, choices); name in t.known && name in t.files && t.files[name] == s.files[name]
    decreases |choices|
  {
    if choices != [] {
      StepKeepsFiles(s, choices[0], name);
      ListedFilesAreUntouched(Step(s, choices[0]), choices[1..], name);
    }
  }

  // ---- one conflict ----

  /** A queued edit of a version that has since been replaced on the drive. */
  predicate Conflicting(s: State) {
    && s.parentSynced && s.pc == Idle && s.op.Some? && s.staged == s.edit
    && s.base < s.remote.etag < s.clock && s.theirs == s.remote
  }

  predicate NoLocalEdits(choices: seq<Choice>) {
    forall c :: c in choices ==> !c.Flush?
  }

  /** The file on the drive always has the bytes someone else last gave it; the edit is
      staged or copied. */
  predicate KeptBoth(s: State) {
    && s.parentSynced && s.base <= s.remote.etag < s.clock
    && s.theirs.content == s.remote.content
    && (s.pc != Idle ==> s.op == Some(InProgress))
    && (CopyHeld(s) || (s.staged == s.edit && s.base < s.remote.etag && s.op.Some? && !s.pc.Downloaded? && s.pc != Confirmed))
    && (s.op.Some? && s.base == s.remote.etag ==> s.staged == s.remote.content)
    && (s.pc == Matched ==> s.base == s.remote.etag)
    && (s.pc.CopyUploaded? ==> s.pc.name in s.files && s.files[s.pc.name] == s.staged)
    && (s.pc.CopyKnown? ==> CopyHeld(s))
    && (s.pc.Downloaded? || s.pc.PutDone? ==> CopyHeld(s))
    && (s.pc.Conflict? || s.pc.CopyUploaded? || s.pc.CopyKnown? || s.pc.Downloaded? || s.pc.PutDone? ==>
          s.pc.etag <= s.remote.etag)
    && (s.pc.Downloaded? || s.pc.PutDone? ==> s.pc.etag == s.remote.etag ==> s.staged == s.remote.content)
  }

  lemma StepKeepsBoth(s: State, c: Choice)
    requires KeptBoth(s) && QuietChoice(s, c) && !c.Flush?
    ensures KeptBoth(Step(s, c))
  {
    var t := Step(s, c);
    assert s.op.Some? ==> s.op.value.Pending? || s.op.value.InProgress?;
    if CopyHeld(s) {
      var name :| name in s.known && name in s.files && s.files[name] == s.edit;
      assert name in t.known && name in t.files && t.files[name] == s.edit;
    }
    if c.CacheCopy? && s.pc.CopyUploaded? {
      assert s.pc.name in t.known && t.files[s.pc.name] == t.staged;
    }
  }

  lemma {:induction false} RunKeepsBoth(s: State, choices: seq<Choice>)
    requires KeptBoth(s) && Quiet(s, choices) && NoLocalEdits(choices)
    ensures KeptBoth(Run(s, choices))
    decreases |choices|
  {
    if choices != [] {
      StepKeepsBoth(s, choices[0]);
      RunKeepsBoth(Step(s, choices[0]), choices[1..]);
    }
  }

  lemma {:induction false} EditIsTheSame(s: State, choices: seq<Choice>)
    requires NoLocalEdits(choices)
    ensures Run(s, choices).edit == s.edit
    decreases |choices|
  {
    if choices != [] {
      EditIsTheSame(Step(s, choices[0]), choices[1..]);
    }
  }

  /** A local edit against a concurrent remote one, killed and retried at any point: the
      drive's file keeps the other party's latest bytes, the edit is staged or in a
      copy, and it is in a copy once the op is gone. */
  lemma ConflictKeepsBoth(s: State, choices: seq<Choice>)
    requires Conflicting(s) && Quiet(s, choices) && NoLocalEdits(choices)
    ensures var end := Run(s, choices);
      && end.remote.content == end.theirs.content
      && (end.staged == s.staged || s.staged in end.files.Values)
      && (end.op.None? ==> s.staged in end.files.Values)
  {
    RunKeepsBoth(s, choices);
    EditIsTheSame(s, choices);
    var end := Run(s, choices);
    if CopyHeld(end) {
      var name :| name in end.known && name in end.files && end.files[name] == end.edit;
    }
  }

  // ---- where keep-both fails ----

  lemma RunStep(s: State, c: Choice, rest: seq<Choice>)
    ensures Run(s, [c] + rest) == Run(Step(s, c), rest)
  {
    assert ([c] + rest)[1..] == rest;
  }

  /** What the model's steps make of a list of four choices. */
  lemma RunFour(s: State, a: Choice, b: Choice, c: Choice, d: Choice)
    ensures Run(s, [a, b, c, d]) == Step(Step(Step(Step(s, a), b), c), d)
  {
    RunStep(s, a, [b, c, d]);
    RunStep(Step(s, a), b, [c, d]);
    RunStep(Step(Step(s, a), b), c, [d]);
    RunStep(Step(Step(Step(s, a), b), c), d, []);
    assert [a] + [b, c, d] == [a, b, c, d] && [b] + [c, d] == [b, c, d] && [c] + [d] == [c, d] && [d] + [] == [d];
  }

  function Edited(): State { Step(Synced([1], 0, map[]), Flush([2])) }

  /** A remote edit between the pre-check and the PUT is overwritten and kept nowhere. */
  lemma EditInsideTheWindowIsLost()
    ensures var end := Run(Edited(), [Claim, PreCheck, RemoteEdit([3]), Put]);
      end.theirs.content == [3] && end.remote.content == [2] && end.staged == [2] && end.files == map[]
  {
    RunFour(Edited(), Claim, PreCheck, RemoteEdit([3]), Put);
  }

  /** So is one the pre-check failed to report. */
  lemma UnansweredPreCheckOverwrites()
    ensures var end := Run(Edited(), [RemoteEdit([3]), Claim, PreCheckFails, Put]);
      end.theirs.content == [3] && end.remote.content == [2] && end.staged == [2] && end.files == map[]
  {
    RunFour(Edited(), RemoteEdit([3]), Claim, PreCheckFails, Put);
  }

  /** `RemoteEdit` for each of these contents in turn. */
  function EditedRemotely(s: State, contents: seq<Content>): State
    decreases |contents|
  {
    if contents == [] then s else EditedRemotely(Step(s, RemoteEdit(contents[0])), contents[1..])
  }

  lemma {:induction false} EveryEditRaisesTheEtag(s: State, contents: seq<Content>)
    requires s.remote.etag < s.clock
    ensures var t := EditedRemotely(s, contents);
      && t.origin == s.origin
      && (if contents == [] then t == s else s.remote.etag < t.remote.etag)
    decreases |contents|
  {
    if contents != [] {
      EveryEditRaisesTheEtag(Step(s, RemoteEdit(contents[0])), contents[1..]);
    }
  }

  /** Exactly when a PUT is safe, from any claim: it replaces the version its bytes come
      from if and only if nobody edits the file after the pre-check and the row's etag,
      or the file's where the pre-check was not answered, is the one the staged bytes
      come from. */
  lemma PutIsSafeExactlyWhen(s: State, answered: bool, edits: seq<Content>)
    requires s.pc == Claimed && s.origin <= s.remote.etag < s.clock
    requires Step(s, if answered then PreCheck else PreCheckFails).pc == Matched
    ensures var t := EditedRemotely(Step(s, if answered then PreCheck else PreCheckFails), edits);
      t.remote.etag == t.origin <==> edits == [] && s.origin == if answered then s.base else s.remote.etag
  {
    EveryEditRaisesTheEtag(Step(s, if answered then PreCheck else PreCheckFails), edits);
  }

  /** Whether anyone has edited the file since its bytes were last put on the drive or
      taken from it. */
  predicate StillCurrent(s: State, choices: seq<Choice>, current: bool)
    decreases |choices|
  {
    if choices == [] then current else StillCurrent(Step(s, choices[0]), choices[1..], CurrentAfter(s, choices[0], current))
  }

  predicate CurrentAfter(s: State, c: Choice, current: bool) {
    if c.RemoteEdit? then false
    else
      || (c.Put? && s.pc == Matched) || (c.Download? && s.pc.CopyKnown?) || (c.Reopen? && s.pc == Idle && s.op.None?)
      || current
  }

  lemma {:induction false} CurrentIffUnedited(s: State, choices: seq<Choice>, current: bool)
    requires s.origin <= s.remote.etag < s.clock && (current <==> s.origin == s.remote.etag)
    ensures var end := Run(s, choices);
      && end.origin <= end.remote.etag < end.clock
      && (end.origin == end.remote.etag <==> StillCurrent(s, choices, current))
    decreases |choices|
  {
    if choices != [] {
      CurrentIffUnedited(Step(s, choices[0]), choices[1..], CurrentAfter(s, choices[0], current));
    }
  }

  /** A PUT whose pre-check was not answered is safe if and only if nobody has edited the
      file since its bytes were last put on the drive or taken from it. */
  lemma UncheckedPutIsSafeIff(content: Content, etag: Etag, files: map<string, Content>, before: seq<Choice>, edits: seq<Content>)
    requires Run(Synced(content, etag, files), before).pc == Claimed
    ensures var t := EditedRemotely(Step(Run(Synced(content, etag, files), before), PreCheckFails), edits);
      t.remote.etag == t.origin <==> edits == [] && StillCurrent(Synced(content, etag, files), before, true)
  {
    CurrentIffUnedited(Synced(content, etag, files), before, true);
    PutIsSafeExactlyWhen(Run(Synced(content, etag, files), before), false, edits);
  }

  /** `[1]` is staged and open, the file is edited to `[3]`, a poll refreshes the row, and
      the handle flushes `[2]`. */
  function PolledEdit(): State {
    State([2], 1, Version([3], 1), map[], {}, true, Some(Pending), Idle, 2, [2], false, 0, Version([3], 1))
  }

  lemma PolledEditIsReached()
    ensures Step(Step(Step(Synced([1], 0, map[]), RemoteEdit([3])), Poll), Flush([2])) == PolledEdit()
  {
    var s := Synced([1], 0, map[]);
    var none: map<string, Content> := map[];
    assert none.Keys == {};
    assert Step(s, RemoteEdit([3])) == s.(remote := Version([3], 1), theirs := Version([3], 1), clock := 2);
  }

  /** The flush is checked against the new etag, and overwrites the version it came with. */
  lemma PollUnderOpenHandleOverwrites()
    ensures Step(Step(Step(Synced([1], 0, map[]), RemoteEdit([3])), Poll), Flush([2])) == PolledEdit()
    ensures var end := Run(PolledEdit(), [Claim, PreCheck, Put, Confirm]);
      end.theirs.content == [3] && end.remote.content == [2] && end.staged == [2] && end.files == map[]
  {
    PolledEditIsReached();
    RunFour(PolledEdit(), Claim, PreCheck, Put, Confirm);
  }

  // ---- a conflict without a folder on the drive ----

  /** Nothing was copied, and the file has the other party's bytes. */
  predicate NothingCopied(s: State, files: map<string, Content>) {
    && !s.parentSynced && s.files == files && s.theirs.content == s.remote.content
    && (s.op.Some? || s.pc != Idle ==> s.base < s.remote.etag < s.clock)
    && (s.pc in {Idle, Claimed, Confirmed} || s.pc.Conflict?)
  }

  lemma {:induction false} NothingCopiedRun(s: State, choices: seq<Choice>, files: map<string, Content>)
    requires NothingCopied(s, files) && Quiet(s, choices) && NoLocalEdits(choices)
    ensures NothingCopied(Run(s, choices), files)
    decreases |choices|
  {
    if choices != [] {
      NothingCopiedRun(Step(s, choices[0]), choices[1..], files);
    }
  }

  /** From a conflict over bytes no other file has, killed and retried at any point:
      once the op is gone the edit is on the drive if and only if the folder was. */
  lemma CopiedIffParentSynced(s: State, choices: seq<Choice>)
    requires Conflicting(s.(parentSynced := true)) && s.staged !in s.files.Values
    requires Quiet(s, choices) && NoLocalEdits(choices)
    ensures var end := Run(s, choices);
      end.op.None? ==> (s.staged in end.files.Values <==> s.parentSynced)
  {
    if s.parentSynced {
      assert s.(parentSynced := true) == s;
      ConflictKeepsBoth(s, choices);
    } else {
      NothingCopiedRun(s, choices, s.files);
    }
  }

  function StrandedEdit(): State {
    State([2], 0, Version([3], 1), map[], {}, false, Some(Pending), Idle, 2, [2], false, 0, Version([3], 1))
  }

  /** A conflict on a file whose folder is not on the drive yet: the op is dropped, and
      the next open replaces the edit, which is kept nowhere. */
  lemma UnsyncedParentDropsTheEdit()
    ensures var end := Step(Run(StrandedEdit(), [Claim, PreCheck, SkipCopy, DropOp]), Reopen);
      end.edit == [2] && !end.delivered && end.op == None
      && end.staged == [3] && end.remote.content == [3] && end.files == map[]
  {
    var s := StrandedEdit();
    RunFour(s, Claim, PreCheck, SkipCopy, DropOp);
    assert Step(Step(s, Claim), PreCheck) == s.(op := Some(InProgress), pc := Conflict(1));
  }

  /** A copy takes the place of a file of that name the cache does not list. */
  lemma UnlistedNamesakeIsOverwritten(tag: Label)
    ensures var name := CopyName(tag, 0);
      var s := Step(Edited(), RemoteEdit([3])).(files := map[name := [4]]);
      var end := Run(s, [Claim, PreCheck, UploadCopy(tag, 0), CacheCopy]);
      end.files == map[name := [2]]
  {
    var s := Step(Edited(), RemoteEdit([3])).(files := map[CopyName(tag, 0) := [4]]);
    RunFour(s, Claim, PreCheck, UploadCopy(tag, 0), CacheCopy);
  }

  // ---- the executor itself ----

  /** An uninterrupted `_execute_write`. */
  function Uninterrupted(s: State, tag: Label, n: nat): State {
    var checked := Step(Step(s, Claim), PreCheck);
    var written :=
      if s.remote.etag == s.base then Step(Step(checked, Put), Confirm)
      else if s.parentSynced then KeepBoth(checked, tag, n)
      else Step(checked, SkipCopy);
    Step(written, DropOp)
  }

  function KeepBoth(s: State, tag: Label, n: nat): State {
    Step(Step(Step(Step(s, UploadCopy(tag, n)), CacheCopy), Download), Confirm)
  }

  class MountedFile {
    var staged: Content
    var base: Etag
    var remote: Version
    var files: map<string, Content>
    var known: set<string>
    var parentSynced: bool
    var op: Option<Status>
    var clock: Etag
    ghost var edit: Content
    ghost var delivered: bool
    ghost var origin: Etag
    ghost var theirs: Version

    ghost function Now(pc: Pc): State
      reads this
    {
      State(staged, base, remote, files, known, parentSynced, op, pc, clock, edit, delivered, origin, theirs)
    }

    /** `_execute_write` of a queued write, undisturbed: these micro-steps, no others. */
    method ExecuteWrite(tag: Label) returns (conflict: bool, n: nat)
      requires op == Some(Pending)
      modifies this
      ensures conflict <==> old(remote.etag != base)
      ensures conflict && old(parentSynced) ==> NameFor(old(known), tag, n)
      ensures Now(Idle) == Uninterrupted(old(Now(Idle)), tag, n)
    {
      n := 0;
      op := Some(InProgress);
      conflict := remote.etag != base;
      if conflict {
        n := ResolveWriteConflict(remote.etag, tag);
      } else {
        ReplaceRemote();
      }
      op := None;
    }

    method ReplaceRemote()
      modifies this`remote, this`base, this`clock, this`origin, this`delivered
      ensures Now(Confirmed) == Step(Step(old(Now(Matched)), Put), Confirm)
    {
      var etag := clock;
      remote, clock := Version(staged, etag), clock + 1;
      origin, delivered := etag, delivered || staged == edit;
      base := etag;
    }

    /** `_resolve_write_conflict`. */
    method ResolveWriteConflict(etag: Etag, tag: Label) returns (n: nat)
      modifies this`files, this`known, this`staged, this`base, this`origin
      ensures NameFor(old(known), tag, n)
      ensures parentSynced ==> Now(Confirmed) == KeepBoth(old(Now(Conflict(etag))), tag, n)
      ensures !parentSynced ==> Now(Confirmed) == Step(old(Now(Conflict(etag))), SkipCopy)
    {
      var name;
      name, n := FreeCopyName(tag, known);
      if parentSynced {
        CopyToRemote(etag, tag, n, name);
        TakeRemote(etag);
      }
    }

    method CopyToRemote(etag: Etag, tag: Label, n: nat, name: string)
      requires parentSynced && NameFor(known, tag, n) && name == CopyName(tag, n)
      modifies this`files, this`known
      ensures Now(CopyKnown(etag)) == Step(Step(old(Now(Conflict(etag))), UploadCopy(tag, n)), CacheCopy)
    {
      files := files[name := staged];
      known := known + {name};
    }

    method TakeRemote(etag: Etag)
      modifies this`staged, this`origin, this`base
      ensures Now(Confirmed) == Step(Step(old(Now(CopyKnown(etag))), Download), Confirm)
    {
      staged := remote.content;
      origin := remote.etag;
      base := etag;
    }
  }

  method FreeCopyName(tag: Label, known: set<string>) returns (name: string, n: nat)
    ensures name == CopyName(tag, n) && NameFor(known, tag, n)
    ensures n <= |known|
  {
    var candidate := (k: nat) => CopyName(tag, k);
    forall i: nat, j: nat | candidate(i) == candidate(j) ensures i == j {
      ConflictNames.CandidatesDiffer(tag.stem, tag.ts, tag.suffix, i, j);
    }
    name, n := ConflictNames.FirstFree(known, candidate);
    forall k: nat | k < n ensures CopyName(tag, k) in known {
      assert candidate(k) in known;
    }
  }
}
