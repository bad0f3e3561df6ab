# Verified model of a OneDrive sync engine

A Dafny model of the parts of a OneDrive client that can lose data if they are wrong, with
proofs about whole runs. `dafny verify dfyconfig.toml` checks everything.

| part | files | what it models |
|---|---|---|
| Folder Pairs | `Reconcile`, `ConflictNames`, `Pair*` | the three-way diff, the order its actions run in, the executor with its durable writes, stops, kills, failing actions and conflict copies |
| Excluded names | `Exclusion`, `ExclusionRun` | the pruning walk, the remote and baseline filters, and what they mean for a pass |
| Mount queue | `Mount*` | offline writes through the mount, the queue they leave, and the worker that replays it |
| Item cache | `Cache*` | the table with its two ids per item and its denormalised paths |
| Large uploads | `ResumableUpload` | the chunk loop against a session that may lose replies |
| QuickXorHash | `Bits`, `QuickXorHash` | the hash bit by bit |

State the program updates in place is a class (`PairWorker.Worker`, `MountWorker.Mount` and
`MountWorker.Drive`, `MountConflict.MountedFile`, `CacheStore.ItemCache`,
`ResumableUpload.Session`). Each of its methods is proved equal to a function on values, which the theorems
are about, or (the upload) against the promised property itself.

## Main results

**Folder Pairs.** A completed pass computes a three-way merge that is defined without mentioning
actions, for any tie order of the sort, and leaves an empty plan (`PassIsThreeWayMerge`). Stopping
after any action and diffing again gives exactly the remaining actions (`ResumeIsExact`). Over any
run of passes, any of whose actions may fail after any durable write while the later ones still
run, every file version that is not its path's baseline version stays stored (`NoVersionIsLost`);
without any condition on the deletions this still holds of every unseen local version
(`LocalForever`), and of an unseen remote one exactly if no folder's delete takes it
(`LostIffAFolderGoes`). A conflict killed half-way still ends with both versions on both sides
(`KilledConflictStillKeepsBoth`). A bootstrap pass with its baselines leaves nothing for the next
pass (`BootstrapThenNothing`), and pairs two files or keeps both by what is reported of them
(`FirstPassPairs`, `HashedFilesEndEqual`). On a server whose folder etags follow their children, exactly the
predicted deletes are refused and exactly the predicted entries stay (`RefusedIff`,
`EntryStaysIff`), further passes reach the same end (`DriftConverges`), and no version is lost
either (`NoVersionIsLostThere`).

**Excluded names.** The pruning walk and the filters hide the same paths; reconciling filtered
maps is filtering the reconciliation; a hidden path's baseline and local file survive any pass,
whatever fails in it, and its remote entry goes exactly with a folder above it
(`HiddenGoesWithAFolder`).

**Mount queue.** From a fully synced state, after any interleaving of file-system events and
worker steps: the queue can be drained if and only if no live item is gone from the drive and each
delete of the first pass finds none below it, |queue| passes are then enough, and whenever it is
drained the drive mirrors the mount if and only if no upload was left behind
(`HistoryThenDrain`). After an offline history a drained queue always means a mirror
(`OfflineHistoryMirrors`). Throughout, the mount shows what the user did last
(`RunShowsWhatWasDone`). A conflicting write keeps both versions under any schedule of kills,
retries, polls and further edits, up to two windows (`NothingUnseenIsLost`, `ConflictKeepsBoth`,
`PutIsSafeExactlyWhen`).

**Item cache.** Incremental paths are the recomputed paths, exactly when the new parent is known;
the breadth-first walk is the path-prefix query; a first crawl ends with the same table in
whatever order the items come; ids stay unique, confirmed items keep their rows, and a row says what
was last reported of its item (`RowSaysWhatItWasTold`).

**Large uploads and QuickXorHash.** See the table.

## Where the program does not do what it is meant to

Each item names a concrete history in which the property fails and the lemma that says exactly
when it holds.

- A folder deleted on one side, with something changed or new inside it on the other. Fails:
  `PairLoss.UnseenEditLostInTwoPasses` (two passes delete an edit nobody has seen). The edit is lost
  if and only if the first pass gets the delete of a folder above it through
  (`PairUnseen.LostIffAFolderGoes`): on a server with still folder etags, if such a folder is slated
  for remote deletion (`PairUnseen.UnseenRemoteIsLostIff`); on one whose folder etags follow their
  children, if one is whose delete is not refused (`PairUnseen.UnseenRemoteIsLostThereIff`). With
  still etags the trees are equal after a pass if and only if deletions are closed downwards
  (`PairConverge.TreesEqualIffDeleteClosed`). The cause is that folder deletion is decided from
  presence alone.
- A conflict copy of a Folder Pair overwrites a remote file of its name, because the name is looked
  up among the local files only. Fails: `PairNamesake.NamesakeIsOverwritten`. Exactly when:
  `PairNamesake.NamesakeSurvivesIff`.
- A remote file edited between a Folder Pair's diff and its upload is overwritten if it is small, since
  that call ignores `If-Match`. Fails: `PairForeign.EditAfterTheDiffIsOverwritten`. Exactly when:
  `PairForeign.ForeignEditStaysIff`.
- `mv D/T T; rmdir D; mv T/f f; rmdir T` on the offline mount: removing `T` cancels its queued
  move, so the delete of `D` still takes `f` along, and the queue never empties again. Fails:
  `MountLoss.MovedOutThenRemovedNeverDrains`. Exactly when: `MountDrain.DrainEmptiesIff`; with no
  rename queued the condition can be read off the queue (`MountHistory.PassSafeIffGuarded`), and a
  guard on `rmdir` brings it about (`MountHistory.GuardedHistoryDrains`).
- The worker uploads bytes that the open handle has not flushed, and the user writes the flushed
  bytes back: the flush sees its baseline and queues nothing. Fails:
  `MountStale.UnflushedUploadIsNeverRepaired`. Exactly when: `MountBytes.FlushAccountsIff` for one
  flush, `MountHistory.EmptyQueueMirrorsIff` for a run.
- `mkdir X; rmdir A; mv X A`, offline: the create, queued first, adopts the old `A`, and the delete
  then removes it. Fails: `MountReuse.RecreatedFolderIsLost`. Exactly when: `MountReuse.OrderDecides`;
  a name whose holder's delete is queued ahead of the create is safe, and allowed in all mount
  theorems.
- A file created offline is unlinked with its write handle open (`open`, `unlink`, `close`): the next
  flush hashes a staged file that is gone, and the exception ends the whole session. Fails:
  `MountSession.TemporaryFileEndsTheSession`. Exactly when: `MountSession.SessionEndsIff` (some file
  unlinked before its first sync under an open handle, that handle flushed dirty);
  `MountRace.PurgedIffUnclaimed` adds that its create must not be in flight at the unlink. `rename` onto
  a taken name ends the session too (`MountCalls.RenameEntry`).
- An unlink while a write or a rename of the file is claimed or waits for its confirmation: the
  delete carries an outdated etag, its 412 counts as done, and the file stays on the drive; after
  a rename the row even becomes visible again. Fails: `MountRace.UnlinkDuringWriteLeavesTheFile`,
  `MountRace.UnlinkDuringRenameResurrects`. Exactly when: `MountRace.UnlinkOfSynced`.
- An unlink between a create's lookup and its mark leaves a file on the drive that no row knows.
  Fails: `MountRace.UnlinkInsideTheClaimLeavesAnOrphan`. Exactly when: `MountRace.UnlinkOfNewIff`.
- A remote edit between the pre-check and the PUT is overwritten, and so is one the pre-check
  could not report, or one whose etag a poll has put into the row while the handle was open. Fails:
  `MountConflict.EditInsideTheWindowIsLost`, `UnansweredPreCheckOverwrites`,
  `PollUnderOpenHandleOverwrites`. Exactly when: `MountConflict.PutIsSafeExactlyWhen`, and
  `UncheckedPutIsSafeIff` where the pre-check gave no answer.
- A conflict whose folder is not on the drive drops the queued edit. Fails:
  `MountConflict.UnsyncedParentDropsTheEdit`. Exactly when: `MountConflict.CopiedIffParentSynced`.
- A conflict copy overwrites a namesake the cache does not list. Fails:
  `MountConflict.UnlistedNamesakeIsOverwritten`. Exactly when: `MountConflict.FileSurvivesIff`.
- An item moved into a folder that the delta page lists later keeps its old path for good, because
  only empty paths are resolved afterwards, although the code's comment speaks of stale ones too;
  the walk then meets the row `_build_remote_map` calls impossible. Fails:
  `CacheCrawl.MovedBeforeItsFolderStaysStale`. Exactly when: `CacheTree.UpsertKeepsPathsIff`.
- Children reported under a folder before the folder's own create is confirmed are not listed
  under it. Fails: `CacheRuns.EarlyChildIsOrphaned`. Exactly when: `CacheIdentity.ConfirmOrphansIff`.
- A Folder Pair's remote delete tombstones the row by remote id, which misses a row still keyed by
  its pending id: the cache lists an item the drive has lost. Fails:
  `CacheRuns.DeletedItemStaysListed`. Exactly when: `CacheIdentity.MarkDeletedBuriesIff`.
- Deleting a folder locally deletes excluded files inside it on the drive; in the other direction
  `rmdir` refuses. Fails: `ExclusionRun.ExcludedFileGoesWithItsFolder`. Exactly when:
  `ExclusionRun.HiddenRemoteGoesIff` with still folder etags, `HiddenRemoteGoesThereIff` otherwise.

## What the theorems assume

- Folder Pairs: the three maps agree on file or folder at each path; each tree holds every
  ancestor of its paths, as folders; deletions are closed downwards (`PairSafety.Good`; the lemmas of
  `PairSwept`, `PairSweeps`, `PairKept`, `PairLocal`, `PairUnseen` and `PairConverge` do without the
  last). A content change changes mtime or size locally, and the etag remotely (`BaselinesHonest`). A
  conflict copy's name is free on both sides (`FreshCopies`; `PairNamesake` says what happens when it
  is not). During a pass nobody else edits either tree (`PairForeign` says what happens to a remote
  edit), and the cached remote entries are those of the drive.
- Folder etags: in `PairWorld` a remote folder's etag does not change when its children do, so its
  delete is never refused. The code's own comments say that it may. `PassIsThreeWayMerge`,
  `ResumeIsExact`, `TreesEqualIffDeleteClosed`, `UnseenRemoteIsLostIff`, `HiddenRemoteGoesIff` and the
  other theorems about complete passes rest on this, and their rows say so; theorems about passes
  with failing actions do not, since a refused delete is one that ends before its first write
  (`PairDriftFault.DriftIsFaulty`). `PairDrift`, `PairSettle`, `PairRefusal`, `PairDriftFault` and
  `PairUnseen` prove what happens on a server where the etag does change.
- Mount queue: created and renamed items get names that are free in their folder, locally and on
  the drive, items whose delete is queued ahead of the create aside; a folder is not moved below
  itself; one write handle per inode; an item's etag changes only with its own bytes, name or parent;
  nobody else edits the drive (`MountForeign` needs no such condition). In `MountModel` worker steps are atomic, every call is answered, and
  they may come at any moment, except that a create waits for the deletes queued before it, as the
  worker's own order makes it. `MountRace` and `MountConflict` split the steps, `MountRetry` loses a
  reply, and `MountConflict` has the other party's edits and the delta polls.
- Keep-both (`MountConflict.Quiet`): pre-checks are answered, nobody edits the file between a
  matching pre-check and its PUT, and no poll has refreshed the row under an open handle that then
  flushes. Each of the three is shown to be needed by a failing run.
- Item cache: parent links have no cycle; names hold no slash.
- Large uploads: the session keeps a contiguous prefix, answers 200 or 201 only for the PUT that
  completes it, and is gone once it is complete. The local file does not change during the upload.

## Model

| member | source | states |
|---|---|---|
| `Reconcile.ReconcilePair` | onedrive/sync/reconcile.py:67-166 | for any three maps and any order of visiting the paths, the plan holds exactly the classified actions, one per path, in an order the sort allows |
| `Reconcile.SortedForExecution` | onedrive/sync/reconcile.py:219-228 | the same actions, no two for one path, creates and writes before deletes, folders first and shallow first, deletes deepest first |
| `Reconcile.PlanIsTopological` | onedrive/sync/reconcile.py:219-228 | in every plan an ancestor's create stands before everything below it and an ancestor's delete after everything below it |
| `Reconcile.PlanHasPhases` | onedrive/sync/reconcile.py:219-228 | in every plan folder creates come first, file writes next, deletes last; creates and writes go shallowest first, deletes deepest first |
| `Reconcile.LocalIsGivenUpIff` | onedrive/sync/reconcile.py:129-164 | a local file is overwritten or deleted if and only if its time and size are the recorded ones and the remote file is gone or has another etag |
| `Reconcile.RemoteIsGivenUpIff` | onedrive/sync/reconcile.py:129-164 | a remote file is overwritten or deleted if and only if its etag is the recorded one and the local file is gone or has another time or size |
| `Reconcile.BothAreKeptIff` | onedrive/sync/reconcile.py:117-143 | two files are in conflict if and only if both were edited since the baseline, except that a first pass takes two of equal size and no differing hashes as one; nothing is done exactly if neither was edited, or they are so taken |
| `PairSafety.VanishesIsDelete` | onedrive/sync/reconcile.py:93-164 | a path is classified as a delete or a purge exactly when it has a baseline, is missing on a side and (unless a folder) is unchanged on the other |
| `PairEffect.WritesSucceed` | onedrive/sync/pair_worker.py:473-583 | from a state in which the action is enabled, each of its durable writes goes through and leaves the state written down independently in `After` |
| `PairEffect.TouchesOnlyItsPath` | onedrive/sync/pair_worker.py:473-635 | no prefix of an action's writes changes anything but its own path and its conflict copy, the etag of the folder above aside |
| `PairInvariant.GoodAfter` | onedrive/sync/pair_worker.py:473-635 | after any prefix of an action's writes the preconditions of a pass hold again |
| `PairInvariant.ActionSettles` | onedrive/sync/reconcile.py:80-164 | after an action its path needs no further action |
| `PairInvariant.ActionRecords` | onedrive/sync/pair_worker.py:473-635 | after an action its path, and its copy, is on both sides with a baseline of the item's id and etag and the file's time and size, or on neither and without one |
| `PairInvariant.SizesStay` | onedrive/sync/pair_worker.py:473-635 | no prefix of an action leaves an entry whose size is not that of its bytes |
| `PairPass.FirstIsEnabled` | onedrive/sync/pair_worker.py:473-586 | the first action of a plan is enabled: its parents exist, and a folder to be deleted is empty |
| `PairPass.RemoteParentResolves` | onedrive/sync/pair_worker.py:459-469 | `_resolve_parent_remote_id` finds the id of the real parent folder for every create and upload |
| `PairPass.CopyParentResolves` | onedrive/sync/pair_worker.py:607-611 | it also finds the real parent of every conflict copy, so the fallback to the pair's root is not taken |
| `PairPass.DeletedFolderIsEmpty` | onedrive/sync/pair_worker.py:577-582 | nothing is left below a folder, on its side, when its delete comes |
| `PairPass.OneAction` | onedrive/sync/pair_worker.py:213-240 | one action of a plan runs to its end, folder etags being still, and the rest of the plan is a plan for what it leaves |
| `PairPass.ResumeIsExact` | onedrive/sync/pair_worker.py:203-224 | stopping after any k actions and diffing afresh plans exactly the remaining actions, folder etags being still |
| `PairMerge.SettledIsMerged` | onedrive/sync/reconcile.py:80-164 | where nothing is planned both trees hold the three-way merge |
| `PairMerge.PassIsThreeWayMerge` | onedrive/sync/pair_worker.py:171-315 | executing a whole plan gives both trees the merge of the three initial maps at every path, each conflict's local edit under its copy's name on both sides, nothing else, and an empty next plan, folder etags being still (`PairSettle.DriftConverges` for a server where they are not) |
| `PairCrash.UnseenVersionsAreKept` | onedrive/sync/reconcile.py:129-164 | a file version that is not its path's baseline version counts as kept |
| `PairCrash.KeptAfter` | onedrive/sync/pair_worker.py:522-635 | no prefix of an action's durable writes removes the last store of a kept version |
| `PairCrash.NoVersionIsLost` | onedrive/sync/pair_worker.py:239-283 | over any sequence of passes, any of whose actions may end after any durable write with the later ones still run, every kept version stays stored and the next pass may start |
| `PairPartial.PassStands` | onedrive/sync/pair_worker.py:239-283 | after such a pass each path is as before, or at a stage of the one action that concerns it |
| `PairPartial.FaultyPassKeepsGood` | onedrive/sync/pair_worker.py:239-283 | after such a pass the preconditions of a pass hold again |
| `PairFault.FaultlessRun` | onedrive/sync/pair_worker.py:213-240 | if no action is cut off it is the pass of `Run` |
| `PairCrash.RenameAloneIsNotADelete` | onedrive/sync/pair_worker.py:603-606 | after the conflict's rename alone the next diff downloads the original and uploads the copy |
| `PairCrash.KilledConflictStillKeepsBoth` | onedrive/sync/pair_worker.py:590-635 | killed after any write of a conflict's resolution, one complete pass gives both sides both versions |
| `PairBootstrap.BootstrapThenNothing` | onedrive/sync/pair_worker.py:289-315 | a completed bootstrap pass and its baselines leave an empty plan for the next, ordinary pass |
| `PairFirst.FirstPassPairs` | onedrive/sync/pair_worker.py:285-315 | path by path, for two files without a baseline: of equal size and without differing hashes, they keep their bytes, get no copy and are recorded as a pair; otherwise the remote one has the path and the local one the copy's name, on both sides |
| `PairFirst.HashedFilesEndEqual` | onedrive/sync/reconcile.py:170-187 | where both sides report a hash, and equal hashes mean equal bytes, a completed first pass leaves both sides the same bytes at the path and loses none |
| `PairRecorded.PassRecords` | onedrive/sync/pair_worker.py:473-635 | after a complete pass every path that had an action, and every copy, has a complete and current baseline or is gone everywhere; every other path is as it was |
| `PairRecorded.FirstPassRecords` | onedrive/sync/pair_worker.py:438-455 | after a completed first pass no path is left without a complete and current baseline, folders included |
| `PairForeign.ForeignEditStaysIff` | onedrive/sync/pair_worker.py:522-575 | a remote file that somebody edits after the diff keeps that edit through the pass's own action on it if and only if the action is not the upload of a small file |
| `PairForeign.ForeignEditIsSeenNext` | onedrive/sync/pair_worker.py:543-575 | wherever any other action on it ends, no baseline claims the edited version, so the next diff sees the edit |
| `PairForeign.EditAfterTheDiffIsOverwritten` | onedrive/graph_client.py:459-474 | a concrete remote edit, made between the diff and the upload, that the upload replaces |
| `PairConverge.TreesEqualIffDeleteClosed` | onedrive/sync/reconcile.py:93-112 | a completed pass, folder etags being still, leaves equal trees if and only if everything below a folder slated for deletion is slated for it too |
| `PairConverge.OpenDeletionDiverges` | onedrive/sync/reconcile.py:93-112 | otherwise the trees differ after the pass, whatever the plan |
| `PairSweeps.RemoteGoesIff` | onedrive/sync/pair_worker.py:554-575 | over a pass in which anything may fail, a remote entry that no action writes to keeps its bytes or goes, and goes if and only if its own delete or that of a folder above it gets as far as its first write |
| `PairSwept.FirstPassFetches` | onedrive/sync/pair_worker.py:543-552 | whatever deletes are refused, a file that is new below a folder slated for remote deletion is fetched and baselined by the first pass |
| `PairSwept.NextPassDeletes` | onedrive/sync/reconcile.py:145-164 | a fetched file that is gone remotely is deleted locally by the next pass |
| `PairUnseen.LostIffAFolderGoes` | onedrive/sync/reconcile.py:93-164 | two passes of which only remote deletes may fail: an unseen remote file is on neither side afterwards if and only if, in the first, the delete of a folder above it gets through, and keeps its bytes remotely otherwise |
| `PairUnseen.UnseenRemoteIsLostIff` | onedrive/sync/reconcile.py:93-164 | with still folder etags: lost by two complete passes if and only if a folder above it was slated for remote deletion |
| `PairUnseen.UnseenRemoteIsLostThereIff` | onedrive/sync/pair_worker.py:554-575 | with drifting folder etags: lost by two complete passes if and only if a folder above it was slated for remote deletion and its delete is not refused |
| `PairLocal.PassKeepsLocal` | onedrive/sync/pair_worker.py:522-635 | a local version that is not the baseline's, or is also stored remotely, keeps its bytes through a pass in which any action may fail, at its path or at its copy's |
| `PairLocal.UnseenLocalIsSafe` | onedrive/sync/reconcile.py:129-164 | a local file version that is not its path's baseline version counts as safe |
| `PairLocal.LocalForever` | onedrive/sync/pair_worker.py:171-315 | and so it does over any number of such passes, whatever folders above it are slated for deletion |
| `PairLocal.LocalForeverThere` | onedrive/sync/pair_worker.py:171-315 | the same on the drifting server |
| `PairRooted.LocalStaysRooted` | onedrive/sync/pair_worker.py:513-583 | whatever fails in a pass, every local entry still has its folder |
| `PairNamesake.NamesakeSurvivesIff` | onedrive/sync/pair_worker.py:590-649 | resolving a conflict leaves a remote file with other bytes than the edit's alone if and only if the copy does not land on its name, which is beside the original, or in the pair's root if the pass's map lacks the folder |
| `PairNamesake.NamesakeIsOverwritten` | onedrive/sync/pair_worker.py:637-649 | a concrete remote file overwritten by a conflict copy |
| `PairKept.PassKeepsSafe` | onedrive/sync/pair_worker.py:239-283 | a remote file with no such folder above it, unseen or also stored locally, keeps its bytes through a pass in which any action may fail, and is so placed again for the next |
| `PairKept.SafeForever` | onedrive/sync/pair_worker.py:171-315 | and so it does over any number of such passes |
| `PairDrift.DriftIsStill` | onedrive/sync/pair_worker.py:554-575 | at every point of a pass, the drifting server holds what the still one holds and the entries whose deletes were refused |
| `PairSettle.FirstPassPends` | onedrive/sync/pair_worker.py:554-575 | after one pass nothing but the refused deletes is left to do |
| `PairSettle.DriftConverges` | onedrive/sync/pair_worker.py:554-575 | as many further passes as deletes were refused, in any order of their plans, reach the world that one pass on a still server ends with |
| `PairRefusal.RefusedIff` | onedrive/sync/pair_worker.py:554-560 | a planned folder delete is refused with a 412 if and only if some entry directly inside is itself slated for remote deletion and not refused |
| `PairRefusal.EntryStaysIff` | onedrive/sync/pair_worker.py:554-575 | a remote entry that no action writes to is still there after the pass if and only if its own delete, if planned, and those of all folders above it are refused |
| `PairDriftFault.DriftIsFaulty` | onedrive/sync/pair_worker.py:239-283 | on the drifting server a pass, whatever fails in it, is a pass of the still one in which the refused deletes end before their first write |
| `PairDriftFault.NoVersionIsLostThere` | onedrive/sync/pair_worker.py:171-315 | over any sequence of failing passes on the drifting server every kept version stays stored and the next pass may start |
| `PairDriftFault.SafeForeverThere` | onedrive/sync/pair_worker.py:171-315 | and an unseen remote file with no doomed folder above it keeps its bytes remotely |
| `PairLoss.UnseenEditLostInTwoPasses` | onedrive/sync/reconcile.py:145-164 | a concrete remote edit that two ordinary passes delete on both sides |
| `ConflictNames.CandidatesDiffer` | onedrive/sync/pair_worker.py:637-649 | the numbered candidates are all different |
| `ConflictNames.CandidateReads` | onedrive/sync/pair_worker.py:637-649 | every candidate starts with the original's stem, names the time, and keeps the suffix |
| `ConflictNames.FirstFree` | onedrive/sync/mount_sync_worker.py:284-289 | the naming loop ends, with the first candidate that is not taken |
| `ConflictNames.UniqueConflictPath` | onedrive/sync/pair_worker.py:637-649 | a conflict copy is beside its original and free in the local tree, after at most as many rounds as there are local entries |
| `PairWorker.Worker.CreateRemoteDir` | onedrive/sync/pair_worker.py:499-511 | this branch performs exactly the durable writes of the model, stopping where an exception would |
| `PairWorker.Worker.CreateLocalDir` | onedrive/sync/pair_worker.py:513-520 | the same for a local folder |
| `PairWorker.Worker.Upload` | onedrive/sync/pair_worker.py:522-541 | the same for a new file and for a replacement |
| `PairWorker.Worker.DownloadFile` | onedrive/sync/pair_worker.py:543-552 | the same for a download |
| `PairWorker.Worker.DeleteRemote` | onedrive/sync/pair_worker.py:554-575 | the same for a remote delete, which takes a folder's contents along |
| `PairWorker.Worker.DeleteLocal` | onedrive/sync/pair_worker.py:577-583 | the same for a local delete, which refuses a folder that is not empty |
| `PairWorker.Worker.ResolveConflict` | onedrive/sync/pair_worker.py:590-635 | the same for the six writes of a conflict |
| `PairWorker.Worker.ExecuteAction` | onedrive/sync/pair_worker.py:473-586 | any action changes the state as the model's `Execute`, and reports whether it completed |
| `PairWorker.Worker.WriteBootstrapBaselines` | onedrive/sync/pair_worker.py:438-455 | adds exactly the baselines of trusted files and of folders on both sides |
| `PairWorker.Worker.RunActions` | onedrive/sync/pair_worker.py:203-224 | the action loop runs exactly the actions before the stop, or all if it comes later, and asks before each |
| `PairWorker.CompletePass` | onedrive/sync/pair_worker.py:285-315 | from a good state, folder etags being still, no new folder meets a taken name, and after the pass, bootstrap baselines included, nothing is planned |
| `PairWorker.Worker.SyncOnePair` | onedrive/sync/pair_worker.py:171-315 | a pass plans, runs exactly the actions before the stop, completes if and only if no stop came before the plan's end and no new folder met a taken name, and leaves bootstrap mode only then; from a good state, folder etags being still, an unstopped pass completes and leaves an empty plan |
| `Exclusion.HiddenByNameOrFolder` | onedrive/sync/pair_worker.py:351-367 | a path has an excluded component exactly when its name is excluded or its folder has one |
| `Exclusion.BuildLocalMap` | onedrive/sync/pair_worker.py:319-343 | the pruning walk ends and yields exactly the entries without an excluded component, symlinks aside, each with the disk's kind, size and time |
| `Exclusion.BuildRemoteMap` | onedrive/sync/pair_worker.py:345-384 | every synced, visible row of the subtree gets its own key, with the row's remote id, kind, size, etag and hash; the branch for paths outside the prefix is dead |
| `Exclusion.BuildSyncedMap` | onedrive/sync/pair_worker.py:409-436 | the baselines are filtered by the same test |
| `Exclusion.FilterCommutes` | onedrive/sync/reconcile.py:80-85 | classifying filtered maps is filtering the classification |
| `Exclusion.PlanIsVisible` | onedrive/sync/reconcile.py:80-85 | a plan has an action for a path exactly when the path is visible and needs one |
| `PairFrame.WriteTakesRemoteIff` | onedrive/sync/pair_worker.py:554-575 | one durable write changes a remote entry other than the action's own if and only if it is the delete of a folder above it |
| `ExclusionRun.HiddenGoesWithAFolder` | onedrive/sync/pair_worker.py:554-575 | over a filtered pass in which anything may fail a hidden remote entry keeps its bytes or goes, and goes if and only if the delete of a folder above it gets as far as its first write |
| `ExclusionRun.HiddenRemoteGoesIff` | onedrive/sync/pair_worker.py:554-575 | with still folder etags: it goes in a complete pass if and only if a visible folder above it is slated for remote deletion |
| `ExclusionRun.HiddenRemoteGoesThereIff` | onedrive/sync/pair_worker.py:554-575 | with drifting folder etags: if and only if a visible folder above it is, and its delete is not refused |
| `ExclusionRun.HiddenIsUntouched` | onedrive/sync/pair_worker.py:409-436 | after a filtered pass any of whose actions may end after any durable write a hidden path has its baseline and its local file as before |
| `ExclusionRun.HiddenGetsNoBootstrapBaseline` | onedrive/sync/pair_worker.py:438-455 | no bootstrap baseline is written for a hidden path |
| `ExclusionRun.ExcludedFileGoesWithItsFolder` | onedrive/sync/pair_worker.py:554-575 | a concrete excluded remote file whose only copy a planned folder delete removes |
| `MountEvents.EventKeepsInv` | onedrive/fuse/operations.py:365-635 | every allowed create, mkdir, open, write, flush, release, rename, unlink and rmdir keeps the invariant that the queue accounts for each difference from the drive in names, places and kinds |
| `MountDrain.ExecKeepsInv` | onedrive/sync/mount_sync_worker.py:102-269 | any worker step whose turn it is keeps that invariant, and either finishes and drops its op or changes nothing |
| `MountDrain.GoesMissingIff` | onedrive/sync/mount_sync_worker.py:235-269 | a worker step takes a live item off the drive if and only if it is a delete with a live item below its target |
| `MountDrain.SomeOpGoesAhead` | onedrive/sync/mount_sync_worker.py:130-133 | in a non-empty queue some op can finish, as long as no live item is gone from the drive |
| `MountDrain.PassShrinks` | onedrive/sync/mount_sync_worker.py:84-100 | a pass whose deletes find no live item below them removes at least one op and leaves no unsafe delete |
| `MountDrain.DrainEmpties` | onedrive/sync/mount_sync_worker.py:84-100 | as many passes as there are ops then empty the queue |
| `MountDrain.DrainKeepsInv` | onedrive/sync/mount_sync_worker.py:84-100 | any number of passes keeps the invariant, and what is gone stays gone |
| `MountDrain.DrainEmptiesIff` | onedrive/sync/mount_sync_worker.py:235-269 | the queue ever empties if and only if no live item is gone and each delete of the first pass finds none below it |
| `MountInvariant.EmptyQueueMirrors` | onedrive/db.py:1048-1077 | with nothing queued and no dirty handle, drive and live tree have the same names, parents and kinds under id -> remote id, and are a mirror if and only if each file's bytes are accounted for |
| `MountBytes.FlushAccountsIff` | onedrive/fuse/operations.py:448-477 | a flush with nothing queued leaves the drive behind if and only if the bytes are the handle's baseline and the drive has others |
| `MountBytes.WorkTracks` | onedrive/sync/mount_sync_worker.py:165-202 | an upload of unflushed bytes puts the file among those left behind, one of flushed bytes takes it out, and no other worker step changes that set |
| `MountBytes.MirroredIffNothingBehind` | onedrive/sync/mount_sync_worker.py:84-100 | with an empty queue and no dirty handle the drive mirrors the mount if and only if no file is left behind |
| `MountHistory.RunKeepsInv` | onedrive/fuse/operations.py:365-635 | any interleaving of events and worker steps keeps the invariant, and the set of files left behind is exactly tracked |
| `MountHistory.FullySyncedMirrors` | onedrive/db.py:1048-1077 | with no op and no handle, fully synced is the same as mirrored |
| `MountHistory.EmptyQueueMirrorsIff` | onedrive/fuse/operations.py:448-477 | at any point of any run from a synced state, an empty queue without dirty handles means a mirror if and only if no file was left behind |
| `MountHistory.HistoryThenDrain` | onedrive/sync/mount_sync_worker.py:84-100 | after any history: when the queue can be drained, in how many passes, and when the drained queue means a mirror; the first and the last exactly |
| `MountHistory.OfflineHistoryMirrors` | onedrive/sync/mount_sync_worker.py:84-100 | after any offline history a drained queue means a mirror |
| `MountHistory.PassSafeIffGuarded` | onedrive/sync/mount_sync_worker.py:235-269 | with no rename queued the deletes of a pass are safe if and only if they all are where they stand |
| `MountHistory.GuardedHistoryDrains` | onedrive/fuse/operations.py:601-612 | the queue always drains when folders are removed only once nothing live is below them on the drive |
| `MountLoss.MovedOutThenRemovedNeverDrains` | onedrive/db.py:1093-1106 | a concrete sequence of four allowed calls after which no number of passes empties the queue |
| `MountSession.FlushEndsSessionIff` | onedrive/fuse/operations.py:448-452 | a flush ends the session if and only if the handle is dirty and its item has been purged |
| `MountSession.SessionEndsIff` | onedrive/fuse/operations.py:563-588 | over any run the session has ended if and only if some file was unlinked before its first sync with its handle open and that handle was flushed dirty |
| `MountSession.TemporaryFileEndsTheSession` | onedrive/fuse/operations.py:448-452 | create, unlink and flush of one file, after which the session has ended |
| `MountReuse.OrderDecides` | onedrive/sync/mount_sync_worker.py:143-160 | an item created under a name whose holder's delete is queued too ends up on the drive if and only if the delete goes first or it is a file |
| `MountReuse.RecreatedFolderIsLost` | onedrive/sync/mount_sync_worker.py:143-160 | a concrete offline history after which one pass empties the queue and the new folder is gone |
| `MountRetry.RetryAdoptsIff` | onedrive/sync/mount_sync_worker.py:143-160 | the retry of a create whose reply was lost adopts its own item, and makes no second one, if and only if the item was not renamed in between |
| `MountStale.UnflushedUploadIsNeverRepaired` | onedrive/fuse/operations.py:448-477 | a concrete run that ends with an empty queue, clean handles and bytes on the drive that the mount does not have |
| `MountWorker.Mount.EnqueueOp` | onedrive/db.py:1048-1077 | a write is not queued when an upload of the item already is |
| `MountWorker.Mount.CreateFile` | onedrive/fuse/operations.py:391-421 | inserts a pending row, opens a dirty handle and queues the create |
| `MountWorker.Mount.MakeDir` | onedrive/fuse/operations.py:553-558 | inserts a pending folder row and queues its create |
| `MountWorker.Mount.OpenFile` | onedrive/fuse/operations.py:320-353 | opens the staged file for writing; truncation makes the handle dirty, and the bytes before it stay its baseline |
| `MountWorker.Mount.FlushHandle` | onedrive/fuse/operations.py:448-477 | queues a write if and only if the handle is dirty and its bytes have changed, and rebases the handle; ends the session if the staged file is gone |
| `MountWorker.Mount.ReleaseHandle` | onedrive/fuse/operations.py:479-510 | flushes, catching what the flush raises, and closes the handle |
| `MountWorker.Mount.RenameItem` | onedrive/fuse/operations.py:628-635 | moves the row at once and queues a rename only of a synced item |
| `MountWorker.Mount.DeleteItem` | onedrive/fuse/operations.py:563-588 | an unsynced item vanishes with its ops; a synced one is tombstoned and its delete queued with a snapshot |
| `MountWorker.Mount.ExecuteCreate` | onedrive/sync/mount_sync_worker.py:130-163 | creates or adopts by name under the live parent, confirms the row and drops the op; waits for an unsynced parent |
| `MountWorker.Mount.ExecuteWrite` | onedrive/sync/mount_sync_worker.py:165-202 | replaces the bytes when the etag still matches, otherwise diverts to keep-both and changes nothing (`MountForeign.WriteMeetsVersion`) |
| `MountWorker.Mount.ExecuteRename` | onedrive/sync/mount_sync_worker.py:204-233 | moves the item with its subtree to the live name and parent |
| `MountWorker.Mount.ExecuteDelete` | onedrive/sync/mount_sync_worker.py:235-269 | deletes the snapshot's item with its subtree; 404 and 412 count as done |
| `MountWorker.Mount.ExecuteOp` | onedrive/sync/mount_sync_worker.py:102-126 | dispatches; an op whose row is gone is dropped |
| `MountWorker.Mount.DrainOnce` | onedrive/sync/mount_sync_worker.py:84-100 | one pass over the list read at its start |
| `MountWorker.Mount.DrainTimes` | onedrive/sync/mount_sync_worker.py:84-100 | the worker woken any number of times keeps the invariant, and ends with an empty queue after as many passes as there are ops if nothing is gone and the deletes are safe |
| `MountWorker.Mount.WriteBytes` | onedrive/fuse/operations.py:431-446 | the staged bytes change, the handle is dirty, nothing is queued |
| `MountForeign.WriteMeetsVersion` | onedrive/sync/mount_sync_worker.py:165-202 | in any state: a queued write against a version the row does not know leaves the drive and the queue as they are and goes to keep-both; against any other it puts the staged bytes there and the row knows the new etag |
| `MountForeign.DeleteMeetsVersion` | onedrive/sync/mount_sync_worker.py:250-255 | in any state: a queued delete takes its item and what is below if and only if the item's etag is still the one from the unlink or none was known, and is done either way |
| `MountForeign.RenameMeetsVersion` | onedrive/sync/mount_sync_worker.py:204-233 | in any state: a queued rename goes through whatever version the drive has, moves only the item and keeps its bytes |
| `MountForeign.CreateMeetsNamesake` | onedrive/sync/mount_sync_worker.py:143-160 | in any state: a create under a taken name adopts a folder as it is, replaces a file's bytes, and fails for a file whose name a folder has |
| `MountForeign.StepIsUninterrupted` | onedrive/sync/mount_sync_worker.py:165-202 | the atomic write step and the undisturbed micro-steps of `MountConflict` end with the same bytes, etags and queue where the step finishes; where it diverts they copy the staged bytes and take the drive's |
| `MountUser.RunShowsWhatWasDone` | onedrive/fuse/operations.py:365-635 | over any interleaving of calls and worker steps: an item is where the last rename put it, reads as the last write or truncation left it, is gone from its removal on, and its handle is dirty if and only if it was written or truncated since the last flush |
| `MountUser.NewItemShows` | onedrive/fuse/operations.py:391-421 | a new item shows under its parent and name, a folder or an empty file with a dirty handle |
| `MountCalls.Mkdir` | onedrive/fuse/operations.py:549-561 | succeeds if and only if the parent is live and the name free in it, changes nothing otherwise, and keeps the queue accountable |
| `MountCalls.Unlink` | onedrive/fuse/operations.py:590-599 | ENOENT, EISDIR or the delete of the one child of that name; every call let through is one the theorems allow, and keeps the queue accountable |
| `MountCalls.Rmdir` | onedrive/fuse/operations.py:601-612 | ENOENT, ENOTDIR, ENOTEMPTY exactly when something live is inside, or the delete, which the theorems allow |
| `MountCalls.RenameEntry` | onedrive/fuse/operations.py:614-635 | goes through if and only if the child exists and the target name is free or its own; another's name is EEXIST with the no-replace flag and ends the session without it |
| `MountRace.CreateAgainstUnlink` | onedrive/fuse/operations.py:563-588 | in every interleaving with an atomic claim an unlinked new file is never visible again, and the drive holds none once its ops are gone |
| `MountRace.CreateArrives` | onedrive/sync/mount_sync_worker.py:130-163 | a new file that is still visible and has no op left has its remote id |
| `MountRace.UnlinkInsideTheClaimLeavesAnOrphan` | onedrive/sync/mount_sync_worker.py:109-114 | an unlink between lookup and mark leaves a remote file without a row |
| `MountRace.PurgedIffUnclaimed` | onedrive/fuse/operations.py:563-588 | wherever the unlink of a new file falls, it purges the row and the staged bytes if and only if the create is not claimed |
| `MountRace.UnlinkOfNewIff` | onedrive/sync/mount_sync_worker.py:109-114 | once all ops are gone, an unlinked new file is an orphan on the drive if and only if the unlink fell between lookup and mark and the call took effect after it |
| `MountRace.UnlinkDuringWriteLeavesTheFile` | onedrive/sync/mount_sync_worker.py:250-255 | a concrete schedule in which the delete is swallowed as a 412 |
| `MountRace.UnlinkDuringRenameResurrects` | onedrive/sync/mount_sync_worker.py:232-233 | a concrete schedule in which the rename's reply makes the deleted row visible again |
| `MountRace.UnlinkOfSynced` | onedrive/sync/mount_sync_worker.py:235-269 | wherever the unlink falls, once all ops are gone: the file is gone from the drive if and only if no call was waiting for its confirmation then and none took effect after it, and the row is visible again if and only if such a call was a rename |
| `MountRace.NothingStaysQueued` | onedrive/sync/mount_sync_worker.py:84-126 | whatever the schedule of steps, failures and unlinks, the worker left to itself then works off the op and the delete in at most thirteen steps |
| `MountConflict.NothingUnseenIsLost` | onedrive/sync/mount_sync_worker.py:165-202 | over any schedule of edits on both sides, polls, failures, kills and restarts, a PUT replaces only the version its bytes come from, the last foreign version is current or was seen, and the last local edit is staged, delivered or copied |
| `MountConflict.ConflictKeepsBoth` | onedrive/sync/mount_sync_worker.py:273-326 | from any conflict, killed and retried at any point, the remote file keeps the other party's bytes and the edit is staged or copied, and copied once the op is gone |
| `MountConflict.ListedFilesAreUntouched` | onedrive/sync/mount_sync_worker.py:281-289 | no step ever changes a file whose name the cache lists |
| `MountConflict.PutIsSafeExactlyWhen` | onedrive/sync/mount_sync_worker.py:176-191 | the PUT replaces the version its bytes come from if and only if nobody edited after the pre-check and the row's etag (the file's, where the pre-check was not answered) is that of the version the bytes come from |
| `MountConflict.UncheckedPutIsSafeIff` | onedrive/sync/mount_sync_worker.py:176-191 | a PUT after an unanswered pre-check is safe if and only if nobody has edited the file since its bytes were last put on the drive or taken from it |
| `MountConflict.EditInsideTheWindowIsLost` | onedrive/sync/mount_sync_worker.py:170-191 | a concrete remote edit lost between pre-check and PUT |
| `MountConflict.UnansweredPreCheckOverwrites` | onedrive/sync/mount_sync_worker.py:176-182 | a concrete remote edit lost because the pre-check failed |
| `MountConflict.PollUnderOpenHandleOverwrites` | onedrive/db.py:566-581 | a concrete remote edit lost because a poll refreshed the row's etag while the handle was open |
| `MountConflict.UnsyncedParentDropsTheEdit` | onedrive/sync/mount_sync_worker.py:291-297 | a concrete local edit dropped because its folder is not on the drive |
| `MountConflict.CopiedIffParentSynced` | onedrive/sync/mount_sync_worker.py:291-297 | from any conflict, killed and retried at any point: once the op is gone the edit is in a copy on the drive if and only if the folder was |
| `MountConflict.FileSurvivesIff` | onedrive/sync/mount_sync_worker.py:281-305 | another file of the folder keeps its bytes over a run if and only if no copy took its name, which only happens to names the cache does not list |
| `MountConflict.UnlistedNamesakeIsOverwritten` | onedrive/sync/mount_sync_worker.py:299-305 | a concrete file overwritten by a conflict copy |
| `MountConflict.MountedFile.ExecuteWrite` | onedrive/sync/mount_sync_worker.py:165-202 | undisturbed, the executor performs exactly these micro-steps |
| `MountConflict.MountedFile.ResolveWriteConflict` | onedrive/sync/mount_sync_worker.py:273-326 | copy under the first unlisted name, cache it, download, confirm with the pre-check's etag |
| `MountConflict.FreeCopyName` | onedrive/sync/mount_sync_worker.py:281-289 | the naming loop ends with the first candidate the cache does not list |
| `CacheTree.SoundIsRecomputed` | onedrive/db.py:541-552 | a sound table's cached paths are the ones found by walking the parent links |
| `CacheTree.RenameKeepsPathsIff` | onedrive/db.py:638-666 | a local rename keeps every path right if and only if the row had none yet or the new parent has one |
| `CacheTree.RenamedPathsAreRecomputed` | onedrive/db.py:638-666 | after a rename to a known folder every cached path is the recomputed one, and no row gains or loses a path but the renamed one |
| `CacheTree.UpsertKeepsPathsIff` | onedrive/db.py:541-552 | the same for an upsert: wrong exactly when a row that has a path is given a parent without a known path, or none |
| `CacheTree.WriteTouchesOnlySubtree` | onedrive/db.py:623-636 | outside the moved subtree nothing changes, inside only paths |
| `CacheTree.MoveKeepsPathsUnique` | onedrive/db.py:589-623 | checking the moved row's own new path is enough to keep all live paths different |
| `CacheWalk.ListDescendants` | onedrive/db.py:782-809 | the frontier loop ends and returns each live row below the root once, and no other |
| `CacheWalk.WalkIsPrefixQuery` | onedrive/db.py:782-809 | a row is reached by live links if and only if it is live and its path starts with the root's path and a slash |
| `CacheWalk.RelativePathsAreKeys` | onedrive/sync/pair_worker.py:349-354 | every row found has the prefix, and no two share a relative path |
| `CacheCrawl.UpsertOne` | onedrive/db.py:471-621 | the next item of a crawl, its parent seen or not, collides with nothing and adds one row |
| `CacheCrawl.Crawled` | onedrive/sync/delta_worker.py:58-65 | after any prefix of a crawl in any order every path present is the true one |
| `CacheCrawl.CrawlOrderIsIrrelevant` | onedrive/db.py:754-780 | once the rounds change nothing, the table is the one determined by the tree alone, with all paths true and different |
| `CacheCrawl.RoundsEnd` | onedrive/db.py:758-780 | a round that changes anything leaves fewer rows without a path |
| `CacheCrawl.MovedBeforeItsFolderStaysStale` | onedrive/db.py:549-552 | a concrete page after which a path stays wrong, and the walk finds a row outside the prefix |
| `CacheIdentity.IdentityHolds` | onedrive/db.py:477-752 | over every run of inserts, confirms, upserts, tombstones and renames, remote ids stay unique and Graph-keyed rows carry their own |
| `CacheIdentity.ConfirmedKeepsItsRow` | onedrive/db.py:519-538 | a confirmed item keeps its row and remote id through every run, and every later upsert finds that row |
| `CacheTold.RowSaysWhatItWasTold` | onedrive/db.py:471-752 | over every run of cache writes a row's parent, name, kind, content columns and tombstone are those of the last write about its item, a skipped upsert aside |
| `CacheTold.ReportIsStored` | onedrive/db.py:566-581 | an upsert that is not skipped leaves the item's own name, kind, parent, size, etag and hash under its row, live, whether the row is new, was there before or was a tombstone |
| `CacheTold.PendingIsStored` | onedrive/db.py:684-706 | an item born offline has the handler's parent, name and kind and no remote id |
| `CacheIdentity.ConfirmKeepsIdentityIff` | onedrive/db.py:740-752 | a confirm keeps ids unique if and only if no other row holds the id |
| `CacheIdentity.SeenBeforeConfirmedIsSkipped` | onedrive/db.py:589-616 | a delta report of an item whose create is not confirmed yet is skipped, so its id stays free |
| `CacheIdentity.ChildListedUnderLocalId` | onedrive/db.py:493-508 | a child reported under a confirmed folder is stored under the folder's local id |
| `CacheIdentity.ChildrenStayListed` | onedrive/db.py:493-508 | over every run no child is left under a remote id whose folder is cached under another id, early children aside |
| `CacheIdentity.MarkDeletedBuriesIff` | onedrive/sync/pair_worker.py:573 | the tombstone a pair's remote delete writes reaches the item's row if and only if the row is keyed by the remote id; Graph's own report always does |
| `CacheRuns.EarlyChildIsOrphaned` | onedrive/db.py:740-752 | a concrete run in which a delta page falls between an offline mkdir and its confirmation and a child is orphaned |
| `CacheRuns.DeletedItemStaysListed` | onedrive/db.py:464-469 | a concrete folder made through the mount, deleted by a pair, and still listed |
| `CacheIdentity.ConfirmOrphansIff` | onedrive/db.py:740-752 | a confirm orphans children if and only if some were reported before it |
| `CacheStore.ItemCache.CascadePathUpdate` | onedrive/db.py:623-636 | the recursion ends and rebases exactly the paths below the row |
| `CacheStore.ItemCache.RenameItemLocal` | onedrive/db.py:638-666 | writes the row and cascades; an unknown row is left alone |
| `CacheStore.ItemCache.FindByRemoteId` | onedrive/db.py:504-506 | finds the row that carries the id, if any |
| `CacheStore.ItemCache.UpsertItem` | onedrive/db.py:471-621 | two-level lookup, parent translation, path, collision skip, cascade and all columns (`CacheTold.ReportIsStored`) |
| `CacheStore.ItemCache.InsertPendingItem` | onedrive/db.py:684-706 | adds a row without a remote id, with its path if the parent has one |
| `CacheStore.ItemCache.ConfirmSyncedItem` | onedrive/db.py:708-752 | sets remote id and content columns, and leaves name, parent and path |
| `CacheStore.ItemCache.ResolveOnce` | onedrive/db.py:758-776 | one UPDATE; its row count is zero exactly when nothing changes |
| `CacheStore.ItemCache.ResolvePendingPaths` | onedrive/db.py:754-780 | the loop ends, within as many changing rounds as there are rows without a path, where a round changes nothing |
| `CacheStore.ItemCache.ListDescendants` | onedrive/db.py:782-809 | returns the prefix query's rows, each once |
| `CacheStore.FirstCrawl` | onedrive/sync/delta_worker.py:58-69 | a first sync in any order ends with the tree's table |
| `ResumableUpload.UploadLarge` | onedrive/graph_client.py:308-373 | whatever the network does: only prefixes of the file are ever stored, and every PUT is of the next byte unless the status reply before it named no range; an item is returned only when the session is complete; an error means nine failures in a row, a status query failed or too late, or an empty file; if every status reply names a range, it takes nine faulty PUTs in a row to give up, and otherwise the upload ends with the item or with the reply to its completing PUT lost; at most nine PUTs for each full chunk and the last |
| `ResumableUpload.Session.Put` | onedrive/graph_client.py:375-382 | the server accepts only the next byte, keeps a prefix of the chunk and may lose the reply |
| `ResumableUpload.Session.GetStatus` | onedrive/graph_client.py:384-396 | a finished session or a lost reply raises; a list of ranges may be empty |
| `QuickXorHash.Hash` | onedrive/quickxorhash.py:30-41 | each hash bit is the parity of the input bits that land on it, the length mixed in from bit 96 on; a length of 2^64 or more overflows |
| `QuickXorHash.Accumulate` | onedrive/quickxorhash.py:31-35 | the accumulator's bit k is the parity of the input bits i of byte j with (11j + i) mod 160 = k |
| `QuickXorHash.CollideIff` | onedrive/quickxorhash.py:30-41 | two inputs of one length collide if and only if every hash bit is hit by an even number of differing bits |
| `QuickXorHash.WindowIsDetected` | onedrive/quickxorhash.py:30-41 | every change confined to 14 consecutive bytes changes the hash |
| `QuickXorHash.TwoFlipsCollideIff` | onedrive/quickxorhash.py:30-41 | two flipped bits cancel out if and only if they land on the same hash bit |
| `QuickXorHash.FifteenBytesMayCollide` | onedrive/quickxorhash.py:30-41 | 14 is tight: a change within 15 bytes that every such input fails to show |

## Left out

- The GUI, the Dolphin plugins, the overlay server, authentication, network, power and update checks, D-Bus and keyring: no sync logic.
- HTTP itself, JSON, back-off sleeps, throttling, sharing and people calls: the drive is a map of items with create, replace, move, delete and conflict results. The retries inside one chunk PUT count as that PUT.
- SQLite itself: tables are maps and each database method is atomic. A violation of the unique path index is a skip in `upsert_item`, as in the code, an error return in `rename`, and elsewhere excluded by the proofs that paths stay different; transient duplicates in the middle of one cascade are not modelled.
- `content_state`, sizes and times of cached rows where no decision depends on them; ctags; the pin, activity-log and status tables.
- The truncate-and-upload path of `setattr`, directory reads, inode numbers and lookup counts: they queue nothing.
- `_attach_bootstrap_hashes` and base64: a hash is an optional value of an entry.
- `fnmatch`, SHA-256 of staged files, time stamps: an arbitrary predicate on names, comparison of the bytes, arbitrary strings.
- The watcher's debounce, thread wake-ups, `PinWorker`, `conflict_actions.py`, `content_cache.py`: a download is one atomic replacement of local bytes.
- The refresh of a cached item after a 409 or 412 in the pair worker: the next pass starts from the drive's own entries in any case.
- Folder etags that change for other reasons than an entry directly inside being added, replaced or removed, or a parent's etag changing with its grandchildren.
- The upload session's own If-Match: `MountConflict` models the small-file PUT, which ignores it.
- Offline swaps of two names through a temporary one, and a new item under the old name of one that was moved away: excluded from the mount theorems by the condition that names are free on the drive.
- MountWorker.Mount.ExecuteWrite: a conflict changes nothing there, because its keep-both steps are the subject of `MountConflict` (`MountForeign.StepIsUninterrupted` says how the two fit).
- MountWorker.Mount.ExecuteRename: the retry after a stale etag is one step, and the reply's name and parent are those just sent.
- PairWorker.Worker.SyncOnePair: an upload whose name the server reports taken and then cannot find also keeps a pass from completing; there the model's upload replaces the file. The maps are read from the state itself, which holds only visible paths; reading them from disk and cache is `Exclusion`.
- PairUnseen.LostIffAFolderGoes: only remote deletes may fail; with other actions failing only the surviving half is proved, for any number of passes (`SafeForever`).
- MountSession.SessionEndsIff: what a restart after the end of a session makes of the handles that were open is left out.
- MountDrain.DrainEmptiesIff: in general the condition on deletes follows them through the first pass, because a rename that goes first can move an item out of a delete's way.
