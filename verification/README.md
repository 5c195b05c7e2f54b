# Verified model of Duet

Duet is a bidirectional file synchronizer. This project models its hardest parts in Dafny and proves what they
promise. To check it, run `dafny verify dfyconfig.toml`.

| Part | Modules |
|---|---|
| Delta engine: signatures, sliding-window comparison, restoration | `Adler`, `Delta`, `DeltaTheorems` |
| Staged commit on two sides, with crashes, lost calls and interrupts | `Staging`, `Server`, `Protocol`, `ProtocolSafety`, `ProtocolTheorems`, `ProtocolSignals`, `ProtocolProgress`, `ProtocolOutcome` |
| Rule-indexed, parallel tree scan | `Paths`, `Rules`, `Scope`, `Scan` |
| Three-way merge, conflicts, migration plans | `Entries`, `SortedMerge`, `Manifests`, `Hashing`, `Baselines`, `Actions`, `Convergence`, `Dependencies`, `Migration` |
| Bounded worker pool; snapshot files | `Pool`, `Snapshot` |
| Shared types and facts | `Integers`, `Sequences`, `Wrappers` |

## How the parts are modelled

**Delta engine.** The loops of `src/rustsync.rs` are imperative methods over a ring buffer (an array), a reader whose
reads and a sink whose writes may be arbitrarily short. Each is proved equal to a function of the bytes alone
(`Delta.Greedy` for the comparison), so the schedule of short reads cannot matter. The rolling checksum is Adler-32 of
section 2.2 of RFC 1950; BLAKE2b is any function. Only the round trip needs it to be free of collisions, and only at
the windows that the comparison looks at: the last source block with the hashes of such a window must be that window.

**Staged commit.** `Server` is the server object with the methods of `src/rpc.rs`, each tied to one step function
(`Handle`), about which the attempt discipline is proved over every sequence of calls. `Protocol` puts that server,
the coordinator of `src/orchestrator.rs`, two disks, the connection and any number of signal-handling threads into
one state machine. A run is any sequence of moves of these components: every operation can fail before, between and
after its durable changes, a call can break while the server goes on with it, a reply can get lost, and a component
that takes no further move has crashed. The compare-and-exchange loops on the interrupt word are separate moves for
the load and for the exchange. Marker phases follow `src/sync.rs` and ARCHITECTURE.md.
A manifest in the server's memory is a term that says where it comes from, so that two are equal only when they have
the same history.

**Scan.** Paths are sequences of components, relative to the base. A root rule comes first, which every profile
adds (`src/profile.rs:226`). Jobs finish in any order; any access to the file system can fail, and special files and
what belongs to other file systems are in the tree.

**Merge.** Applying an action is a point update of a map. The comparisons of the program are functions; what they
must notice is written out field by field in `Manifests.Moved` and `Convergence.EquivalentAt`, in which the theorems
are stated. The two iterators are classes that advance cursors.

**Pool and snapshots.** A schedule names, at every completion, the task that ends and whether a cancelled task gives
up; the result is proved to be the sequential one under every schedule. Hashing
runs on that pool, and reading any file can fail. Snapshot bytes follow bincode's legacy configuration: little-endian
fixed-width integers, eight-byte lengths, one-byte option and boolean tags, and strings in UTF-8 (section 4 of
RFC 3629).

## Findings

Where the code does less than its intent suggests, the model keeps the code and states the exact boundary.

- A legacy snapshot is mistaken for a version 2 one exactly when it holds 0x00504E5354455544 entries
  (`Snapshot.LegacyTakenForV2`).
- A conflict can be resolved exactly when its path is in both old snapshots or in neither; otherwise
  `resolve_action` reaches an arm it calls unreachable (`Convergence.ResolvableIffSameBaseline`,
  `Convergence.UnresolvableConflict`).
- `restore` ignores how much each write took. It restores the file exactly when no write was cut short, while
  `restore_seek` offers the rest again (`Delta.Restore`, `Delta.RestoreSeek`).
- What is saved after a commit is the committed manifest exactly when no accepted request replaced it between the
  commit and the save (`Server.SnapshotIsTheCommit`). Setting the base or the state directory and a refused scan empty
  it; an accepted scan, preparing a migration and the legacy ways to apply replace it (`Server.SinceAfter`); the save
  is accepted all the same (`Server.RescanAfterCommitIsSaved`, `Server.MigrationAfterCommitIsSaved`).
- An aborted attempt is forgotten when looking for its marker fails, so that a repeated abort, which would have
  succeeded, is refused (`Server.AbortAgain`).
- A run that ends before its fence leaves a marker, on an untouched side, only in four ways
  (`ProtocolTheorems.LeftoverMarkers`), and each of them can: the call that begins the attempt fails
  (`ProtocolProgress.BrokenBeginLeavesMarker`); creating the local marker fails after the marker exists
  (`ProtocolProgress.FailedStartLeavesMarker`); the run stops between preparation and validation, where no abort is
  tried at all (`ProtocolProgress.BarrierStopLeavesMarkers`); or an abort is refused or breaks
  (`ProtocolProgress.FailedAbortsLeaveMarkers`).

## Model

| member | source | states |
|---|---|---|
| Adler.RemoveCommutesWithUpdate | src/rustsync.rs:276-285 | Removing a byte and adding one commute on the rolling pair, modulo 65521 |
| Adler.RemoveOldest | src/rustsync.rs:276-278 | Removing the oldest byte of a window gives the checksum of the window without it |
| Adler.AppendNewest | src/rustsync.rs:283-285 | Adding a byte gives the checksum of the longer window |
| Adler.ChecksumIsAdler32 | src/rustsync.rs:256-285 | The checksum is that of section 2.2 of RFC 1950: both sums modulo 65521, the second one in the upper half |
| Delta.Reader.Read | src/rustsync.rs:241-254 | A read delivers any number of bytes from 1 to what was asked for, or 0 at the end of the data |
| Delta.Sink.Write | src/rustsync.rs:339-354 | A write takes any part of what it is offered |
| Delta.Sink.WriteAll | src/rustsync.rs:401-405 | Offers what is left again; ends with everything taken, or with an offer of which nothing was |
| Delta.Fill | src/rustsync.rs:241-254 | The window is filled completely unless the data ends, whatever the short reads |
| Delta.IndexesInsert | src/rustsync.rs:128-133 | Recording one more block keeps the two-level index exact; a later block with the same hashes replaces an earlier one |
| Delta.IndexOfIndexes | src/rustsync.rs:109-145 | The index built block by block holds exactly the hash pairs of the blocks, each with its last offset |
| Delta.ComputeSignature | src/rustsync.rs:109-145 | The signature describes the source: all blocks, including the short or empty last one, under every schedule of reads; the loop terminates |
| Delta.MatchingIndex | src/rustsync.rs:311-334 | The lookup on the ring equals the lookup of the window it holds |
| Delta.Slide | src/rustsync.rs:268-290 | One slide drops the oldest byte, takes the next one or shrinks at the end of the file, and keeps the rolling pair equal to Adler-32 of the window |
| Delta.OnTrackMiss | src/rustsync.rs:256-297 | At a miss, what was emitted, what is pending and what is still to come together stay the target |
| Delta.OnTrackMatch | src/rustsync.rs:256-297 | At a match, the same, after the pending literal was flushed |
| Delta.SeekMatch | src/rustsync.rs:241-307 | The inner loop keeps that invariant from a full window to the next match or the end, and terminates |
| Delta.CompareStream | src/rustsync.rs:209-309 | The emitted operations are those of the greedy comparison of the bytes, with literals of 1 to max(cap, 1) bytes that are full when another one follows; invalid buffers are refused before anything is read |
| Delta.Compare | src/rustsync.rs:189-207 | The delta is the greedy comparison with the largest literal cap |
| Delta.RestoredAppend | src/rustsync.rs:339-354 | Restoring distributes over concatenation of operations |
| Delta.Restore | src/rustsync.rs:339-354 | Fails exactly when an offset lies outside the source; otherwise writes exactly the operations' bytes if and only if no write was cut short, and loses exactly the bytes refused |
| Delta.FillFromSource | src/rustsync.rs:388-401 | Reads a whole window or up to the end of the source, whatever the short reads |
| Delta.RestoreSeek | src/rustsync.rs:361-410 | Writes exactly the operations' bytes through a seekable reader and a buffer, or reports bad buffers or a write that took nothing |
| DeltaTheorems.LookupFindsLastBlock | src/rustsync.rs:311-334 | A lookup returns the last source block with the window's hashes and fails only when there is none: the 32-bit prefilter hides nothing |
| DeltaTheorems.LookupIsLastTwin | src/rustsync.rs:311-334 | A lookup succeeds exactly when some source block has the window's hashes, and returns the last such block |
| DeltaTheorems.NoCollisionMakesMatchesTrue | src/rustsync.rs:311-334 | When no compared window has a false twin, every block found equals its window |
| DeltaTheorems.RoundTripFrom | src/rustsync.rs:209-309 | From any point of the file on, if the blocks found equal their windows, restoring the rest of the operations gives pending and remaining bytes |
| DeltaTheorems.RoundTrip | src/rustsync.rs:189-410 | For every source, file, window and cap, without a false twin of a compared window: restoring the comparison against the signature gives the file |
| DeltaTheorems.OffsetsInRange | src/rustsync.rs:339-354 | Even with collisions every copied offset lies in the source, so restoring from a slice cannot panic |
| DeltaTheorems.SyncFile | src/rustsync.rs:109-410 | Sign, compare and restore on any schedules of reads and writes: seeking gives the modified file or reports a write that took nothing; the slice gives it exactly when no write was cut short |
| DeltaTheorems.LiteralsAreMisses | src/rustsync.rs:209-309 | Collisions or not, the operations cover the file from end to end, literals carry its bytes, and no literal byte is at an offset whose window is a block of the source |
| DeltaTheorems.BlocksNeedNoLiterals | src/rustsync.rs:209-309 | A file made of source blocks and an optional source tail is described by copies alone |
| DeltaTheorems.UnchangedFileNeedsNoLiterals | src/rustsync.rs:209-309 | An unchanged file is described by copies alone |
| DeltaTheorems.LiteralLengths | src/rustsync.rs:223-236 | Every literal has between 1 and max(cap, 1) bytes, and a literal that another one follows has exactly the larger number: pending bytes are never cut early |
| DeltaTheorems.LiteralsNeverAdjacent | src/rustsync.rs:189-207 | A delta never has two literals in a row |
| Server.DuetServer.constructor | src/rpc.rs:325-348 | A new server knows no attempt and no stream |
| Server.DuetServer.ResetActionsContext | src/rpc.rs:377-385 | Forgets the actions and every stream except staged ones |
| Server.DuetServer.ResetChangesContext | src/rpc.rs:366-375 | Forgets the manifest as well |
| Server.DuetServer.SetBaseDirectory | src/rpc.rs:734-742 | Forgets the context exactly when the base resolves |
| Server.DuetServer.SetStateDirectory | src/rpc.rs:851-856 | Always forgets the context |
| Server.DuetServer.ScanChanges | src/rpc.rs:420-477 | The whole state and reply of a scan request, refused or not, with and without a migration |
| Server.DuetServer.PrepareMigrationV2 | src/rpc.rs:1274-1278 | Puts what the scan saw into the manifest, when there was a scan |
| Server.DuetServer.ApplyDetailedChanges | src/rpc.rs:800-845 | The whole state and reply of applying without a stream |
| Server.DuetServer.AcceptActionList | src/rpc.rs:479-498 | The whole state and reply of setting actions |
| Server.DuetServer.BeginApplyStream | src/rpc.rs:912-941 | The whole state and reply of opening a legacy stream |
| Server.DuetServer.FinishApplyStream | src/rpc.rs:959-991 | Refuses staged streams; otherwise consumes the stream even when finishing fails |
| Server.DuetServer.BeginStagedApply | src/rpc.rs:1289-1357 | An attempt begins only when none is active or the last was aborted |
| Server.DuetServer.FinishStagedPrepare | src/rpc.rs:561-628 | Consumes the stream of the attempt; on failure the attempt is preparing without a stream |
| Server.DuetServer.ValidateStagedApply | src/rpc.rs:1477-1515 | Accepts only the prepared attempt and changes nothing |
| Server.DuetServer.AbortStagedApply | src/rpc.rs:1369-1471 | The state taken out is replaced or put back in every branch but one |
| Server.DuetServer.CommitStagedApply | src/rpc.rs:512-559 | Commits only the prepared attempt; a failed commit stays committing |
| Server.DuetServer.SaveStagedStatePending | src/rpc.rs:630-677 | Marks, then saves; a retry goes on where the last one failed |
| Server.DuetServer.CompleteStagedApply | src/rpc.rs:679-702 | Completes only a saved attempt |
| Server.HandleKeepsValid | src/rpc.rs:561-628 | Every call keeps stream identifiers fresh and staged streams tied to the preparing attempt |
| Server.HandleKeepsTally | src/rpc.rs:512-702 | Every call keeps the server's state and the history of the attempt in agreement |
| Server.AttemptDiscipline | src/rpc.rs:512-702 | Over any calls, identifiers and failures, per attempt: commit starts at most once and never in an aborted attempt; mark, save and complete happen at most once each and only in that order after the commit |
| Server.StagedStreamIffPreparing | src/rpc.rs:377-385 | Over any calls: a staged stream exists if and only if the server is preparing with it |
| Server.CommittingIsAbsorbing | src/rpc.rs:538-558 | After a failed commit no call of any kind leaves the committing state |
| Server.SessionsAreDisciplined | src/rpc.rs:1289-1320 | Over any calls: attempt identifiers are never empty nor of several lines, and a legacy stream is open only while its changes and actions are in place |
| Server.UndisturbedSession | src/rpc.rs:451-457 | An attempt in which everything succeeds saves what the scan loaded, rescoped if and only if a migration is needed, with the results of the commit |
| Server.SnapshotIsTheCommit | src/rpc.rs:630-677 | Over any calls: what is saved is the manifest of the commit if and only if no accepted request replaced it before the save, and the empty one if and only if the last such request emptied it |
| Server.RescanAfterCommitIsSaved | src/rpc.rs:420-428 | A refused scan between commit and save makes the save write a cleared manifest |
| Server.MigrationAfterCommitIsSaved | src/rpc.rs:1274-1278 | Preparing a migration between commit and save makes the save write the scanned entries again |
| Server.AbortAgain | src/rpc.rs:1427-1449 | What repeating an abort does, including the branch that forgets the attempt |
| ProtocolSafety.LocalStepKeeps | src/orchestrator.rs:853-1176 | Every durable change of this side keeps the disk in a state that belongs to the coordinator's position |
| ProtocolSafety.RemoteStepKeepsBefore | src/rpc.rs:1289-1471 | Before the fence the peer's files and snapshot stay untouched whatever it is still working on |
| ProtocolSafety.RemoteStepKeepsFenced | src/rpc.rs:512-559 | While the peer commits, it is marked, and its state and disk agree |
| ProtocolSafety.RemoteStepKeepsLate | src/rpc.rs:630-677 | While the peer saves, it stays marked, and a saved answer means a saved snapshot |
| ProtocolSafety.RemoteStepKeepsEnding | src/rpc.rs:679-702 | While the peer completes, files and snapshot are those of the finished wave |
| ProtocolSafety.AnswerBefore | src/rpc.rs:1369-1495 | An accepted validation means prepared; an accepted abort means no marker |
| ProtocolSafety.AnswerLater | src/rpc.rs:512-702 | An accepted commit, save or completion means committed, saved or gone |
| ProtocolSafety.RemoteWorkKeepsCore | src/orchestrator.rs:853-1176 | The coordinator's view stays right whatever the server does and whichever replies get lost |
| ProtocolSafety.FenceKeepsCore | src/orchestrator.rs:997-1011 | Winning the fence starts both commits from prepared sides; losing it cleans up |
| ProtocolSafety.LocalFinishKeepsCore | src/orchestrator.rs:1173-1208 | The next wave starts with both sides clear at the new checkpoint |
| ProtocolTheorems.StepKeepsCore | src/orchestrator.rs:770-1210 | Every move of every component keeps the protocol invariant |
| ProtocolTheorems.StepKeepsInterrupts | src/orchestrator.rs:83-168 | Every move keeps the interrupt word, the coordinator's position and the answers given in agreement |
| ProtocolTheorems.StepKeepsHistory | src/orchestrator.rs:853-1043 | Every move keeps the order of preparations, validations, fence and commits |
| ProtocolTheorems.CrashSafety | src/orchestrator.rs:1042-1176 | At every step of every run: a side without a marker is as the last checkpoint left it, or both sides have committed and saved the wave |
| ProtocolTheorems.MarkersAdvance | ARCHITECTURE.md:496-531 | At every step of every run each side's marker stays or takes the next of its phases: none is skipped or taken back, and only an abort removes it early, before the commit |
| ProtocolTheorems.ChangesAdvance | src/sync.rs:1640-1647 | Even on a disk that no run produces, a durable change advances the marker of its own attempt or refuses |
| ProtocolTheorems.MutatedIsMarked | src/sync.rs:10313-10404 | A side whose files are not those of its snapshot is marked committing, committed or saving, under the attempt of the wave |
| ProtocolTheorems.UnmarkedMeansCheckpoint | src/orchestrator.rs:286 | Whenever neither side is marked, both are at one and the same checkpoint, so a later run may start |
| ProtocolTheorems.CommitFence | src/orchestrator.rs:853-1043 | No side starts to commit unless, under the attempt of one wave, both prepared and reported as many actions as the wave has, no more files than actions and no bytes without a file, both validated, and the fence was won |
| ProtocolTheorems.ReturnBeforeFence | src/orchestrator.rs:2353-2451 | A return before the fence leaves both sides uncommitted for ever |
| ProtocolTheorems.LeftoverMarkers | src/orchestrator.rs:853-1011 | Such a return leaves a marker here only when creating it failed, at the barrier, or when the abort here was not accepted; and on the peer only when beginning failed, at the barrier, or when the abort there was refused or broke; every abort counted as accepted was |
| ProtocolTheorems.ReportIsTrue | src/orchestrator.rs:1418-1425 | After a reported success all waves, and after a reported interruption whole waves only, are committed and saved on both sides, without markers |
| ProtocolTheorems.InterruptLinearization | src/orchestrator.rs:83-168 | Over all interleavings at most one signal per run is not forced; a cancel precedes no commit, a deferral no further fence; no arm called unreachable is reached |
| ProtocolSignals.FirstSignalIsAccepted | src/orchestrator.rs:83-114 | Over all interleavings of the handler threads: before every forced signal exactly one was accepted |
| ProtocolSignals.NoSignalIsLost | src/orchestrator.rs:83-114 | Over all interleavings: every signal that arrived was answered exactly once, or a thread is still busy with it |
| ProtocolSignals.CancelledOnlyCleansUp | src/orchestrator.rs:2353-2451 | A cancelled coordinator sends nothing but an abort and does nothing here but remove its marker, except for beginning the validation |
| ProtocolTheorems.InterruptOutcome | src/orchestrator.rs:1418-1425 | A cancelled run never reports success, and a run reports an interruption only if a signal was accepted |
| ProtocolTheorems.DeferredAllowsSuccess | src/orchestrator.rs:1206-1208 | A signal deferred in the last wave does not turn success into an interruption |
| ProtocolOutcome.SmoothRunOutcome | src/orchestrator.rs:853-1176 | Over all interleavings and signals, when nothing fails a run never reports a failure; it reports an interruption exactly when it was cancelled or, after a deferred signal, waves are left |
| ProtocolProgress.AttemptIsSingleLine | src/orchestrator.rs:793-798 | The attempt identifiers of the coordinator are ones that the server accepts |
| ProtocolProgress.AttemptsDiffer | src/orchestrator.rs:793-798 | No two waves of a run share an identifier |
| ProtocolProgress.EveryPlanCanSucceed | src/orchestrator.rs:770-1210 | For every plan there is a run that commits and saves all waves on both sides and reports success, also with a signal deferred in the last wave |
| ProtocolProgress.EveryWaveCanBeCancelled | src/orchestrator.rs:853-1176 | Every wave of every plan can be cancelled: the run reports an interruption and both sides are, without markers, as the waves before made them |
| ProtocolProgress.BrokenBeginLeavesMarker | src/orchestrator.rs:2356-2360 | A broken begin call can leave a marker on the untouched peer, for which no abort is tried |
| ProtocolProgress.FailedStartLeavesMarker | src/orchestrator.rs:2372-2382 | A local start that fails after creating the marker leaves it, although the peer's abort succeeds |
| ProtocolProgress.BarrierStopLeavesMarkers | src/orchestrator.rs:925-930 | A run that stops before validation leaves both sides marked prepared, and tries no abort |
| ProtocolProgress.FailedAbortsLeaveMarkers | src/orchestrator.rs:2412-2447 | A refused abort here and a broken one there leave both markers |
| Paths.PathsAtFirstDifference | src/scan/location.rs:40-44 | Paths are ordered at their first different component: root, parent, then names; an ancestor comes first |
| Paths.TextsAtFirstDifference | src/scan/location.rs:40-44 | Names are ordered at their first different character |
| Rules.CanonicalRelativePath | src/scan/location.rs:71-80 | Pushes every component but the current directory; a root starts the path afresh |
| Rules.CanonicalIsWellFormed | src/scan/location.rs:71-80 | A root comes first or not at all; without one the canonical path is the named components, in order |
| Rules.LastRootStartsAfresh | src/scan/location.rs:71-79 | With a root among the components, the canonical path is the last root and the named components after it |
| Rules.Canonicalize | src/scan/location.rs:82-94 | The map of winners, in order |
| Rules.CanonicalRulesAreLastWinners | src/scan/location.rs:82-94 | The result is strictly sorted and holds exactly the last of each group of equivalent rules |
| Rules.CanonicalizeIdempotent | src/scan/location.rs:82-94 | Canonicalizing twice changes nothing |
| Rules.CanonicalizePreservesDecisions | src/scan/location.rs:82-94 | The longest-prefix decision for every path is the same before and after |
| Rules.RootRuleFirst | src/scan/location.rs:82-94 | With a root rule given, the first canonical rule is the root's |
| Rules.InitialRange | src/scan/mod.rs:1153-1210 | The whole list is the range of the base |
| Rules.NarrowParentFromTo | src/scan/mod.rs:522-549 | Narrowing keeps the range exactly the rules at or below the path, and the parent the longest-prefix rule |
| Rules.FindParent | src/scan/mod.rs:551-563 | Finds the longest-prefix rule of a child from the range of its directory |
| Rules.LongestPrefixUnique | src/scan/mod.rs:551-563 | A path has one longest-prefix rule |
| Scope.NewScope | src/scan/mod.rs:21-37 | The excludes become a sorted antichain; the scope selects exactly the paths in the restriction and at or below none of the given excludes |
| Scan.WantedIffSent | src/scan/mod.rs:565-697 | The pruned walk reports a path exactly when the most specific rule includes it, it is in the restriction and at or below no exclude, nothing on the way is ignored, and it is no file of another file system |
| Scan.ExamineEntry | src/scan/mod.rs:600-690 | The tests on one entry decide reporting, descending and failing as specified |
| Scan.ScanEntries | src/scan/mod.rs:600-690 | One pass over a directory reports and spawns exactly what is specified, or ends with the error of an entry |
| Scan.ScanOneDirectory | src/scan/mod.rs:565-697 | A job reports and spawns exactly what is specified for its directory, or fails with an error that the directory has |
| Scan.FinishJob | src/scan/mod.rs:699-724 | Finishing a job keeps every scheduled directory known exactly once, and queues its children in path order |
| Scan.RunScanScheduler | src/scan/mod.rs:699-724 | In every completion order: succeeds if and only if no scheduled directory fails, and then sends exactly the wanted paths once and runs each scheduled directory once; keeps at most `limit` active and terminates |
| Scan.ScanTree | src/scan/mod.rs:1153-1210 | When a whole scan succeeds, and that it then sends exactly the wanted paths |
| SortedMerge.MatchSorted.Next | src/utils.rs:38-56 | The iterator yields the pairs of the join one by one |
| SortedMerge.JoinIsOuterJoin | src/utils.rs:38-56 | On sorted inputs the join is the full outer join, in order: one pair per path that either side has |
| SortedMerge.BinarySearch | src/orchestrator.rs:3233-3248 | The search finds the element at a path or shows that there is none |
| SortedMerge.SortByFind | src/state.rs:450 | Sorting distinct paths keeps what is found at every path |
| Manifests.ChangesIterator.Next | src/scan/change.rs:147-167 | Yields the next change and passes over entries that are the same |
| Manifests.CollectChanges | src/scan/change.rs:170-178 | All changes, in order |
| Manifests.ChangesAt | src/scan/change.rs:147-167 | At every path there is a change exactly where the entries differ in something a scan notices, field by field, and it holds the entries there |
| Manifests.ApplyAllAt | src/scan/change.rs:13-25 | Applying changes of distinct paths acts path by path |
| Manifests.DiffThenPatch | src/scan/change.rs:147-167 | Patching the old manifest with the changes gives the new one, up to what a scan cannot see and inodes |
| Manifests.ReplaceScope | src/state.rs:447-451 | The result is sorted, agrees with the scan inside the scope and with the old manifest outside |
| Baselines.InheritHashes | src/state.rs:483-492 | Exactly the unchanged entries get the hashes of the snapshot |
| Hashing.HashWork | src/state.rs:405-428 | Hashing on the pool gives the sequential result on every schedule |
| Hashing.HashFiles | src/state.rs:430-445 | If and only if all files of a list can be read, each gets the checksum and digest of its contents and keeps everything else, and what is not a file stays as it is; otherwise the error is that of the first one |
| Baselines.HashManifest | src/state.rs:430-445 | Exactly the files are hashed, or the first unreadable one is reported |
| Baselines.HashChanges | src/state.rs:507-522 | Exactly the added and modified files are hashed, or the first unreadable one is reported |
| Baselines.RefreshEntries | src/state.rs:523-534 | The current manifest takes over the entries of the changes |
| Baselines.RefreshedIsSide | src/state.rs:453-541 | Without migration the outcome meets what the merge needs: carried hashes, and digests everywhere in strong mode |
| Baselines.OldAndChanges | src/state.rs:453-541 | Succeeds if and only if every file that must be read can be, and else reports the first path that cannot; then at every path the entry is what the scan saw, with the hashes of its contents where it was read and those of the snapshot where nothing changed, the changes lead from the snapshot to it, and migration is asked for exactly in strong mode with a legacy snapshot or a file without a digest |
| Actions.ReverseInvolution | src/actions.rs:153-169 | Reversing a plan twice gives the plan |
| Actions.ActionsAt | src/orchestrator.rs:3144-3158 | The plan is sorted and has at each path the action of the two changes there |
| Convergence.ReverseIsThePeersPlan | src/actions.rs:149-169 | Reversing the plan gives exactly the plan that the peer would build from the same changes |
| Convergence.ConvergesAt | src/actions.rs:73-101 | At one path both sides end up equivalent unless the conflict there is unresolved |
| Convergence.ResolvedConflictTakesChosenSide | src/resolution.rs:12-54 | A resolved conflict installs the entry of the chosen side and leaves that side alone |
| Convergence.ResolvableIffSameBaseline | src/resolution.rs:12-54 | A conflict is resolvable if and only if the path is in both old snapshots or in neither |
| Convergence.UnresolvableConflict | src/resolution.rs:12-54 | A conflict, modified here and added there, that cannot be resolved either way |
| Convergence.ResolveAgain | src/resolution.rs:12-54 | A resolved conflict can be resolved again, with the same result as directly |
| Convergence.PlanAt | src/orchestrator.rs:3144-3158 | Resolving keeps the plan sorted and every action at its path |
| Convergence.ApplyPlanAt | src/actions.rs:153-169 | What a plan does here and its reversal there, path by path |
| Convergence.ThreeWayConvergence | src/orchestrator.rs:3144-3158 | From equivalent snapshots, the plan here and its reversal there make both trees equivalent at every path without an unresolved conflict, and change nothing at the others |
| Convergence.MergeOutcome | src/orchestrator.rs:3144-3158 | Who wins, from the four manifests: a side that alone changed keeps its entry and the other receives it; where both changed and the results differ the plan asks, both keep theirs until then, and the choice installs the other entry; elsewhere nothing happens |
| Dependencies.FirstAfterSuffices | src/orchestrator.rs:3180-3186 | Testing the first conflict after the partition point is the same as asking for any conflict below |
| Dependencies.UnresolvedPaths | src/orchestrator.rs:3161-3165 | The conflict paths, in order |
| Dependencies.FilterUnresolvedConflictDependencies | src/orchestrator.rs:3160-3196 | Keeps and skips exactly the specified actions, in order |
| Dependencies.Partition | src/orchestrator.rs:3160-3196 | Every action is applied, unresolved or skipped, and only one of these |
| Dependencies.NothingAppliedDepends | src/orchestrator.rs:3160-3217 | No applied action lies below a conflict; no applied directory removal has a conflict or a skipped action inside |
| Dependencies.SkippedExactly | src/orchestrator.rs:3160-3217 | Read off the trees: an action is skipped exactly when a conflict is above it, or one is below it and a directory would be lost |
| Dependencies.ConflictsKeepTheirDirectories | src/orchestrator.rs:3160-3217 | What is applied takes from neither side a directory with a conflict or a skipped path inside, and touches nothing below a conflict |
| Dependencies.ConvergenceOfApplied | src/orchestrator.rs:3160-3196 | Applying only the kept actions still converges everywhere but at conflicts and skipped paths, which stay as they are |
| Migration.NeverUnreachable | src/orchestrator.rs:3258-3298 | No row of the table reaches an arm called unreachable |
| Migration.NothingIffSettled | src/orchestrator.rs:3258-3274 | A path is left out if and only if both sides agree and it is gone or neither side changed it |
| Migration.ConflictsResolve | src/orchestrator.rs:3280-3299 | Every conflict can be resolved either way, with the entry of the chosen side |
| Migration.BuildMigrationActions | src/orchestrator.rs:3219-3278 | The loop over the union of the paths with four binary searches emits the rows of the table |
| Migration.MigrationAt | src/orchestrator.rs:3219-3278 | The plan is sorted and has at most one action per path, the one of the table |
| Migration.RowConverges | src/orchestrator.rs:3258-3311 | Applying one row makes the two entries equivalent unless it is an unresolved conflict |
| Migration.MigrationConverges | src/orchestrator.rs:3219-3311 | Applying the migration plan makes both sides equivalent outside unresolved conflicts, whatever the old snapshots were |
| Migration.MigrationOutcome | src/orchestrator.rs:3219-3311 | Who wins, for all inputs: a side that alone has a change keeps its entry and the other receives it; where both or neither have one and the entries are not equivalent the plan holds a conflict of both until the user chooses; elsewhere nothing happens |
| Pool.RecordFirstError | src/state.rs:349-361 | The error of the lowest position is kept |
| Pool.StaysGenuine | src/state.rs:312-328 | A recorded error never comes from before the lowest item that fails, even when cancelled tasks fail |
| Pool.NothingBefore | src/state.rs:330-338 | With nothing active before it, the recorded error is the sequential one |
| Pool.StartTasks | src/state.rs:288-304 | Fills up to the limit in input order |
| Pool.RunBlockingWithLimit | src/state.rs:265-347 | Under every completion order and every timing of cancellation: all results in order, or the error of the lowest item that fails; never more than `limit` active; the tasks told to cancel are exactly those active behind the lowest error seen, so none at or before that item; no result is missing |
| Snapshot.LeRoundTrip | src/state.rs:62-91 | Fixed-width integers read back |
| Snapshot.Utf8IsExact | src/state.rs:62-91 | The byte test accepts exactly the encodings of characters by section 3 of RFC 3629 |
| Snapshot.EntryInverse | src/scan/mod.rs:98-123 | An entry is read exactly from the bytes that writing it gives, in both layouts |
| Snapshot.VectorInverse | src/state.rs:62-91 | So is a counted sequence of entries |
| Snapshot.InvalidPathIsRejected | src/state.rs:62-91 | A snapshot with a path that is not UTF-8 is rejected |
| Snapshot.Writer.WriteEntries | src/state.rs:116-129 | Appends the encoding of the entries in the chosen format |
| Snapshot.RoundTripV2 | src/state.rs:62-129 | Decoding a version 2 write returns the same entries |
| Snapshot.RoundTripLegacy | src/state.rs:62-129 | Decoding a legacy write returns the entries without digests, if and only if their number is not the magic one |
| Snapshot.LegacyTakenForV2 | src/state.rs:27-28 | A legacy snapshot starts with the magic number exactly when it holds 0x00504E5354455544 entries |
| Snapshot.OnlyWritesDecode | src/state.rs:62-91 | Whatever decodes is exactly what writing the result gives |
| Snapshot.NoSnapshotInsideAnother | src/state.rs:73-86 | Input with trailing bytes is rejected, and therefore so is every truncation of a snapshot |
| Snapshot.EntryLayout | src/scan/mod.rs:98-123 | The bytes of one entry with a different value in every field, in both formats, with and without a digest |
| Snapshot.FileLayout | src/state.rs:116-129 | The bytes around an entry: header with version, and count |
| Snapshot.HeaderErrors | src/state.rs:62-91 | A header alone is truncated, and any other version is unsupported |

## Left out

- Hash functions: the arithmetic of the Adler-32 library on 32-bit words is not modelled, only the sums that RFC 1950 defines; BLAKE2b (RFC 7693) is a parameter.
- Delta.Compare: literals are capped at the largest 64-bit size; `LiteralsNeverAdjacent` is stated for files below that size.
- Delta.ComputeSignature: a window of zero is not modelled, because the program does not terminate on it.
- Delta.Reader.Read: errors of the delta engine's streams other than a write that takes nothing, and errors of the callback that receives operations, are not modelled.
- Inside `src/sync.rs`: wave planning, the detail producer and applier, preflight, capacity checks, the bytes of the marker and its quarantine. Each durable effect is one change in `Staging.Change`; any number of file changes of a commit is one tear and one repair.
- Protocol.START: a run starts when no server of an earlier run is still working; other processes do not change files or markers.
- Server.DuetServer.ScanChanges: the recovery path of a marker is fixed; changing the remote identity in the middle of an attempt is not modelled.
- What the legacy ways to apply do to files and markers: only their effect on the server's state is modelled. Also capability negotiation, and recovery calls that clear markers.
- Transport, tokio, SSH and process handling; a call is sent, worked on, answered, lost or broken.
- Content sizes of preparation reports are any numbers; the barrier checks them as the program does.
- Scan.RunScanScheduler: reports of concurrent jobs are appended when the job finishes; invalid ignore patterns are not modelled.
- Rules.CanonicalRelativePath: platform prefixes of paths are not modelled.
- Hashing.HashWork: the work is in path order already, so that the sort before it is not modelled.
- Snapshot.EntryInverse: paths are the bytes of their encoded strings; the conversion to path components is not modelled. Writing an entry whose path is not UTF-8, which fails, is not modelled either.
- Prompts, key handling, paging, progress bars, performance counters, command line, profiles and error rendering.
- Validation of action and manifest shapes (`validate_actions`, `validate_entries`).
