# Rayhunter daemon: verified model

A Dafny model of the stateful parts of the Rayhunter daemon, with proofs of what they keep over
whole runs. `dafny verify dfyconfig.toml` checks it.

**Recordings.** `StoreModel` describes the recording store as a value: the files, the manifest in
memory, the manifest last saved for each directory, and the index of the current entry. What the
operating system decides (which files cannot be removed, created or written, whether a manifest can
be saved, how much space is free, what the clocks read) is gathered in one record, `Outside`, and is
arbitrary in every step. `DaemonModel` puts the diag task, the store and the upload worker together
as a machine whose steps are one control message, one container, or one section of the worker that
holds the store's lock. `QmdlStore`, `Pruning`, `Diag` and `UploadWorking` are the program's objects,
with fields updated in place and the program's loops; each method is proved to do what the function
of the specification says. `StoreLemmas`, `Lifecycle`, `Finishing`, `Starting`, `Safety`, `Runs` and
`Uploads` prove what every run keeps, and `NameReuse` is the run that shows the one exception;
`PruneOrder`, `Recovery`, `RecoverableRuns` and `DisplayedSeverity` prove what is promised of pruning,
of recovery and of the display. `PruneCases` holds two manifests as recovery makes them.

**Analysis queue.** `AnalysisModel` has the status lock, the store's lock, the five-slot channel and
the worker's position as one state, and a step for what each thread does between two points where it
may have to wait. `AnalysisQueue` proves what every interleaving keeps and exactly when nothing can
move. `AnalysisLists` is the status as an object.

**Trust.** `PairingModel` has one step per locked section of every pairing request, so that requests
interleave at every point where the program awaits; hash functions and random values are parameters.
`PairingSafety`, `TrustedDevices`, `GuessBudgets` and `ConcurrentGuesses` are the proofs over the
interleavings, `PairingService` the object. `PassphraseBackoff` and the `StepUp` modules treat time as
a nondecreasing number of nanoseconds.

**Wire formats and searches.** `MobileIdentity`, `Redact`, `Mdns`, `NearestFix` and `PressGestures`
each give the program's loop or in-place algorithm, a specification that does not mention it, and the
laws that connect the two with the standards: section 9.9.3.12 of 3GPP TS 24.301, section 4.1.2 of
RFC 1035 and section 5.4 of RFC 6762.

## Main results

- Recordings: `Runs.StepKeepsLinkExactly`, `Runs.RecordingStaysLinked`, `Runs.RunStaysAttached`,
  `Runs.ClosedCapturesAreSafe`, `Runs.FailedDeletesStayListed`, `Uploads.OnlyUploadedCapturesGo`,
  `RecoverableRuns.LosingTheManifestLosesNothing`, `PruneOrder.PruneTakesTheShortestPrefix`,
  `DisplayedSeverity.SegmentShowsTheWorst`, and the methods of `QmdlStore`, `Diag`, `Pruning` and
  `UploadWorking`, of which `Diag.DiagTask.Handle` joins most.
- Analysis queue: `AnalysisQueue.EveryInterleavingIsSafe`, `AcceptedNamesFinishInOrder`,
  `EverythingAcceptedIsFinished`, `StuckExactly`.
- Trust: `PairingSafety.FirstContactIsMadeOnce`, `PairingSafety.OnlyTheOwnerChangesThePassphrase`,
  `TrustedDevices.ExactlyTheLiveCookiesAreAccepted`, `GuessBudgets.TenTriesPerToken`,
  `GuessBudgets.FiveTriesPerCode`, `PassphraseBackoff.FailuresAreSlow`,
  `StepUpSafety.ActiveMeansConfirmedRecently`, `StepUpSafety.OneCodeOneWindow`.
- Wire formats and searches: `MobileIdentity.DecodeUndoesEncode`, `MobileIdentity.EncodeUndoesDecodeExactly`,
  `Redact.RedactionHidesExactlyTheDigits`, `Mdns.QueryReadsBack`, `Mdns.TruncationLosesOnlyTheEnd`,
  `NearestFix.SearchIsRightExactly`, `PressGestures.FiresExactly`.

## What turned out to need a condition

Each of these is stated exactly, as an if-and-only-if or with the inputs that show it.

- A request to analyse everything queues one recording at most, because `any` stops at the first
  name it could queue (`AnalysisQueue.EverythingIsQueuedExactly`; analysis.rs:345-347). The first
  name accepted while the channel is full and the worker is about to take the lock deadlocks both
  (`AnalysisQueue.StuckExactly`); `AnalysisQueue.DeadlockIsReachable` gets there from a fresh start.
- A start refused for lack of space while a recording runs leaves it running behind a Paused display
  (`DisplayedSeverity.StartAgreesExactly`). The comment on `finish_current_entry` says rotation does
  not blink; the display is sent Recording, then the warning again
  (`DisplayedSeverity.RotationBlinks`).
- Recovery strips the file suffix as often as it occurs, so a name that ends like a capture comes
  back shortened (`Recovery.NameReadsBackExactly`), and negative start seconds are lost
  (`Recovery.SecondsReadBackExactly`). After any run a recording with a capture is recovered if and
  only if its start is a date since 1970 (`RecoverableRuns.LosingTheManifestLosesNothing`).
- Pruning takes the clean and deletable recordings it considers, all of them if and only if none comes
  after another of its name, nor after one called like it less "-gps" whose deletion takes its report
  (`PruneOrder.PruneTakesTheShortestPrefix`). Such a recording is never pruned, however little room
  there is (`PruneOrder.NamesakesSurvive`). Recovery makes such manifests, two entries of one name
  from a capture and its compressed copy among them (`PruneCases.RecoveryRepeatsNames`,
  `PruneCases.SecondIsLeft`).
- The open writer and the current entry belong together in every run, but for one kind of step: the
  deletion after an upload, when the entry it finds is that of the file the writer holds
  (`Runs.StepKeepsLinkExactly`, `Runs.RecordingStaysLinked`). It takes a new recording with the
  uploaded one's name (`Uploads.FreshRunsNeverUnlink`), which takes the clock back at its second with
  its number in reach (`Uploads.FreshExactly`); `NameReuse.ReusedNameUnlinks` is such a run, from a
  store just opened.
- The deletion after an upload takes what was sent if and only if the entry then found is the one whose
  capture was sent (`Uploads.OnlyUploadedCapturesGo`). It is another after a storage switch
  (`Uploads.SwitchMidUploadDeletesUnsent`) or when the first of two recordings of one name has been
  deleted meanwhile (`Uploads.DeletionMidUploadDeletesUnsent`).
- Using a terminal window that has lapsed, but that nobody has asked about, revives it up to the cap
  (`StepUpSafety.UsingRevivesExactly`).
- Passphrase checks made at the same time are not slowed by each other's failures: any number checked
  before the first failure is noted are all verified at once
  (`ConcurrentGuesses.GuessesTogetherAreNotSlowed`), while of two in turn the second has to wait
  (`ConcurrentGuesses.GuessesInTurnAreSlowed`).
- A fix stamped with the earliest 64-bit time sorts among those without a timestamp
  (`NearestFix.SearchIsRightExactly`).
- One octet marked as an even count still decodes to its one digit
  (`MobileIdentity.EncodeUndoesDecodeExactly`).

## Model

| member | source | states |
|---|---|---|
| Numerals.ParseUndoesShow | daemon/src/qmdl_store.rs:336-340 | every 64-bit number printed in decimal parses back to itself |
| Names.CaptureFiles | daemon/src/qmdl_store.rs:73-81 | of the four kinds of file only the QMDL kind is named like a capture |
| Names.CaptureNameInjective | daemon/src/qmdl_store.rs:73-81 | two recordings share a capture file only if name and compression agree |
| Names.DisjointUnlessNamedLikeGps | daemon/src/qmdl_store.rs:73-81 | two differently named recordings share no file, if and only if neither name is the other's with "-gps" |
| Names.PrintedNamesAreSeparate | daemon/src/qmdl_store.rs:192-200 | a name the store prints never looks like another's position file |
| Names.SequenceDistinguishes | daemon/src/qmdl_store.rs:7-11 | the printed name determines second and sequence number, so different numbers give different names |
| Sorting.SortByKeyIsStable | daemon/src/qmdl_store.rs:374-375 | sorting by key orders and keeps the order of elements with equal keys |
| StoreModel.FindEntry | daemon/src/qmdl_store.rs:592-599 | the first entry of that name, or none if there is none |
| StoreModel.RemoveFiles | daemon/src/qmdl_store.rs:679-688 | removes only the files named, is complete exactly when none of them is stuck, and then none is left |
| StoreModel.OldestUploadable | daemon/src/qmdl_store.rs:574-590 | an entry to upload that no other is older than, or none exactly when there is none |
| StoreLemmas.DeleteEntryEffect | daemon/src/qmdl_store.rs:666-701 | a delete takes at most its own capture, takes it before the entry leaves the manifest, and leaves another current recording current wherever its index moves |
| StoreLemmas.DeleteEntryKeepsListed | daemon/src/qmdl_store.rs:672-688 | after a delete, complete or failed half way, captures still on disk are listed as before, in memory and in the saved manifest |
| StoreLemmas.DeleteAllEffect | daemon/src/qmdl_store.rs:703-729 | deleting everything removes listed captures only, and what survives stays listed |
| StoreLemmas.ClaimNameEffect | daemon/src/qmdl_store.rs:411-467 | creating an entry adds at most one empty capture, under a name tried this time, where no file was: nothing is truncated |
| QmdlStore.RecordingStore.NewEntry | daemon/src/qmdl_store.rs:403-468 | the retry loop ends in the state and outcome specified, sequence numbers included |
| QmdlStore.RecordingStore.CreateNew | daemon/src/qmdl_store.rs:421-426 | an existing file is never touched; a new one is empty |
| QmdlStore.RecordingStore.RemoveEntryFiles | daemon/src/qmdl_store.rs:679-688 | the loop over the kinds removes the entry's files in order up to the first that is stuck |
| QmdlStore.RecordingStore.DeleteEntry | daemon/src/qmdl_store.rs:666-701 | the deletion in place, with the shift of the current index, is the one specified |
| QmdlStore.RecordingStore.RemoveAllFiles | daemon/src/qmdl_store.rs:708-724 | the nested loops and their flags keep exactly the entries with a file left |
| QmdlStore.RecordingStore.DeleteAllEntries | daemon/src/qmdl_store.rs:703-729 | the whole of the bulk deletion is the one specified |
| QmdlStore.RecordingStore.CloseCurrentEntry | daemon/src/qmdl_store.rs:517-536 | no entry is current afterwards and the device details are completed if they can be |
| QmdlStore.RecordingStore.UpdateCurrentEntryQmdlSize | daemon/src/qmdl_store.rs:539-550 | size and time of the current entry only, then saved |
| QmdlStore.RecordingStore.SetCurrentStopReason | daemon/src/qmdl_store.rs:606-615 | the reason goes on the current entry, if there is one |
| QmdlStore.RecordingStore.SetEntryAnnotations | daemon/src/qmdl_store.rs:622-638 | name and notes of the entry found, and nothing else |
| QmdlStore.RecordingStore.MarkEntryAsUploaded | daemon/src/qmdl_store.rs:640-654 | the upload time of the entry found, and nothing else |
| QmdlStore.RecordingStore.GetNextUnuploadedEntry | daemon/src/qmdl_store.rs:574-590 | the search picks the entry specified: the oldest, of equals the last |
| QmdlStore.RecordingStore.ReadListing | daemon/src/qmdl_store.rs:310-372 | the directory loop makes exactly the entries the parser reads |
| QmdlStore.RecordingStore.Recover | daemon/src/qmdl_store.rs:301-387 | the sorted manifest is saved before the store moves |
| QmdlStore.RecordingStore.OpenOrRecover | daemon/src/qmdl_store.rs:267-299 | load, recover or create as specified; on failure the store stays as it was |
| Recovery.NameReadsBackExactly | daemon/src/qmdl_store.rs:321-327 | the recovery parser inverts the file name printer if and only if the name does not end like a capture itself |
| Recovery.SecondsReadBackExactly | daemon/src/qmdl_store.rs:332-352 | the start second reads back from a printed or legacy name if and only if it is not negative and a date |
| Recovery.RecoveryIsExact | daemon/src/qmdl_store.rs:301-387 | one entry for each file the parser reads and no other, sorted by start time, ties in listing order |
| Recovery.RecoveryLosesNothing | daemon/src/qmdl_store.rs:294-299 | every entry that round trips and whose capture exists is recovered with the same name, compression and start second |
| Recovery.RecoveredEntriesRoundTrip | daemon/src/qmdl_store.rs:321-372 | what recovery reads from a name it would read again |
| RecoverableRuns.StepStaysRecorded | daemon/src/qmdl_store.rs:192-215 | no step, whatever its clock reads, leaves a dated entry in memory or in a saved manifest that recovery would read differently |
| RecoverableRuns.LosingTheManifestLosesNothing | daemon/src/qmdl_store.rs:267-299 | after any run from a store whose dated entries read back, such as an empty or recovered one, a complete listing rebuilds a listed recording whose capture exists, with its name, compression and start, if and only if its start is a date since 1970 |
| CleanupModel.EntryNames | daemon/src/cleanup.rs:175-180 | the names of the entries, in manifest order |
| Pruning.ReadReport | daemon/src/cleanup.rs:105-145 | the line loop with its flag says Clean exactly when every line parses, none warns and some line says something; HasWarnings exactly when a warning precedes anything unreadable |
| Pruning.VerdictFor | daemon/src/cleanup.rs:79-146 | the verdict of one entry, Unknown out of range |
| Pruning.PruneCleanRecordings | daemon/src/cleanup.rs:152-211 | the loop over the names leaves the store and the count specified |
| Cleanup.PruneEffect | daemon/src/cleanup.rs:152-211 | pruning removes only recordings that read clean beforehand, never the current one, and keeps survivors listed |
| PruneOrder.PruneTakesTheShortestPrefix | daemon/src/cleanup.rs:152-211 | for any manifest: what goes is, among the first k entries, the first of their name that still read clean in their turn and can be deleted, k being the least number after which there is room or all; the rest keep their order and the current recording stays current; that is every clean and deletable one of the k if and only if no such follows a namesake that disturbs it |
| PruneOrder.VictimsAreCounted | daemon/src/cleanup.rs:182-202 | the count returned is of exactly the removals after which the manifest, less all that went so far, could be saved |
| PruneOrder.NeverVictims | daemon/src/cleanup.rs:84-104 | current, named, annotated and pending recordings, and ones whose report is missing, empty, unparsable or warns, are never removed |
| PruneOrder.ConsideringTwice | daemon/src/cleanup.rs:183-202 | considering a name a second time does nothing, even if another recording has it or the first attempt failed half way |
| PruneOrder.VictimsGoExactly | daemon/src/cleanup.rs:183-202 | after k names every clean and deletable recording among them is gone, and nothing else, if and only if no disturbing namesake precedes one |
| PruneOrder.DistinctNamesAreUndisturbed | daemon/src/cleanup.rs:152-211 | with names distinct and none an earlier one's with "-gps", as the store prints them, pruning takes every clean and deletable recording it considers |
| PruneOrder.NamesakesSurvive | daemon/src/cleanup.rs:192-197 | a recording behind another of its name, or whose report goes with one before it, survives a whole pruning for any target |
| PruneCases.RecoveryRepeatsNames | daemon/src/qmdl_store.rs:310-375 | recovery lists a capture and its compressed copy as two entries of one name, and accepts a name that is another's with "-gps" |
| PruneCases.SecondIsLeft | daemon/src/cleanup.rs:183-202 | of two recordings so named that both read clean, a whole pruning without room leaves the second |
| Diag.DiagTask.StopCurrentRecording | daemon/src/diag.rs:599-630 | the writer is closed and the final size lands on the current entry |
| Diag.DiagTask.FinishCurrentEntry | daemon/src/diag.rs:407-432 | stop, reason, message to the analysis thread and close, in that order |
| Diag.DiagTask.Stop | daemon/src/diag.rs:486-496 | the entry is finished and the display told |
| Diag.DiagTask.StartInner | daemon/src/diag.rs:248-397 | room is made, space checked, the old entry finished, the new one claimed and begun, or refused, as specified |
| Diag.DiagTask.Start | daemon/src/diag.rs:234-245 | a failed start tells the display |
| Diag.DiagTask.Rotate | daemon/src/diag.rs:504-538 | finish, start, and the severity carried over or the task stopped |
| Diag.DiagTask.SwitchStore | daemon/src/diag.rs:437-483 | all branches of a storage switch, failure to open included |
| Diag.DiagTask.DeleteEntry | daemon/src/diag.rs:540-553 | the current recording is stopped before it is deleted |
| Diag.DiagTask.CheckDiskSpace | daemon/src/diag.rs:674-735 | the check every 256 KiB: stop, prune or nothing, and the flag for the warning |
| Diag.DiagTask.WriteContainer | daemon/src/diag.rs:737-853 | write, size, limits, analysis and rotation in the order of the program |
| Diag.DiagTask.ProcessContainer | daemon/src/diag.rs:652-854 | a container is written only in user space and while recording |
| Diag.DiagTask.Handle | daemon/src/diag.rs:1080-1162 | one turn of the message loop is one step of the machine |
| UploadWorking.UploadWorker.PickNext | daemon/src/webdav.rs:192-197 | the worker picks the entry the store names |
| UploadWorking.UploadWorker.TryFile | daemon/src/webdav.rs:108-159 | absent files count as done; sent ones are remembered with their bytes |
| UploadWorking.UploadWorker.Finish | daemon/src/webdav.rs:199-222 | only with every file done is the entry deleted or marked |
| UploadWorking.TaskStepsRide | daemon/src/webdav.rs:189-224 | what the diag task does does not depend on the upload under way |
| Finishing.FinishLandsOnItsEntry | daemon/src/diag.rs:407-432 | final size, time and reason land on the recording that ends and on no other, and its name goes to the analysis thread |
| Finishing.StartFinishesTheOldEntry | daemon/src/diag.rs:307-318 | starting over a running recording, the old one's final size lands on its own entry, the new one starts empty behind it |
| Finishing.NewEntryComesLast | daemon/src/qmdl_store.rs:456-459 | a new entry is appended, current and empty, the others as they were |
| Lifecycle.FinishIsQuiet | daemon/src/diag.rs:407-432 | finishing changes no closed capture, keeps listings, and leaves no writer and no current entry |
| Lifecycle.PruneIsQuiet | daemon/src/cleanup.rs:152-211 | pruning leaves the live capture and its link alone |
| Starting.StartIsProgress | daemon/src/diag.rs:234-397 | a start keeps every capture but what may be pruned, and links writer and current entry |
| Starting.NewRecordingIsProgress | daemon/src/diag.rs:318-388 | a new recording displaces no capture that exists |
| Safety.SwitchIsAdvance | daemon/src/diag.rs:437-483 | a storage switch changes no closed capture in either directory but what may be pruned |
| Runs.StepAdvances | daemon/src/diag.rs:1080-1162 | from any state whose writer is linked or has lost its file, every step keeps that, every closed capture but what it has a reason to remove, and the listings, takes names only from what it tried, and but for the deletion after an upload keeps the writer linked |
| Runs.StopHolds | daemon/src/diag.rs:1093-1101 | a user's stop survives every step but a start by the user |
| Runs.StepKeepsLinkExactly | daemon/src/diag.rs:318-388 | a step keeps the open writer on the current entry's file if and only if it is not the deletion after an upload taking that file |
| Runs.RecordingStaysLinked | daemon/src/diag.rs:318-388 | throughout a run, while recording, the current index is of exactly the entry whose file the writer holds, if and only if no step of it is that deletion |
| Runs.RunStaysAttached | daemon/src/diag.rs:318-388 | in every run a writer whose file exists holds the current entry's, and stopped by the user means stopped |
| Runs.ClosedCapturesAreSafe | daemon/src/qmdl_store.rs:411-467 | in every run a closed capture keeps its bytes and is never written again until a step with a reason to remove it: asked for, clean and pruned, or uploaded in full |
| Runs.FailedDeletesStayListed | daemon/src/qmdl_store.rs:672-729 | after delete, delete-all or upload deletion, a capture still on disk stays listed in memory and in the saved manifest |
| Runs.DeletionUnlinksExactly | daemon/src/qmdl_store.rs:666-701 | a deletion by name, whatever is stuck, breaks the link if and only if the entry it finds is that of the file the writer holds and this can be removed |
| Uploads.FreshExactly | daemon/src/qmdl_store.rs:192-200 | a step tries the uploaded name exactly when the clock returns to its second with its sequence number in reach, never one already given out |
| Uploads.FreshRunsNeverUnlink | daemon/src/diag.rs:318-388 | a run from a store just opened in which no step tries the uploaded name never takes the writer's file, and what the worker noted of the capture stays true |
| Uploads.OnlyUploadedCapturesGo | daemon/src/webdav.rs:189-224 | over any steps between sending a capture and the deletion, what is deleted is what was sent, byte for byte, if and only if it is the capture that was sent; another one goes unsent |
| Uploads.SwitchMidUploadDeletesUnsent | daemon/src/webdav.rs:199-222 | with a storage switch in between, the deletion takes a recording of which nothing was sent |
| Uploads.DeletionMidUploadDeletesUnsent | daemon/src/webdav.rs:199-222 | likewise without a switch, when the first of two recordings of one name is deleted in between |
| NameReuse.ReusedNameUnlinks | daemon/src/webdav.rs:214-222 | a run from a store just opened, by pick, four uploads, delete, start with the clock back and concluding deletion, ends recording without an entry |
| DisplayedSeverity.StartShows | daemon/src/diag.rs:234-397 | success shows Recording with no severity, failure shows Paused |
| DisplayedSeverity.StartAgreesExactly | daemon/src/diag.rs:234-303 | display and recording agree after a start, except exactly when one was running and the start was refused for space |
| DisplayedSeverity.RotationCarries | daemon/src/diag.rs:504-538 | rotation shows the severity carried, or ends stopped, shown Paused, with no current entry |
| DisplayedSeverity.RotationBlinks | daemon/src/diag.rs:496-538 | what a rotation sends: Recording, then the warning |
| DisplayedSeverity.SegmentShowsTheWorst | daemon/src/diag.rs:809-854 | over any run without a start or a switch, while recording, the severity shown is the greatest of the first and every one found since |
| DisplayedSeverity.DisplayStaysTrue | daemon/src/diag.rs:1080-1162 | every step keeps shown and seen severity equal while recording |
| AnalysisLists.AnalysisStatus.StartAnalysis | daemon/src/analysis.rs:329-362 | queues as specified and asks for a wake-up exactly when something was queued |
| AnalysisLists.AnalysisStatus.QueueAny | daemon/src/analysis.rs:345-347 | the loop over the names ends with the first that was queued |
| AnalysisLists.AnalysisStatus.DequeueToRunning | daemon/src/analysis.rs:163-169 | the oldest name starts running, of a queue not empty with nothing running |
| AnalysisLists.AnalysisStatus.FinishRunningAnalysis | daemon/src/analysis.rs:171-175 | the running name is appended to the finished ones |
| AnalysisLists.AnalysisStatus.RunBatch | daemon/src/analysis.rs:257-284 | one wake-up finishes as many names as were counted, in order |
| AnalysisQueue.EverythingIsQueuedExactly | daemon/src/analysis.rs:335-348 | a request for everything queues at most one name; it leaves every candidate in hand if and only if no two were waiting |
| AnalysisQueue.EveryInterleavingIsSafe | daemon/src/analysis.rs:159-175 | in every interleaving the worker never meets an empty queue nor something running |
| AnalysisQueue.AcceptedNamesFinishInOrder | daemon/src/analysis.rs:257-313 | names finish in acceptance order, none is in hand twice, and an idle worker over a queue has a wake-up pending or being sent |
| AnalysisQueue.EverythingAcceptedIsFinished | daemon/src/analysis.rs:257-284 | left alone, the worker empties channel and queue and finishes every accepted name |
| AnalysisQueue.StuckExactly | daemon/src/analysis.rs:333-362 | nothing can move exactly when there is nothing to do or in one deadlock; never the latter with room in the channel |
| AnalysisQueue.DeadlockIsForEver | daemon/src/analysis.rs:353-362 | that deadlock does not end |
| AnalysisQueue.DeadlockIsReachable | daemon/src/analysis.rs:353-362 | a run from a fresh start that ends in it: one request, its wake-up taken, five finished recordings, one more request |
| PassphraseBackoff.Backoff.NoteFailure | daemon/src/pairing.rs:202-210 | the count after a failure, forgotten after ten minutes and saturating |
| PassphraseBackoff.TimeIsPaid | daemon/src/pairing.rs:192-210 | what the count says about the time gone since the first failure, across resets |
| PassphraseBackoff.FailuresAreSlow | daemon/src/pairing.rs:185-215 | n+1 failures one at a time, without success, span at least the sum of min(2^i, 60) seconds for i from 1 to n |
| ConcurrentGuesses.GuessesTogetherAreNotSlowed | daemon/src/pairing.rs:795-808 | any number of requests interleaved so that all checks precede the first failure are all told the passphrase is wrong, at one instant |
| ConcurrentGuesses.GuessesInTurnAreSlowed | daemon/src/pairing.rs:185-215 | of two requests in turn the second is told to wait |
| PairingModel.Retain | daemon/src/pairing.rs:1081-1091 | exactly the devices with another id are kept, in their order |
| PairingSafety.FirstContactIsMadeOnce | daemon/src/pairing.rs:592-605 | in every interleaving at most one setup request succeeds, none on a unit set up before |
| PairingSafety.SetupStaysComplete | daemon/src/pairing.rs:884-977 | no step undoes setup |
| PairingSafety.HashChangesOnlyForCause | daemon/src/pairing.rs:812-823 | the three steps that change the passphrase hash, and when they may |
| PairingSafety.OnlyTheOwnerChangesThePassphrase | daemon/src/pairing.rs:795-823 | once set up, a change goes back to a request whose passphrase is the one behind the hash that was the owner's when it looked |
| TrustedDevices.ExactlyTheLiveCookiesAreAccepted | daemon/src/pairing.rs:1005-1022 | in every reachable state a cookie is accepted if and only if it was issued or loaded and not revoked, and there are at most 32 devices |
| TrustedDevices.RecordedExactlyWhenHandedOut | daemon/src/pairing.rs:1094-1122 | with the file saved, a cookie is recorded exactly when it is handed out |
| TrustedDevices.RevokedCookiesAreRefused | daemon/src/pairing.rs:1080-1091 | a revoked cookie stops working at once, with no assumption on the hash |
| GuessBudgets.TenTriesPerToken | daemon/src/pairing.rs:562-588 | however often re-armed, one setup token takes at most ten wrong tries; then every token is refused |
| GuessBudgets.FiveTriesPerCode | daemon/src/pairing.rs:828-875 | one code is accepted at most once, wrong tries and acceptance together at most five; then it is refused even when right |
| GuessBudgets.NormalizingIsIdempotent | daemon/src/pairing.rs:305-320 | what is typed has one normal form and a token is its own |
| PairingService.Pairing.CheckSetupToken | daemon/src/pairing.rs:562-588 | the check in place: counted, closed at the tenth, expired |
| PairingService.Pairing.TakeCode | daemon/src/pairing.rs:853-875 | the code is taken away when right, burnt at the fifth wrong try |
| PairingService.Pairing.ButtonPressed | daemon/src/pairing.rs:722-757 | approves a waiting request, else re-arms, else asks for the window |
| PairingService.Pairing.PutPressRequest | daemon/src/pairing.rs:663-699 | a request still waiting for the press is not replaced |
| PairingService.Pairing.PressStatus | daemon/src/pairing.rs:705-713 | approved exactly for the request that was, while that is fresh; waiting exactly for the one that waits, while it is; so none when lapsed, foreign or absent |
| PairingService.Pairing.CompleteSetup | daemon/src/pairing.rs:592-605 | an uninterrupted first contact does what its sections do in turn |
| PairingService.Pairing.ChangePassphrase | daemon/src/pairing.rs:812-823 | an uninterrupted change does what its sections do in turn |
| PairingService.Pairing.PairWithPassphrase | daemon/src/pairing.rs:916-937 | likewise, with the unit set up and the window closed |
| PairingService.Pairing.PairWithAccount | daemon/src/pairing.rs:940-977 | likewise, the account's hash taken only when there is none |
| PairingService.Pairing.PairWithCode | daemon/src/pairing.rs:847-882 | likewise, the code consumed before the device is added |
| PairingService.Pairing.Authenticate | daemon/src/pairing.rs:1005-1022 | the search by id and the comparison of the whole hash |
| PairingService.Pairing.RevokeDevice | daemon/src/pairing.rs:1081-1091 | forgets the device, or says there is none |
| StepUpGate.StepUp.Start | daemon/src/stepup.rs:108-134 | old codes weeded, one new one for this browser |
| StepUpGate.StepUp.Confirm | daemon/src/stepup.rs:190-206 | the code in place: right, wrong, or wrong for the last time |
| StepUpGate.StepUp.ButtonPressed | daemon/src/stepup.rs:211-219 | a newest waiting request is confirmed |
| StepUpGate.StepUp.Newest | daemon/src/stepup.rs:146-153 | whatever the order of the map, no request waiting is newer than the one found |
| StepUpGate.StepUp.Active | daemon/src/stepup.rs:222-234 | asking drops a lapsed window |
| StepUpGate.StepUp.Extend | daemon/src/stepup.rs:237-244 | a use moves the last use only |
| StepUpSafety.ActiveMeansConfirmedRecently | daemon/src/stepup.rs:58-67 | active now means confirmed for this browser less than 30 minutes ago, and confirmed or used less than 5 minutes ago, for any sequence of uses |
| StepUpSafety.UsingRevivesExactly | daemon/src/stepup.rs:236-244 | right after a use the window is active if and only if it exists and the cap is not reached |
| StepUpSafety.OneCodeOneWindow | daemon/src/stepup.rs:139-206 | until started again, one code opens at most one window, and mistakes and windows together are at most three |
| StepUpSafety.OnlyFreshCodesOpen | daemon/src/stepup.rs:139-219 | a window opens only for a code less than a minute old, by the button only for a newest |
| MobileIdentity.DecodeEpsMobileIdentity | daemon/src/subscriber_id.rs:44-82 | the decoder's loop reads exactly the digit halves of the value and never outside it |
| MobileIdentity.DecodeUndoesEncode | daemon/src/subscriber_id.rs:51-70 | decoding inverts the encoding for each kind, any digits of odd or even length and any filler |
| MobileIdentity.EncodeUndoesDecodeExactly | daemon/src/subscriber_id.rs:51-70 | what decodes to digits is their encoding with some filler, except exactly a single octet marked even |
| MobileIdentity.TmsiReadsBack | daemon/src/subscriber_id.rs:71-80 | the four octets of a temporary identity come out as the hexadecimal digits of their number |
| MobileIdentity.SentIdentitiesAreRead | daemon/src/subscriber_id.rs:108-145 | an identity sent in an identity response or attach request is found at its place and read |
| MobileIdentity.FromNas | daemon/src/subscriber_id.rs:108-145 | the range found lies in the payload, behind its length octet, and holds what decodes to the identity |
| Redact.RedactNasIdentity | daemon/src/redact.rs:69-77 | the payload in place becomes the redacted one, and what was removed is reported |
| Redact.RedactedStillDecodes | daemon/src/redact.rs:56-68 | the result decodes at the same place to the same kind with as many digits, all zero, and nothing outside the value changes |
| Redact.RedactionIsIdempotent | daemon/src/redact.rs:69-77 | redacting again changes nothing |
| Redact.RedactionHidesExactlyTheDigits | daemon/src/redact.rs:56-77 | two payloads with identities redact alike if and only if they differ in nothing but the digits |
| Redact.WriteCapture | daemon/src/pcap.rs:203-229 | the export loop redacts every LTE NAS frame, counts looks and removals, and never reports more removals than looks |
| Mdns.ParseQuestions | daemon/src/mdns.rs:55-102 | the nested loops terminate on every packet and give the questions specified |
| Mdns.TruncationLosesOnlyTheEnd | daemon/src/mdns.rs:55-102 | a truncated packet gives a prefix of the questions of the whole |
| Mdns.QueryReadsBack | daemon/src/mdns.rs:55-102 | an encoded query of dot-free ASCII labels reads back lowercased with its unicast bits, the first sixteen questions of it |
| Mdns.ResponsesAskNothing | daemon/src/mdns.rs:113-129 | no response that is built parses to a question |
| Mdns.WriteResponse | daemon/src/mdns.rs:113-129 | the pieces appended make the response specified |
| Mdns.AnswersExactlyItsName | daemon/src/mdns.rs:105-107 | of encoded questions exactly those for rayhunter.local in any case, of type A or ANY, are for this unit |
| NearestFix.LoadGpsRecords | daemon/src/gps.rs:62-81 | malformed lines skipped, reading ends at an error, the result sorted and stable |
| NearestFix.PartitionPoint | daemon/src/pcap.rs:124 | the records before it are no later than the packet and the next one is |
| NearestFix.DistanceTo | daemon/src/pcap.rs:111-118 | the distance of any two 64-bit times fits in 128 bits |
| NearestFix.SearchIsRightExactly | daemon/src/pcap.rs:120-148 | on sorted records the record chosen is nearest of all timestamped ones for every packet, ties to the earlier, if and only if no untimestamped record ends the group of one stamped with the earliest time |
| NearestFix.FixIsNearest | daemon/src/pcap.rs:120-156 | the fix reported is a nearest record's, with its packet time or else its system time |
| NearestFix.EarliestTimestampIsMissed | daemon/src/pcap.rs:103-109 | two records for which it is not |
| PressGestures.PressGesture.Press | daemon/src/wifi_ap.rs:86-104 | the loop over the deque, the push and the clearing |
| PressGestures.MemoryIsTheWindow | daemon/src/wifi_ap.rs:86-104 | the deque is always the presses since the last firing within the window before the latest |
| PressGestures.FiresExactly | daemon/src/wifi_ap.rs:86-104 | it fires at a press if and only if enough presses since the last firing, this one included, lie within the window |
| PressGestures.NoPressCountsTwice | daemon/src/wifi_ap.rs:72-104 | the deque stays shorter than a gesture, and firings times presses plus deque never exceed the presses made |
| PressGestures.Clamp | daemon/src/wifi_ap.rs:73-74 | the number of presses between four and twenty nearest the one asked for, itself if in range |

## Left out

- TrustedDevices.ExactlyTheLiveCookiesAreAccepted: assumes that the id of the cookie presented is not that of a different live cookie; cookies of a save that failed count as issued, since memory keeps them.
- DaemonModel: the shutdown thread's direct close of the current entry, the Exit message and demo containers (which take the path of any container) are not steps of the machine.
- DaemonModel: the wording of stop reasons is one arbitrary text; version, hardware and position-mode fields of an entry are left out.
- DaemonModel: notifications, cell information and packet timestamps, which nothing here depends on.
- StoreModel: sequence numbers are unbounded, the program's are 64 bits wide.
- StoreModel: the sizes `usize` and `u64` are unbounded; recordings have no compression, a writer appends blocks.
- CleanupModel: JSON syntax is a function from a line to a value or an error.
- AnalysisModel: a request whose client disconnects while it waits for room in the channel.
- AnalysisModel: what analysing a recording does to its report is a separate step of the daemon model, at any time and to any report.
- PairingModel: what the screen shows, user agents and names, `last_seen` times beyond being relabelled.
- PairingModel: loading `auth.toml`; any state with at most 32 matching records may be the first.
- PassphraseBackoff.FailuresAreSlow: for attempts one at a time; concurrent ones are not slowed, as `ConcurrentGuesses.GuessesTogetherAreNotSlowed` shows.
- StepUpModel: the screen and its banner.
- MobileIdentity: the bytes of a capture before it reaches the NAS payload (QMDL, GSMTAP).
- MdnsModel: sockets, joining groups and `address_for`; how bytes that are not ASCII read as text is arbitrary.
- NearestFix: latitude and longitude are real numbers, not checked for range.
- HTTP handlers, TLS, WebDAV requests, storage detection, framebuffer, QR codes, zip and pcap writing, configuration and device tables: I/O, foreign code or lookups.
