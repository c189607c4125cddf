# Timberlake, verified

A Dafny model of the parts of Timberlake that decide whether a parallel, resumable
sync is right: the worker pool and the UI reducer that counts its results, the pause
gate, the S3 multipart resume, the append resume of the local and SFTP backends, the
size-only skip over many interrupted runs, the bulk listing that replaces per-item
size queries, and the small agreement machines around them (web snapshots, history
rings, speed window, byte units). `dafny verify dfyconfig.toml` checks all of it.

## How it is modelled

**Concurrency is a transition system.** `WorkerPool` has one action per atomic step of
a worker goroutine, of a `waitForMsgCmd` consumer, of the event loop, or of the user;
`PauseGate` has one per step of the mutex and condition variable; `WebHub` one per step
of `Publish` and of each browser's loop. `Reachable` closes over every interleaving, so
a lemma about a reachable state is about all of them. In the pool, passing the gate is
one step, taken when the gate is seen open; `PauseGate.TrueMeansSawOpen` is the reason
that is right.

**Objects are classes.** `UiModel.Model` holds the fields of the UI's Model and handles
messages and keys in place; each method's contract equates the new `View()` with the
value-level step of `Reducer` that the pool's transition system uses, so the pool's
theorems hold of the object. `S3Backend.S3`, `FileCopy.Store`, `SpeedWindow.SpeedMeter`
and `WebHub.Server` are the other mutable objects. `uploadMissingParts` is a loop whose
every turn lets either the dispatching loop or one goroutine go on, over an array that
is filled in place.

**The environment can do anything.** Every open, read, write and server call may fail;
a failing write may have written part of its chunk; a failing server call may or may not
have taken effect; a reader delivers its bytes in any chunks; `ListParts` returns any
subset of what is stored. These choices are arbitrary values in method bodies, so the
contracts hold for all of them. What the AWS server and SDK are relied on for is stated
as the contracts of `Bucket.Server`.

**What was asked is on record.** `Bucket.Server` and `FileCopy.Store` append every call,
with its answer, and every failure met on the way to one ghost history. A contract's ghost
result `calls` is exactly what the call added to that history, so "each missing part is
sent once", "at most `concurrency` requests are open", "complete is called only if nothing
failed", "the partial is resumed" and "fails exactly when a call did" are statements about
the calls made.

**Results are stated twice over.** Besides the invariants there are laws that use none of
the model's own tests: `S3Laws` judges listed parts by the file's slices, `PoolOutcomes`
says what each reported status means in each mode, `PoolFigures` what the screen shows.

**Others are at work meanwhile.** Between any two calls of a `Put` on a shared server or
store, `Others` may do anything at all to other keys or files; the contracts speak of the
Put's own key and say that everything else is as others have left it. Where nobody else
acts this means that nothing else changes (`Bucket.AloneLeavesOtherKeys`,
`FileCopy.AloneLeavesOtherFiles`). Each call of such a Put is one of the writes of the
whole-program model (`PoolSync.CopyCallIsAWrite`, `PoolSync.S3CallIsAWrite`).

**Digests are injective.** SHA-256, and the MD5 behind an ETag, are constructors around
their content. An ETag that is not an MD5 is allowed and never matches.

**Assumed of the caller.** At least one worker, a message channel of capacity at least 1,
distinct relative paths, a source that does not change and holds exactly `size` bytes,
and finitely many progress calls per `Put`. Sizes are unbounded integers except where
the code's integer width matters: `Parts` and `S3Backend` (int64 sizes and sums, the int32
part count and loop counter) and `Format`.

## What was found

- The bulk path arms a second consumer of the message channel (ui/update.go:461), so
  messages can be handled out of order. A run can then be Done while a worker slot still
  shows a finished file. Exactly the runs that do not list the destination first always
  end quiet: `PoolBulk.QuietEndIffOneConsumer`. Counts, termination and the transfer cap
  are proved for both paths.
- On that path the data bar can overrun as well: a progress report held by one consumer can
  land in the slot of a smaller, later file. With honest backends the bar stays within the
  total, whatever is scanned, for exactly the destinations that are not listed:
  `PoolBulk.BoundIffOneConsumer`.
- Quitting while paused can leave a worker asleep (ui/pause.go:60-64): the hooks' broadcasts
  are issued without the mutex and can fall between a worker's check of the context and its
  `Wait`. ui/pause_test.go:44 expects that a quit always releases it. It does, under every
  schedule, if and only if no worker is in that gap when the context is cancelled, or
  another has yet to take the mutex; that one's hook is started at once and broadcasts when
  the first is asleep (`PauseGate.CancelReleasesIff`, `PauseGate.LatecomerRescues`).
  Resuming is not affected.
- The size-only skip is sound exactly from destinations that hold no file of the same size
  but different content (`SyncRuns.SkipsAreSoundIff`); such a file is never repaired
  (`SyncRuns.SyncCorrectIff`). A destination of prefixes is one case, and no `Put`,
  interrupted at any write, ever leaves it (`SyncRuns.NoneDisguisedKept`).
- `BuildKey` maps `a\b` and `a/b` to one object; paths with a backslash or a leading slash
  do not survive the trip through their key. `Listing.PathRoundTripIff`.
- The int32 part count is exact up to 2^31 - 1 parts whose rounding sum fits an int64, and
  too small beyond (`Parts.TotalPartsExactIff`); at exactly 2^31 - 1 parts the loop counter
  wraps past the last part (`Parts.CounterCanOverrun`). Resuming a file of such a size
  from parts that fit can panic, fail, or complete an object that is not the source, while
  every size of at most 2^31 - 2 parts is safe (`S3Backend.CountedIsSourceUnlessUnsafe`, `S3Backend.S3.Put`).

## Model

| member | source | states |
|---|---|---|
| Reducer.ReduceKeepsCounters | ui/update.go:511-529 | no message, for any worker number and status, makes a file or byte counter differ from what the log of finished items says |
| Reducer.ReduceFrame | ui/update.go:483-548 | handling a message never changes totals, gate or cancellation; the phase changes only to Done when all is counted, or from catching up to uploading |
| Reducer.CountKeepsCounters | ui/update.go:492-530 | counting one status keeps every file and byte counter equal to what the log of finished items says |
| PoolInvariants.ReachableInv | ui/update.go:655-766 | shape, slots, phase, consumer and counter invariants hold in every reachable state of both paths |
| PoolInvariants.InvStep | ui/update.go:655-766 | each atomic step of worker, consumer, event loop or user keeps them |
| PoolInvariants.TransfersCapped | ui/update.go:671-756 | tokens in uploadSem equal the workers between acquire and release, are at most UploadJobs, bound the running transfers, and none is left when no worker is under way, whatever failed or was cancelled |
| PoolInvariants.UploadJobsIsTheCap | ui/update.go:671-677 | with UploadJobs set, no more transfers run at once than that, whatever the number of workers and in every interleaving |
| PoolInvariants.QueueingMeansACap | ui/update.go:722-733 | a worker queues for a transfer, or a token is taken, only if 0 < UploadJobs < Jobs; then whoever transfers holds one of UploadJobs tokens |
| PoolInvariants.ConsumerStep | ui/update.go:441-481 | the per-item path never has a second consumer of the channel; the bulk path never has three |
| PoolInvariants.PumpedStep | ui/update.go:541-548 | a consumer stays armed or busy until everything is counted |
| PoolInvariants.PhaseStep | ui/update.go:234-258 | how phase, gate, stage and cancellation fit together survives every step |
| PoolInvariants.ScanStartsTheRun | ui/update.go:418-450 | a completed scan fixes the totals; nothing found is Done, and only a destination that can list itself and 200 files or more put a listing before the workers and ever make a second consumer |
| PoolConservation.ConservedStep | ui/update.go:655-766 | for any weight on items, each step moves weight between queue, workers, messages and log without gain or loss |
| PoolConservation.ReachableConserved | ui/update.go:655-766 | so every reachable state splits the scan's weight exactly |
| PoolConservation.FivePlaces | ui/update.go:655-766 | for any weight on items, the scan is what is undispatched, held by a worker, abandoned after a cancellation, in a sent terminal message, and counted; nothing is abandoned without a cancellation |
| PoolConservation.OnePlace | ui/update.go:655-766 | each scanned item is in exactly one of those five places, once |
| PoolConservation.CountsAndBytes | ui/update.go:483-548 | files and bytes of the scan are the sums over the five places; the counters never exceed TotalFiles |
| PoolConservation.DoneMeansAllCounted | ui/update.go:541-545 | StateDone implies every item was dispatched and counted and no worker holds or has sent an uncounted one |
| PoolStreams.StreamsInOrder | ui/update.go:682-763 | with one consumer, every worker's messages follow Checking, optional Queued, optional Uploading with progress, one terminal, in every interleaving |
| PoolStreams.DeliveredIsLegal | ui/update.go:463-531 | the message Update handles next is about the file its slot already shows, so a slot never mixes two files |
| PoolStreams.LiveBytesBounded | ui/update.go:582-603 | live transferred plus skipped bytes never exceed TotalBytes when backends report no more than the file holds |
| PoolStreams.DoneIsQuiet | ui/update.go:216-226 | at StateDone the channel is empty, every slot idle and zeroed, no transfer slot taken |
| PoolFigures.NestedReportsNestedSlots | ui/update.go:463-472 | reports whose committed, uploaded and buffered bytes nest leave every slot nested, on both paths and in every interleaving |
| PoolFigures.ReportShows | ui/update.go:463-481 | with one consumer, a report that found room in the channel is what its slot shows, figure by figure and for its own file, until the worker's next step |
| PoolFigures.ReportsNeverBlock | ui/update.go:736-749 | a report never waits for the channel: the worker goes on, and with the channel full only the report is lost |
| PoolFigures.QueuePosReachesTheEnd | ui/update.go:489-491 | at the end of every run with one consumer the queue position is the last item's |
| PoolFigures.UploadingNeedsATransfer | ui/update.go:493-506 | the run shows as uploading only after some worker's transfer was shown |
| PoolFigures.TransferEndsCatchUp | ui/update.go:504-506 | and the first one shown ends the catch-up for good, pauses included |
| PoolFigures.ReadOnlyNeverUploading | ui/update.go:708-720 | so dry-run and verify-only never show as uploading |
| PoolFigures.LiveMoves | ui/update.go:582-590 | each message moves the live byte count by what it says about its own slot and by the bytes it completes |
| PoolBulk.BulkCanEndStuck | ui/update.go:456-461 | for every configuration that lists first there is a run that is Done with a slot still on the last file |
| PoolBulk.QuietEndIffOneConsumer | ui/update.go:443-461 | all ends are quiet if and only if the destination is not listed first |
| PoolBulk.BulkCanOverrun | ui/update.go:463-481 | for every writing configuration that lists first and whose last file but one is larger than the last there is a run, with honest reports, whose live and skipped bytes exceed TotalBytes |
| PoolBulk.BoundIffOneConsumer | ui/update.go:443-461 | for honest backends the bound holds for all scans and runs if and only if the destination is not listed |
| PoolProgress.PoolRankDrops | ui/update.go:682-763 | every worker or consumer step lowers a well-founded rank |
| PoolProgress.NeverDeadlocks | ui/update.go:541-548 | with the gate open and no cancellation, some worker or consumer can move until StateDone, for every capacity, worker count and slot cap |
| PoolProgress.PoolTerminates | ui/update.go:655-766 | and every such run, however scheduled, reaches StateDone with the counts equal to TotalFiles |
| PoolProgress.EveryRunReachesDone | ui/update.go:541-548 | the same from any state that keeps the invariants, at a later point of the run |
| PoolPause.GateAndLabelAgree | ui/update.go:246-258 | the label says paused exactly when the gate is shut and the run is neither done nor cancelled; the "never stay paused" branch is dead |
| PoolPause.ResumeRestoresPhase | ui/update.go:246-258 | resuming after any run without the p key restores the phase that was left |
| PoolPause.PauseBoundsFurtherItems | ui/update.go:682-690 | while the gate stays shut, at most as many items finish as workers were past it, which is at most Jobs |
| PoolPause.CancelBoundsFurtherItems | ui/update.go:682-690 | after a cancellation the same bound holds for good, whatever keys are pressed |
| PoolPause.CancelKeepsNobodyWaiting | ui/update.go:682-690 | and in every later state whoever waits for the gate or for a transfer slot can give its item up, and nobody passes the gate |
| PoolPause.PauseToggles | ui/update.go:246-258 | in an active run p shuts the gate and shows it, and p again restores phase and gate |
| PoolPause.QuitCancels | ui/update.go:234-244 | q cancels, and the run shows as cancelled if and only if it was neither done nor failed; done means every scanned file was counted |
| PoolModes.ReachableModes | ui/update.go:708-720 | in the non-writing modes every control point, message and record is one the mode allows |
| PoolModes.ReadOnlyNeverTransfers | ui/update.go:708-720 | dry-run and verify-only never queue for, open or put a file; dry-run never fails one, verify-only never uploads one and takes precedence |
| PoolModes.QueuePosIsDispatched | ui/update.go:489-491 | the queue position on screen is always an item already taken from the queue |
| PoolOutcomes.RecordsTellOutcomes | ui/update.go:704-763 | in every run and mode a record is about a scanned item and is Skipped if and only if the answer was its own size; otherwise, verifying, Error; in a dry run, Done; in a writing run Done if and only if its Put succeeded and Error if and only if it failed |
| PoolOutcomes.OnlyMissingIsPut | ui/update.go:704-735 | nothing is put that the destination was not found to lack, and nothing in a run that only reads |
| PauseGate.SleepersWaitForAReason | ui/pause.go:27-65 | a sleeping waiter implies a shut gate or a broadcast still to come |
| PauseGate.TrueMeansSawOpen | ui/pause.go:48-68 | wait returning true saw the gate open while the context was live |
| PauseGate.CancellationIsPermanent | ui/pause.go:48-68 | no step undoes a cancellation |
| PauseGate.CalmRunRests | ui/pause.go:48-68 | once no key is pressed and the gate is open or the run cancelled, every schedule of waiters and hooks comes to rest |
| PauseGate.ResumeReleasesAll | ui/pause.go:27-68 | from a call of set(false), made while waiters sleep or not, and with no further key: after any endless interleaving of waiters, hooks and the call itself, every call of wait has returned, with true unless the context was cancelled |
| PauseGate.SetTakesEffect | ui/pause.go:27-35 | a call of set leaves the gate as the value passed says, whatever else happens meanwhile |
| PauseGate.NobodyPassesAShutGate | ui/pause.go:48-68 | a call of wait that begins while the gate is shut, and stays shut, never returns true |
| PauseGate.FalseMeansCancelled | ui/pause.go:48-68 | wait returning false means the context is cancelled |
| PauseGate.CancelReleasesIff | ui/pause.go:53-67 | cancelling releases every call of wait, under every schedule, if and only if at that moment no waiter is between its check of the context and cond.Wait, or some other is past its worker's context check and has yet to take the mutex |
| PauseGate.CancelReleasesAll | ui/pause.go:53-67 | under that condition every endless schedule passes a state in which all calls have returned |
| PauseGate.GapCanSleepOn | ui/pause.go:60-64 | from any gate with a waiter in the gap and nobody still to take the mutex, for any number of waiters, some schedule that takes no hook back leaves it asleep for good |
| PauseGate.CancelCanLeaveASleeper | ui/pause.go:58-65 | such a gate is reachable, and so is the sleeper |
| PauseGate.LatecomerRescues | ui/pause.go:53-65 | a reachable gate with one waiter in the gap and a second still to take the mutex, where a cancellation always releases both |
| Parts.TotalPartsExactIff | transfer/s3backend/s3.go:247 | for all int64 sizes the int32 count is never too large, and exact if and only if the sum fits an int64 and size <= partSize * (2^31 - 1) |
| Parts.CounterFitsIff | transfer/s3backend/internal.go:108 | the count is exact and the int32 loop counter can step past it if and only if the size fits, that is, up to 2^31 - 2 parts |
| Parts.CounterCanOverrun | transfer/s3backend/internal.go:108 | at 2^31 - 1 parts the counter wraps, to a part of no bytes or less |
| Parts.CounterOverrunExample | transfer/s3backend/internal.go:108 | such a size within int64 |
| Parts.OffsetsFit | transfer/s3backend/s3.go:334-340 | for every size, no offset computed for a counted part, nor its sum with partSize, leaves int64 |
| Parts.TotalPartsCanWrap | transfer/s3backend/s3.go:310 | a size within int64 whose count wraps to 1 |
| Parts.PartsTile | transfer/s3backend/s3.go:334-340 | every part has 1 to partSize bytes, starts where the previous ended, and the last one ends the file |
| Parts.JoinPrefix | transfer/s3backend/s3.go:334-340 | the first k slices joined are the file up to the end of part k, and their lengths sum to it |
| Parts.SlicesRebuild | transfer/s3backend/s3.go:334-340 | all slices in order are the file |
| Parts.CountedPartsRebuildIff | transfer/s3backend/s3.go:247 | the parts the code counts make up the file if and only if it counts exactly |
| Bucket.Server.ListParts | transfer/s3backend/s3.go:303-308 | assumed: any subset of the stored parts, in any order, or an error |
| Bucket.Server.ListMultipartUploads | transfer/s3backend/s3.go:216-222 | assumed: any page of real uploads under the key as prefix, or an error |
| Bucket.Server.EndPart | transfer/s3backend/internal.go:157-171 | assumed: the answer to a request on record; success stores the part under its number, failure may or may not have |
| Bucket.Server.CompleteMultipartUpload | transfer/s3backend/s3.go:267-275 | assumed: an accepted, non-empty list becomes the object at once, even if the answer is lost; any other changes nothing |
| Bucket.Server.ManagedUpload | transfer/s3backend/s3.go:201-211 | assumed: success stores the exact body; failure may leave any uploads of this key behind |
| Bucket.AloneLeavesOtherKeys | transfer/s3backend/s3.go:144-145 | a method that leaves other keys as others left them changes none of them where nobody else acts |
| S3Trace.UnderThroughout | transfer/s3backend/internal.go:103-135 | at every moment of a part transfer each part was sent at most once and no more than the cap are open |
| S3Trace.CompleteMeansAllSent | transfer/s3backend/s3.go:262-275 | a complete call is the last one, after a request for every missing part and without any failure before it |
| S3Trace.ResumeSendsExactlyTheRest | transfer/s3backend/s3.go:234-277 | over all the calls of a Put that returns nil after listed parts that fit: each part that was not verified was sent once, and no verified one |
| S3Trace.PutStoresLast | transfer/s3backend/s3.go:181-210 | in the whole course of a Put no call but the last can change the object |
| S3Laws.SizeTestIsRight | transfer/s3backend/s3.go:315-321 | for every size that fits, the code accepts a listed part if and only if it is a part of the file and has its slice's length, the short last one included |
| S3Laws.RightPartsAreResumed | transfer/s3backend/s3.go:234-262 | an upload all of whose listed parts have the lengths of their slices is never aborted nor started afresh |
| S3Laws.WrongPartsAreGivenUp | transfer/s3backend/s3.go:234-246 | one entry out of range or of another length than its slice, and no part is sent and nothing completed: the upload is aborted and the file sent afresh, or reading the source failed |
| S3Laws.MatchingPartsAreNotSent | transfer/s3backend/s3.go:322-331 | a listed part whose ETag is the MD5 of its slice is never sent again |
| S3Laws.OtherPartsAreSent | transfer/s3backend/internal.go:108-115 | and every other part is, once, in a Put that returns nil after listed parts that fit |
| S3Laws.ListedUploadIsTakenUp | transfer/s3backend/s3.go:181-229 | only a file of more than one part is looked up; the first listed upload of exactly this key is the one resumed, and none of another key |
| S3Laws.FailsExactlyWithACall | transfer/s3backend/s3.go:144-211 | a Put fails exactly when a call on record did, or the source, or the context |
| S3Laws.ShortLastPartFits | transfer/s3backend/s3.go:315-321 | 20 bytes in parts of 8: a full first part and a 4-byte third one both fit |
| S3Backend.SortIsIdentity | transfer/s3backend/internal.go:174-178 | any sort by part number of a list in strict part order is that list |
| S3Backend.AssembleIsJoin | transfer/s3backend/s3.go:266-275 | completing a list in part order assembles the slices in order |
| S3Backend.Recorded | transfer/s3backend/internal.go:129-132 | a goroutine recording its ETag fills its own slot and disturbs no other |
| S3Backend.AnswerFailed | transfer/s3backend/internal.go:125-129 | a failed part, stored or not, keeps the bookkeeping and leaves an error behind |
| S3Backend.Landing | transfer/s3backend/internal.go:135-136 | when all have landed without an error, slot k holds part k + 1 with the right bytes on the server, in whatever order they completed |
| S3Backend.LoggedLanding | transfer/s3backend/internal.go:135-136 | and then every request is answered and each missing part was sent exactly once |
| S3Backend.CountedIsSourceUnlessUnsafe | transfer/s3backend/s3.go:247-277 | for files of more than one part: the counted parts are the source, the slice can be allocated and the loop ends, if and only if the size fits |
| S3Backend.S3.PartMD5Matches | transfer/s3backend/internal.go:84-98 | true exactly when the stored ETag is the MD5 of the local part |
| S3Backend.S3.FindInProgressUpload | transfer/s3backend/s3.go:215-229 | one listing call; the first listed upload of exactly this key, never of a longer one |
| S3Backend.S3.ValidExistingParts | transfer/s3backend/s3.go:302-331 | one ListParts call; fails exactly when it or a read of the source does; ok exactly when every listed part fits; keeps exactly the listed parts that match the local data, and each holds the right bytes |
| S3Backend.S3.ReadAndSend | transfer/s3backend/internal.go:141-165 | one request carrying the slice of the file, or none because the source failed |
| S3Backend.S3.Answer | transfer/s3backend/internal.go:125-132 | for any goroutine whose answer comes next: its part is stored, or an error is noted with the part as it was or so replaced |
| S3Backend.S3.UploadMissingParts | transfer/s3backend/internal.go:102-137 | for every completion order: err exactly when a read, a request, the context or the counter failed; only missing parts are sent, each at most once and at most `concurrency` at a time, all answered; nil means each was sent and every slot is filled in part order with the server holding those bytes |
| S3Backend.S3.SeedCompleted | transfer/s3backend/s3.go:248-260 | kept parts at their own slots, all others empty |
| S3Backend.S3.CompleteResumed | transfer/s3backend/s3.go:266-276 | completing a filled slice stores the source or changes no object |
| S3Backend.S3.FinishUpload | transfer/s3backend/s3.go:247-277 | complete is called if and only if nothing failed, last and with parts 1, 2, ... in order; a negative count panics |
| S3Backend.S3.ResumeMultipart | transfer/s3backend/s3.go:234-277 | its calls: list; then give up on a failure, abort and start clean if and only if a listed part does not fit, else send exactly the parts not verified and complete; nil means the object is what the code counts of the source, or the source |
| S3Backend.S3.FreshMultipart | transfer/s3backend/s3.go:281-297 | nil means the object is the source |
| S3Backend.S3.Put | transfer/s3backend/s3.go:144-211 | from any server state, for every int64 size, with others at work on other keys: the exact course of its calls; for every safe size no panic, nil means the object is the source, otherwise it is what it was or the source; other keys are as others left them; for the other sizes, what can be stored instead |
| S3Backend.S3.Attempts | transfer/s3backend/s3.go:144-211 | the same over any number of attempts with anything left among the key's uploads between them |
| S3Backend.S3.OpenAt | transfer/s3backend/internal.go:264-277 | an open-ended range (section 14.1.2 of RFC 9110) yields the content from that offset on |
| FileCopy.RisingMeansSorted | transfer/transfer.go:24-32 | rising reports never go back and stay between their bounds |
| FileCopy.Store.Stat | transfer/localfs/localfs.go:108-117 | existence and size, or an error |
| FileCopy.Store.SftpStat | transfer/sftpbackend/sftp.go:141-150 | the same, with every error answered as not present |
| FileCopy.Store.PartialMatches | transfer/localfs/localfs.go:182-204 | true exactly when the stored file is a prefix of the source |
| FileCopy.Store.ResumeOffset | transfer/localfs/localfs.go:130-135 | the partial's length exactly when it is a proper, non-empty, true prefix and no query or comparison on record failed, else 0 |
| FileCopy.Store.WriteOn | transfer/sftpbackend/sftp.go:205-220 | at the end of the file an O_APPEND write and a write at the seek offset leave the same file |
| FileCopy.Store.CopyChunk | transfer/localfs/localfs.go:157-166 | a chunk is reported as read, then written; the file stays a prefix of the source at every failure |
| FileCopy.Store.CopyAll | transfer/localfs/localfs.go:155-172 | for every chunking and every failure point, appending or seeking, the file is a prefix of the source, and all of it on success |
| FileCopy.Store.LocalPut | transfer/localfs/localfs.go:121-173 | with others at work on other files: fails exactly when a call on record did; nil leaves exactly the source, written from the end of the true prefix if there is one (never emptying it) and from 0 otherwise, each missing byte once and in order; the reports are the ends of the chunks, never go back and end with the size; failure leaves the old file or a prefix, after every call; other files are as others left them |
| FileCopy.Store.SftpPut | transfer/sftpbackend/sftp.go:187-244 | the same contract for the seek variant |
| FileCopy.StepAt | transfer/localfs/localfs.go:143-172 | each single call of a Put leaves the file as it was or leaves a prefix of the source |
| FileCopy.ProperPrefixIsResumed | transfer/localfs/localfs.go:130-172 | a proper, non-empty prefix whose size and digest could be had is resumed: never emptied, nothing written or reported below its end, and success writes exactly the rest |
| FileCopy.AnythingElseStartsOver | transfer/localfs/localfs.go:143-172 | a successful Put over anything else empties the file and writes all of the source |
| FileCopy.FailsExactlyWithACall | transfer/localfs/localfs.go:121-173 | a Put fails exactly when an open, a read or a write on record did; a failed size query or comparison never fails it |
| SyncRuns.SyncItem | ui/update.go:692-763 | a worker's dealings with one item on a local or SFTP destination, with others at work on other items: the calls on record are one size query whose answer alone decides, then nothing or a whole Put; alone it is a visit of the run model |
| SyncRuns.SyncItems | ui/update.go:680-763 | a worker's whole list, worked on alone, is a run told by its calls, and what is proved of runs holds of it |
| SyncRuns.S3PutIsAStep | transfer/s3backend/s3.go:144-211 | the S3 Put's contract, where nobody else acts, is a step of the run model too |
| SyncRuns.PrefixesKept | transfer/localfs/localfs.go:121-173 | over any number of visits, with Puts interrupted at any write, every file stays a prefix of its source |
| SyncRuns.SizeDecidesContent | ui/update.go:704-706 | among prefixes, the size test decides exactly what a full comparison would |
| SyncRuns.SizeDecidesIff | ui/update.go:704-706 | for any file it does so if and only if the file is not of equal size and other content |
| SyncRuns.NoneDisguisedKept | transfer/localfs/localfs.go:121-173 | no visit, interrupted at any write or not, makes a file so |
| SyncRuns.SkipsAreSound | ui/update.go:695-706 | so over any number of interrupted runs from a destination without such files, a skipped file already equals its source |
| SyncRuns.SkipsAreSoundIff | ui/update.go:695-706 | and only from such a destination |
| SyncRuns.DisguisedExample | ui/update.go:704-706 | a file that defeats the test, and one that is no prefix and does not |
| SyncRuns.EndIsAVisit | ui/update.go:682-763 | with workers in parallel, an item ends as if it had been asked about just then |
| SyncRuns.ParallelRunIsARun | ui/update.go:678-763 | every interleaving of size queries and finished items by the workers is a sequential run with the same destination at the end |
| SyncRuns.FateOfPath | ui/update.go:695-763 | without errors, a file of equal size but other content stays, every other visited file becomes the source, an unvisited one stays |
| SyncRuns.SyncCorrectIff | ui/update.go:695-706 | from any destination, an error-free full run ends equal to the source if and only if no file of equal size but other content was there |
| SyncRuns.NextRunOnlySkips | ui/update.go:704-706 | a run after a successful one skips everything and changes nothing |
| SyncRuns.SnapshotStaysExact | ui/update.go:695-703 | a listing taken at the start still answers exactly for an item when its turn comes |
| SyncRuns.BulkRunsAreItemRuns | ui/update.go:695-706 | the runs that decide from the listing are exactly the runs that ask per item |
| PoolSync.NobodyElse | ui/update.go:680-763 | in every reachable state, while a worker holds an item no other worker does, no terminal message about it is in flight and it is not counted |
| PoolSync.CopyCallIsAWrite | ui/update.go:735-750 | every call of a local or SFTP Put, whenever it happens, is a write by its worker in the whole-program model |
| PoolSync.S3CallIsAWrite | ui/update.go:735-750 | so is every call of an S3 Put of a safe size |
| PoolSync.PutReturnIsADeed | ui/update.go:735-763 | and the Put's return is the pool's, with the outcome its contract promises |
| PoolSync.DeedKeepsWorld | ui/update.go:682-763 | every step of the pool and every write of a Put keeps: what was reported or counted as there is there, what is undecided is untouched, nothing is disguised |
| PoolSync.CountedMeansSynced | ui/update.go:511-529 | at every moment of every run, quit or not, a file counted as uploaded or skipped equals its source, and the next run can trust the destination |
| PoolSync.DoneMeansSynced | ui/update.go:541-545 | at StateDone without a failed file every scanned file equals its source, for every interleaving, chopping of Puts, with or without a listing, in writing and in verify-only runs |
| PoolSync.VerifiedMeansInPlace | ui/update.go:708-716 | a verify-only run that is Done without a failed file found every scanned file in place, as it was from the start |
| PoolSync.ReadOnlyWritesNothing | ui/update.go:708-720 | no run of a read-only mode ever changes the destination |
| Listing.PathRoundTripIff | transfer/s3backend/s3.go:113-119 | trimming the listing prefix from a path's key gives the path back if and only if it has no backslash and no leading slash |
| Listing.TrimCutsSlashes | transfer/s3backend/s3.go:113-119 | a prefix loses the slashes at both ends and nothing else |
| Listing.KeyOfPlainPath | transfer/s3backend/s3.go:113-119 | the key of a plain path is the bare prefix, one slash and the path, however many slashes the prefix was given with; without a prefix it is the path |
| Listing.BuildKeyInjective | transfer/s3backend/s3.go:113-119 | two such paths never share a key |
| Listing.BuildKeyCollision | transfer/s3backend/s3.go:113-119 | two other paths can |
| Listing.ScanOpenRoundTripIff | transfer/s3backend/internal.go:203-268 | the path Scan reports for a key leads Open back to that key if and only if it is such a path |
| Listing.TakePage | transfer/s3backend/internal.go:241-255 | one page: all its entries are recorded, or the limit is exceeded |
| Listing.StatAll | transfer/s3backend/internal.go:224-261 | ok means the whole listing within the limit and that no page failed; an error means some page did; neither means the destination holds more than the limit |
| Listing.BulkStat | ui/update.go:59-78 | what reaches the pool is a whole listing, or nothing; nothing only if a page failed or the destination holds more than the limit |
| Listing.SnapshotAnswersAsHead | transfer/s3backend/s3.go:124-141 | a whole listing answers as a HeadObject of the item's key would |
| Listing.ListingIsExactAtStart | ui/update.go:698-703 | so it is exact for every item at the start of the run |
| Listing.ListingChangesNoRun | ui/update.go:443-461 | bulk listing, over-limit fallback and per-item queries give the same decisions and the same destinations |
| Listing.PutIsLocalInView | transfer/s3backend/s3.go:144-145 | a Put of one item's key changes, by relative path, that item only |
| WebHub.InvStep | web/server.go:88-220 | every step of the publisher or of any browser keeps the coalescing invariant |
| WebHub.LatestIsNeverLost | web/server.go:88-220 | a registered browser has read the latest snapshot, or a token, the dirty flag, a send about to read or the publisher still stands for it |
| WebHub.SentNeverGoesBack | web/server.go:183-220 | versions sent to a browser never decrease |
| WebHub.QuietMeansLatestSent | web/server.go:201-220 | a browser with nothing pending was last sent the latest snapshot |
| WebHub.NextTickDelivers | web/server.go:201-214 | otherwise a wake-up, a tick and a send deliver it, with no further Publish or heartbeat |
| WebHub.FramesArePaced | web/server.go:183-220 | however often snapshots are stored, a browser is sent one frame on registration, one per heartbeat, and beyond that at most one per tick and at most one per wake-up |
| WebHub.Server.Publish | web/server.go:88-98 | undisturbed, it is such a run of steps and leaves a token in every channel |
| UiModel.PushIsLastN | ui/update.go:184-190 | append and cut keeps a ring equal to the last n entries of everything appended |
| UiModel.RingIsTheEnd | ui/update.go:184-190 | that is, the end of the log in order, of 200 entries as soon as there are so many |
| UiModel.FinishedWorkerAgrees | ui/update.go:511-529 | a finished item keeps its worker's ring, BytesMoved and FilesDone equal to readings of that worker's part of the log |
| UiModel.OtherWorkerAgrees | ui/update.go:170-191 | and every other worker's |
| UiModel.Model.constructor | ui/model.go:309-365 | the initial model, with one idle slot per worker |
| UiModel.Model.Finish | ui/update.go:170-226 | recordHistory and resetWorker: one log entry, rings in agreement, that slot idle, others as they were; BytesMoved grows by an uploaded file's size only, FilesDone by one unless it failed |
| UiModel.Model.HandleStatus | ui/update.go:483-548 | in place, the message's whole effect is the reducer's step: each counter, byte total, the queue position and the phase, one by one; rings and counters stay readings of one log; asks for another message exactly when not all is counted |
| UiModel.StatusSlotMeans | ui/update.go:483-530 | and its slot: a transfer's shows the file with its size and no bytes yet, a finished one is idle and zeroed, any other only changes status and name; no other slot changes |
| UiModel.Model.HandleProgress | ui/update.go:463-481 | in place, that slot holds the report's own committed, uploaded and buffered bytes and size, under the same status; no other worker's entry changes |
| UiModel.Model.HandleScan | ui/update.go:418-450 | totals, phase, and whether workers start at once or, for 200 files or more on a destination that can list itself, after a listing |
| UiModel.Model.ScanTotal | ui/model.go:375-384 | the sum of the item sizes |
| UiModel.Model.PressP | ui/update.go:246-258 | pause and resume: from each phase, the phase, gate and remembered phase after the key |
| UiModel.Model.PressQ | ui/update.go:234-244 | quitting cancels, and is a cancellation unless the run was done or failed |
| UiModel.Model.LiveTransferredBytes | ui/update.go:582-590 | completed bytes plus the uploaded bytes of the slots that are uploading |
| UiModel.Model.TotalBarRatio | ui/update.go:594-603 | within 0 and 1, and exact whenever live and skipped bytes are within the total |
| SpeedWindow.WindowIsSmall | ui/update.go:605-614 | samples 750 ms apart within 12 s are at most 17 |
| SpeedWindow.WindowCanBeFull | ui/update.go:605-614 | 17 is reached |
| SpeedWindow.SpeedMeter.Trim | ui/update.go:631-636 | keeps exactly the samples of the window, among them the newest |
| SpeedWindow.SpeedMeter.Recompute | ui/update.go:638-646 | SpeedBps becomes bytes over span of the window exactly when that can be measured, and is never negative |
| SpeedWindow.SpeedMeter.Restart | ui/update.go:432 | the end of the scan restarts the warm-up and keeps the window |
| SpeedWindow.SpeedMeter.SampleSpeed | ui/update.go:620-647 | due 3 s after the start and every 750 ms at most; the window stays spaced, inside 12 s and at most 17 long; SpeedBps is the bytes over the seconds between the ends of a window of at least 2 s, else what it was |
| SpeedWindow.RateIsBytesPerSecond | ui/update.go:638-646 | the rate times the seconds of the window is the bytes that arrived in it |
| SpeedWindow.SteadyRate | ui/update.go:638-646 | at a constant rate that rate is shown |
| Format.NextUnit | ui/view.go:745-748 | a truncating division by 1024 keeps the value between n and n + 1 times div |
| Format.FormatBytes | ui/view.go:739-750 | for every int64: from 1024 on div is the power of 1024 just below the value, the letter index is in range, nothing overflows |
| Format.LettersStandForPowers | ui/view.go:739-750 | K, M, G, T, P and E stand for the first six powers of 1024, over exactly the values between each and the next |
| Format.CellsMonotone | ui/view.go:703-706 | more bytes never fill fewer cells, and never more than the bar has |
| Format.CellsAreTheShare | ui/view.go:703-706 | the cells are the exact share rounded down; all bytes fill the bar and none leave it empty |
| Format.BufferBar | ui/view.go:673-720 | whatever the figures, the four segments are non-negative and fill the bar; committed bytes have their exact share, the whole bar when all are committed; nested figures give nested segments |

## Left out

- AWS SDK, managed uploader, SSH, SFTP client and HTTP internals: contracts in Bucket and FileCopy stand for them.
- SHA-256 and MD5: injective constructors; collisions are not modelled.
- S3Backend.S3.Put: for sizes that are not safe, what the panic leaves behind in the process, and the requests for parts with wrapped numbers, are not modelled; the size is an int64.
- Bucket.Server.CompleteMultipartUpload: the server's own limits (10,000 parts, minimum part size) appear only as a refusal.
- S3Backend.S3.ValidExistingParts: an ETag is compared as a value; trimming its quotes and skipping entries without a number, size or ETag are covered by "any subset is listed".
- S3Backend.S3.UploadMissingParts: the unsynchronized read of firstErr by the loop is modelled as noticing an error late.
- Listing.StatAll: a key listed without a size counts as size 0 in the code and is not modelled; nor is a HeadObject without a content length.
- PoolFigures.NestedReportsNestedSlots: about reports that nest; those of the S3 backend's counting transport need not, since retries recount wire bytes.
- SyncRuns.SyncItem: a worker's view of one item; cancellation, dry-run and verify-only are in the pool's model.
- SFTP in the equivalence of bulk listing and per-item query: its walk keeps regular files only while its Stat follows links.
- PoolSync.DoneMeansSynced: not about dry runs, which report Done for files they do not put; the files of a run change only through its own Puts.
- Links, directories in a file's place, permissions, and other writers to the same file or key during its Put.
- PoolStreams.LiveBytesBounded: needs a backend that reports no more than the file holds, and one consumer; for one given scan on the bulk path only a sufficient condition for an overrun is stated.
- PauseGate.ResumeReleasesAll: assumes that no key is pressed while the waiters leave.
- PauseGate.CancelReleasesIff: about cancelling while no call of set is under way, as Update does, and no key pressed afterwards.
- WebHub.Server.Publish: contract for an undisturbed call; interleaved with browsers it is the Store, Lock, Notify and Unlock steps.
- A second publisher, HTTP handlers, tokens, QR codes, the tunnel and its installer.
- UiModel.Model.HandleStatus: clock fields, file durations, error texts and the smoothed per-worker rate are not modelled.
- SpeedWindow.SpeedMeter.SampleSpeed: exact reals and integer milliseconds in place of floating point and nanoseconds.
- Format.BufferBar: exact division in place of floating point.
- Local and SFTP Scan, relPath, formatNumber, rendering, key navigation, configuration, s3diag, speedtest and the demo backend.
