# knFileCatcher: a verified model

knFileCatcher is a Windows minifilter that notices when programs under certain directories change
files, and a user-mode worker that copies those files into a session directory.  This project
models the parts of it whose correctness rests on more than one function, and proves what they keep.

| files | subject |
|---|---|
| `QueueModel`, `QueueInvariant`, `QueueTheorems`, `QueueContents`, `QueueVerdicts`, `QueueHang` | the bounded backup queue: any number of callers and workers, one atomic step at a time, with its teardown |
| `ExitDefer`, `ExitDeferVerdicts` | the single-thread list that defers process-exit messages, and its stop handshake |
| `TrackModel`, `Snapshot`, `SnapshotBound`, `TrackTable` | the process tracker: the map it stands for, the boot snapshot as a fixpoint and the passes it needs, the hash table and loops that carry both out |
| `HandleModel`, `HandleResources`, `HandleInvariant`, `HandleTheorems`, `HandleEffects`, `HandleCauses`, `HandleOpening`, `HandleFollowThrough`, `HandleOutcomes`, `HandleTraces`, `HandleContext` | a file handle from create to close: flag bits, delete state, names, captures, references and pool memory |
| `WatchRoots`, `ExcludeList`, `SelfExcludes` | the path lists of the driver and the guards the user interface keeps in them |
| `Redelivery`, `MirrorDestination`, `FeedbackGuard`, `Manifest`, `JsonReader` | the worker: redelivered messages, destinations, the backup loop, the journal |
| `Options`, `WideText`, `Tally`, `Numerals` | optional values, UTF-16 text, counting over maps, decimal numerals |

How the pieces are modelled:

- **Concurrent parts** (queue, deferred exits, handle callbacks) are step machines.  One action is one
  Interlocked operation, one event operation, one read of a shared flag, one locked region or one
  reference taken or dropped.  `Run` applies any sequence of actions, so a lemma about `Reachable`
  states is about every interleaving.  A datatype of program counters says where each thread stands.
- **Sequential parts** keep the form of the source: classes with arrays and fields changed in place,
  and loops.  Each method is proved against a function, and lemmas say what that function achieves.
- What the kernel decides (allocation, name queries, the reader's reply, IRQL, the process list, the
  system's case table) comes with the action or as a parameter and is arbitrary.
- Fields called history (`place`, `issued`, `frees`, `ops`, `renames`, `attempts`, `synced`) record what
  happened so that a lemma can speak about it; no step reads them to decide anything.

Where the code departs from its documentation the model follows the code:

- `README.md:296` of the repository says that disposition-only deletes are not captured synchronously.
  They are (`HandleTraces.DeleteOnlyHandleIsSynced`), and a delete-on-close handle need not be
  (`HandleTraces.CreateTimeDeleteCanBePosted`); `HandleOutcomes.DeleteIsSyncExactlyUnlessWithdrawn` says when.
- `README.md:299` promises that a second backup of one path overwrites nothing.  It overwrites the first one when the
  name ends in a dot or a space (`MirrorDestination.SecondBackupIsLostExactlyWhenLoose`), and another source's when
  that source is named like the retained file (`MirrorDestination.ClashOverwrites`).
- `README.md:306` calls the redelivery filter least-recently-used; it is first-in first-out.
- `README.md:230` says that the snapshot iterates until stable; it stops after 32 child passes, and can
  miss a deeper chain (`Snapshot.DeepChainIsMissed`); `SnapshotBound.PassBoundIsTight` says for which lists.
- The comment at `src/knFcFlt/knFcQueue.cpp:110-113` counts on a deterministic join of a half-started worker; with
  two or more workers that join and the one of teardown can wait for ever (`QueueHang.HangsExactlyWithSeveralWorkers`).

## Model

| member | source | states |
|---|---|---|
| QueueTheorems.NoLostWakeup | src/knFcFlt/knFcQueue.cpp:255-259 | whenever the list is not empty and a worker waits, that worker can go on or a caller is about to set the event; so workers never all sleep over work |
| QueueTheorems.CapHolds | src/knFcFlt/knFcQueue.cpp:223-257 | Depth is exactly list length plus reservations not yet inserted or undone plus removals not yet counted, never negative, and list plus admitted reservations never exceed 16384 |
| QueueTheorems.OvershootIsRefused | src/knFcFlt/knFcQueue.cpp:223-230 | Depth exceeds the cap only by callers about to take their increment back and one removal being counted |
| QueueTheorems.ItemsAreConserved | src/knFcFlt/knFcQueue.cpp:255-391 | items inserted equal items listed, in workers' hands, in the drain's hand, sent, failed, excluded and discarded, at every step |
| QueueTheorems.InsertedItems | src/knFcFlt/knFcQueue.cpp:244-257 | every async id names exactly one item, which is either inserted or still in the hand of the call it was issued to |
| QueueTheorems.RefusedExactlyWhenDropped | src/knFcFlt/knFcQueue.cpp:223-242 | every enqueue that is over, the fallback of a synchronous send included, was refused with INSUFFICIENT_RESOURCES if and only if it bumped Dropped, and Dropped counts those calls |
| QueueTheorems.IdsAreDistinct | src/knFcFlt/knFcQueue.cpp:245-245 | no two requests share an id, whether queued or sent synchronously, including the id of a fallback |
| QueueTheorems.TeardownIsClean | src/knFcFlt/knFcQueue.cpp:137-187 | when teardown returns, even after a partly failed start, list empty, Depth 0, nobody inside, all workers gone and every item freed exactly once |
| QueueTheorems.NoDoubleFree | src/knFcFlt/knFcQueue.cpp:377-391 | no item is ever freed twice, at any step |
| QueueTheorems.LateCallsAreTurnedAway | src/knFcFlt/knFcQueue.cpp:206-221 | after teardown every call that enters, whether it began before or after, returns DEVICE_NOT_READY (a new one without a path INVALID_PARAMETER), and the queue never changes again |
| QueueContents.RequestsArriveUnchanged | src/knFcFlt/knFcQueue.cpp:244-253 | what a worker sends under an id is the request of the call that id was issued to |
| QueueContents.FirstInFirstOut | src/knFcFlt/knFcQueue.cpp:164-182 | in every interleaving the insertions are the removals, by workers and drain together, followed by what is listed, in one order |
| QueueContents.RepliesAreCounted | src/knFcFlt/knFcQueue.cpp:278-336 | over any run Sent is the number of items the reader acknowledged with status 0, SendFailed that of the other items not excluded, SyncSent that of acknowledged synchronous requests, SyncFailed that of the others and of those without memory |
| QueueContents.SyncIsAnsweredOrQueued | src/knFcFlt/knFcQueue.cpp:466-486 | a synchronous call that was sent and has returned was acknowledged, or went through the queue as well, where it became an item with an id of its own unless it was refused |
| QueueVerdicts.EnqueueEndsAsMet | src/knFcFlt/knFcQueue.cpp:206-264 | over any run, from what each enqueue met: INSUFFICIENT_RESOURCES if and only if Depth was at the cap when it counted itself in or its allocation failed, DEVICE_NOT_READY if and only if it saw the closed rundown or Stop, and otherwise success with its own request inserted |
| QueueVerdicts.CallEndsAsMet | src/knFcFlt/knFcQueue.cpp:399-496 | a call returns what its enqueue, its synchronous send or its fallback met, and one without a path is invalid and inserts nothing |
| QueueVerdicts.CallsAreTheirs | src/knFcFlt/knFcQueue.cpp:190-205 | every call carries the kind and the request it was begun with |
| QueueVerdicts.CallsEnd | src/knFcFlt/knFcQueue.cpp:190-264 | a call that has not returned can go on unless it waits for the lock, and every step lowers a rank |
| QueueVerdicts.DisposalsAreCounted | src/knFcFlt/knFcQueue.cpp:278-391 | over any run the items that were not sent are exactly those found excluded, those in hand when Stop was set, and those the drain found: none is dropped while the queue runs |
| QueueVerdicts.WorkersStayUntilStop | src/knFcFlt/knFcQueue.cpp:343-396 | no worker leaves before Stop |
| QueueVerdicts.TeardownCanReturn | src/knFcFlt/knFcQueue.cpp:137-187 | for every pool size some interleaving brings the teardown to its end |
| QueueInvariant.RunInv | src/knFcFlt/knFcQueue.cpp:189-496 | the inductive invariant tying counter, list, lock, event, rundown and program counters holds after every interleaving |
| QueueHang.HungForEver | src/knFcFlt/knFcQueue.cpp:110-160 | a join, in teardown or after a half-failed start, that waits for a worker waiting on a clear event stays there in every continuation |
| QueueHang.SingleWorkerNeverHangs | src/knFcFlt/knFcQueue.cpp:142-160 | with at most one worker no interleaving reaches such a state |
| QueueHang.MissedStopSignal | src/knFcFlt/knFcQueue.cpp:353-373 | with two or more workers a reachable teardown hangs: the stop signal is cleared before the second worker waits |
| QueueHang.MissedStartSignal | src/knFcFlt/knFcQueue.cpp:108-121 | so does the join of a half-started second worker |
| QueueHang.HangsExactlyWithSeveralWorkers | src/knFcFlt/knFcQueue.cpp:101-160 | either join can hang if and only if the pool has at least two workers |
| QueueHang.DriverPoolCanHang | src/knFcFlt/knFcQueue.cpp:85-85 | the pool of four that the driver starts is of that kind |
| ExitDefer.RunInv | src/knFcFlt/knFcTrack.cpp:118-290 | flags, order, ownership and wake-up invariant of the deferred-exit machine in every interleaving |
| ExitDefer.PushesInInsertionOrder | src/knFcFlt/knFcTrack.cpp:245-290 | push attempts are a prefix of insertions in order, and all of them once the list is drained before the stop |
| ExitDefer.StopFreesEverything | src/knFcFlt/knFcTrack.cpp:201-240 | after the stop returns the list is empty, the worker gone, and every entry freed exactly once |
| ExitDefer.ClosedDoorStaysClosed | src/knFcFlt/knFcTrack.cpp:139-151 | in every continuation after the flags are set no entry is inserted |
| ExitDefer.WorkerNeverBlocks | src/knFcFlt/knFcTrack.cpp:201-240 | once the stop is signalled the worker can always take a step: it is never at its wait with the event clear |
| ExitDefer.MeasureStep | src/knFcFlt/knFcTrack.cpp:245-290 | after the signal, each worker step lowers a measure on list length and program counter and no other step raises it |
| ExitDefer.WorkerExits | src/knFcFlt/knFcTrack.cpp:201-290 | hence the worker takes a bounded number of further steps and the join returns |
| ExitDeferVerdicts.EntriesAreTheirs | src/knFcFlt/knFcTrack.cpp:118-153 | over any run every entry inserted, taken, attempted or drained carries the event of the producer that allocated it, and different entries belong to different producers |
| ExitDeferVerdicts.EventIsInsertedUnlessMet | src/knFcFlt/knFcTrack.cpp:118-153 | a finished producer inserted its event if and only if it met neither a stopped machine nor a failed allocation |
| ExitDeferVerdicts.ProducersEnd | src/knFcFlt/knFcTrack.cpp:118-153 | a producer can go on unless it waits for the lock, and every step lowers a rank |
| ExitDeferVerdicts.StopReturns | src/knFcFlt/knFcTrack.cpp:201-240 | once the worker has left the stop can always go on, and lowers a measure to its end |
| TrackModel.LineageHolds | src/knFcFlt/knFcTrack.cpp:594-656 | in every run each live entry is a ROOT with its own pid as root or a CHILD whose root was classified ROOT in the same run |
| TrackModel.EntryIsFromAdmission | src/knFcFlt/knFcTrack.cpp:594-711 | over any run every live entry is untouched since its admission: pid, parent, image and snapshot mark are those announced, and it is a ROOT of its own if its image was under a watch root then, otherwise a CHILD with the root its parent had then |
| TrackModel.TrackedExactlyByAdmission | src/knFcFlt/knFcTrack.cpp:594-711 | over any run a process is tracked if and only if some creation let it in (tracking active, memory, an image under a root or a tracked parent) and it has neither exited nor tracking stopped since |
| TrackModel.ActiveExactlySinceStart | src/knFcFlt/knFcTrack.cpp:919-975 | over any run tracking is active if and only if it was started and not stopped since |
| TrackModel.RootsAreTheAdded | src/knFcFlt/knFcConfig.cpp:47-116 | over any run the watch roots are the paths added, of allowed length, with memory and room, since the list was last cleared |
| Snapshot.LinksAreTheList | src/knFcFlt/knFcTrack.cpp:780-839 | the parent links represent the process list |
| Snapshot.SnapshotIsSound | src/knFcFlt/knFcTrack.cpp:842-916 | whatever fails to allocate, nothing outside the closure is tracked, and what is tracked has its nearest root |
| Snapshot.SnapshotReachesDistance | src/knFcFlt/knFcTrack.cpp:895-912 | after k child passes every process within k links of a root is tracked |
| Snapshot.ChangesAreInsertions | src/knFcFlt/knFcTrack.cpp:786-837 | with memory, a pass's change count is exactly the growth of the table |
| Snapshot.QuietPass | src/knFcFlt/knFcTrack.cpp:786-837 | a pass without changes leaves the table alone and had no candidate |
| Snapshot.StableForEver | src/knFcFlt/knFcTrack.cpp:902-911 | stopping at a quiet pass loses nothing that the remaining passes would have found |
| Snapshot.SnapshotIsClosureExactlyWhenStable | src/knFcFlt/knFcTrack.cpp:895-912 | with memory, a snapshot that one more pass would not change is the nearest-root closure, cyclic parent links included, and no other is; the condition on the list itself is SnapshotBound.SnapshotIsClosureExactlyWhenPrompt |
| Snapshot.ShallowSnapshotIsClosure | src/knFcFlt/knFcTrack.cpp:895-912 | it is the closure whenever every reachable process is within the pass bound |
| Snapshot.OrderDoesNotMatter | src/knFcFlt/knFcTrack.cpp:780-839 | two stable snapshots of one set of processes agree whatever the list order |
| Snapshot.SlowSnapshot | src/knFcFlt/knFcTrack.cpp:786-837 | on a list with children first, k passes reach exactly distance k |
| SnapshotBound.SnapshotIsOnTime | src/knFcFlt/knFcTrack.cpp:786-912 | for any list, after n child passes exactly the processes are tracked whose pass number, read off the list, is at most n |
| SnapshotBound.PassOfSettles | src/knFcFlt/knFcTrack.cpp:786-837 | the pass number exists exactly for the processes with a root above them, and looking as many links up as there are processes finds it |
| SnapshotBound.SnapshotIsClosureExactlyWhenPrompt | src/knFcFlt/knFcTrack.cpp:895-912 | for any list, n child passes give the closure if and only if every process with a root above it has a pass number of at most n |
| SnapshotBound.PassBoundIsTight | src/knFcFlt/knFcTrack.cpp:902-911 | so the driver's 32 passes miss something if and only if some pass number exceeds 32 |
| SnapshotBound.ParentsFirstTakesOnePass | src/knFcFlt/knFcTrack.cpp:786-837 | listed parents first, a forest of any depth takes a single child pass |
| SnapshotBound.ChildrenFirstBound | src/knFcFlt/knFcTrack.cpp:786-837 | listed children first, the pass number is the distance to the root |
| Snapshot.DeepChainIsMissed | src/knFcFlt/knFcTrack.cpp:902-911 | a concrete chain deeper than 32 loses its end |
| TrackTable.Table.Find | src/knFcFlt/knFcTrack.cpp:305-322 | the chain scan returns exactly the map's entry |
| TrackTable.Table.Insert | src/knFcFlt/knFcTrack.cpp:324-369 | the map gains the entry if memory allows and otherwise stays; chains keep one entry per pid in its own bucket |
| TrackTable.Table.MarkExited | src/knFcFlt/knFcTrack.cpp:679-726 | the map loses exactly that pid, and the departing entry is handed out marked EXITED |
| TrackTable.Table.PurgeAll | src/knFcFlt/knFcTrack.cpp:382-397 | the map is empty afterwards and the count 0 |
| TrackTable.Table.IsTracked | src/knFcFlt/knFcTrack.cpp:528-567 | answers the map while tracking is active and nothing for pid 0 or when inactive |
| TrackTable.Table.Dump | src/knFcFlt/knFcTrack.cpp:449-525 | min(size, max) rows of distinct tracked processes, each with its pid, parent, root, flags and the last 120 characters of its image; truncated if and only if size exceeds max, for a nonempty buffer |
| TrackTable.Table.DumpChain | src/knFcFlt/knFcTrack.cpp:479-520 | one chain adds its processes to the rows, or the buffer is full and a process is left over |
| TrackTable.Table.ClassifyAndInsert | src/knFcFlt/knFcTrack.cpp:572-656 | does to the map what Classify says; announces exactly the entry it adds |
| TrackTable.Table.ProcessNotify | src/knFcFlt/knFcTrack.cpp:729-775 | a notification does to the map what one event of TrackModel does |
| TrackTable.Table.SnapshotPass | src/knFcFlt/knFcTrack.cpp:780-839 | the in-place pass computes WholePass and its change count |
| TrackTable.Table.TakeSnapshot | src/knFcFlt/knFcTrack.cpp:895-912 | the loop with its early exit computes all 32 passes of Snapshot.After |
| TrackTable.Table.StopTracking | src/knFcFlt/knFcTrack.cpp:957-975 | tracking ends with an empty map |
| HandleInvariant.RunInv | src/knFcFlt/knFcCallbacks.cpp:119-867 | the two invariants of the handle machine hold after every interleaving of callbacks |
| HandleCauses.EveryFlagHasACause | src/knFcFlt/knFcCallbacks.cpp:34-77 | over any run a context belongs to a create that may change, replace or delete the file, CREATED and the create-time delete are that create's, and MODIFIED, RENAMED, any other delete bit and the observation each come from it or from a request of the right kind on that very handle, which succeeded |
| HandleCauses.RunTraced | src/knFcFlt/knFcCallbacks.cpp:226-562 | every executed operation and every one still pending in a callback was called for by the request that began it, and none is pending before that succeeded |
| HandleEffects.EffectsTakePlace | src/knFcFlt/knFcCallbacks.cpp:477-526 | once a callback is past its flag operations all of them have been executed, whatever interleaved, and MODIFIED, RENAMED and the observation show for as long as the context lives |
| HandleOpening.OpenIsFollowed | src/knFcFlt/knFcCallbacks.cpp:119-227 | a create that may change, replace or delete the file gets a context that says what was asked for and keeps the name found, and whatever interleaves its next step attaches it if and only if the filter manager agrees and the file has none |
| HandleOpening.OthersAreLeftAlone | src/knFcFlt/knFcCallbacks.cpp:119-165 | any other create changes nothing |
| HandleFollowThrough.SuccessLeavesItsMark | src/knFcFlt/knFcCallbacks.cpp:256-562 | whatever interleaves, an operation that succeeded shows once its callback is over: a write, resize, rename or writable section as MODIFIED, a rename as RENAMED, a disposition as observed |
| HandleFollowThrough.CalledIsExecuted | src/knFcFlt/knFcCallbacks.cpp:444-526 | every flag operation such a request calls for, by its kind and the create-time bit, has been executed |
| HandleFollowThrough.WhatWasWrittenIsCaptured | src/knFcFlt/knFcCallbacks.cpp:256-867 | so a handle so changed, then cleaned up with everything granted, is captured unless it was backed up before |
| HandleFollowThrough.RenameIsCaptured | src/knFcFlt/knFcCallbacks.cpp:407-441 | after a successful rename the name the file system answered, asked at a safe level and with memory, is among the captured names |
| HandleFollowThrough.CallbacksEnd | src/knFcFlt/knFcCallbacks.cpp:229-867 | a callback that is not over can always go on, and every step lowers a rank |
| HandleTheorems.DeleteBitIsLastChange | src/knFcFlt/knFcCallbacks.cpp:482-496 | the delete bit equals the last executed set or clear, or the create-time value if there was none |
| HandleTheorems.DeleteBitHasACause | src/knFcFlt/knFcCallbacks.cpp:482-496 | a create-time delete bit is never lost and implies MODIFIED; any other delete bit implies an observed disposition request |
| HandleTheorems.BitsAreSticky | src/knFcFlt/knFcCallbacks.cpp:477-500 | in every continuation WRITE_INTENT, MODIFIED, RENAMED, CREATED, BACKED_UP and the observation are kept, and a create-time delete stays |
| HandleOutcomes.ModifiedHandleIsCaptured | src/knFcFlt/knFcCallbacks.cpp:695-867 | a cleanup begun on a modified handle makes exactly one capture attempt, under flags that say MODIFIED, unless the handle was backed up when it began or an answer the kernel gave to it excludes it, lacks memory or a name, or drains it; with none of these it is captured, whatever interleaves |
| HandleOutcomes.CleanupEndsAsJudged | src/knFcFlt/knFcCallbacks.cpp:695-867 | every finished cleanup, modified or not: already backed up if and only if the handle was; untouched only without MODIFIED, delete bit and earlier observation; otherwise, with a name, excluded exactly on an excluding answer at passive level, synchronous or elevated by IRQL exactly when the delete state (the file's word after an observed request, else the bit read) says delete, posted, out of memory or drained exactly when it does not and MODIFIED was read, and nothing left exactly when neither |
| HandleOutcomes.BitsReadAre | src/knFcFlt/knFcCallbacks.cpp:720-735 | the bits a cleanup reads keep the MODIFIED and create-time delete the handle had when it began |
| HandleOutcomes.PendingDeletionIsCaptured | src/knFcFlt/knFcCallbacks.cpp:784-801 | after an observed request, a passive cleanup that is granted everything on a file about to be deleted captures it synchronously, modified or not and whatever its size |
| HandleOutcomes.NamesAreTried | src/knFcFlt/knFcCallbacks.cpp:567-641 | the name reported is the last captured one if it could be copied, else the live one answered, else the original; there is none only without all three |
| HandleTheorems.CaptureIsJustified | src/knFcFlt/knFcCallbacks.cpp:784-834 | an attempt is unique, has a cause in its flags, carries the final name, and is synchronous, elevated or posted as its delete flag and the IRQL demand |
| HandleTheorems.CopiedNameIsLastRename | src/knFcFlt/knFcCallbacks.cpp:590-615 | the name a cleanup copies is that of the last rename captured on the handle; it asks the file system only without one or without memory |
| HandleTheorems.SyncCaptureOnce | src/knFcFlt/knFcCallbacks.cpp:725-801 | at most one cleanup of a handle captures it synchronously |
| HandleTheorems.BackedUpMeansSynced | src/knFcFlt/knFcCallbacks.cpp:800-800 | BACKED_UP is set only after a synchronous capture of that handle |
| HandleOutcomes.DeleteIsSyncExactlyUnlessWithdrawn | src/knFcFlt/knFcCallbacks.cpp:751-867 | a finished passive cleanup of a create-time delete handle, not backed up before and with a name, was synchronous if and only if it was neither excluded nor, with a disposition request observed, contradicted by the file, and posted, out of memory or drained otherwise; a request seen before the cleanup counts as observed |
| HandleOutcomes.FileDecides | src/knFcFlt/knFcCallbacks.cpp:756-834 | with all else granted, a file that stays to be deleted makes it synchronous; one that withdraws the deletion makes it posted after a request observed before the cleanup, and synchronous if none is observed up to its end |
| HandleOutcomes.RunReads | src/knFcFlt/knFcCallbacks.cpp:725-730 | a cleanup ends as already backed up if and only if the handle was when it began |
| HandleOutcomes.RunExcuses | src/knFcFlt/knFcCallbacks.cpp:746-864 | a cleanup that ends excluded, out of memory, drained or nameless was given an answer of that kind |
| HandleTraces.CreateTimeDeleteCanBePosted | src/knFcFlt/knFcCallbacks.cpp:756-782 | a run in which a delete-on-close handle is not captured synchronously |
| HandleTraces.DeleteOnlyHandleIsSynced | src/knFcFlt/knFcCallbacks.cpp:784-801 | a run in which an unmodified handle is captured synchronously because of a disposition alone |
| HandleResources.RunBalanced | src/knFcFlt/knFcCallbacks.cpp:181-526 | the balance of references and blocks holds after every interleaving, on every failure, draining and elevated path |
| HandleResources.ReferencesAreAccountedFor | src/knFcFlt/knFcCallbacks.cpp:211-280 | a context's reference count is its attached handles plus the callbacks that have yet to release it, deferred renames included |
| HandleResources.NoUseAfterFree | src/knFcFlt/knFcCallbacks.cpp:384-441 | a callback that holds a reference finds its context alive and its blocks allocated |
| HandleResources.LiveBlocks | src/knFcFlt/knFcCallbacks.cpp:393-464 | the allocated blocks are exactly the names of live contexts and what callbacks carry; none is freed twice |
| HandleResources.NothingLeaks | src/knFcFlt/knFcContexts.cpp:14-39 | when all callbacks are done and all handles closed no context is left and every block was freed exactly once |
| HandleContext.Shc.SetOriginalName | src/knFcFlt/knFcCallbacks.cpp:79-94 | sets the name or leaves it empty, and touches no block it does not own |
| HandleContext.Shc.SetCurrentName | src/knFcFlt/knFcContexts.cpp:41-80 | the new name replaces the old one whose block is freed, no name clears, and without memory the old one stays |
| HandleContext.MachineSetsCurrentName | src/knFcFlt/knFcContexts.cpp:53-79 | the rename steps of the handle machine do the same to the name and to the pool |
| HandleContext.Shc.Cleanup | src/knFcFlt/knFcContexts.cpp:13-39 | exactly the blocks of the context leave the pool |
| HandleContext.Shc.ResolveFinalName | src/knFcFlt/knFcCallbacks.cpp:566-641 | the captured name if it could be copied, else a live one that is not empty, else the original; the only new block is the copy, and the name is the one the handle machine reports |
| WatchRoots.BoundaryMatchIsCovers | src/knFcFlt/knFcConfig.cpp:139-182 | prefix plus boundary test is case-folded, component-wise ancestor-or-self, and strict descent for a root ending in a backslash |
| WatchRoots.SiblingIsNotCovered | src/knFcFlt/knFcConfig.cpp:150-175 | a sibling whose name continues the root's last component is not matched |
| WatchRoots.StrictPrefix | src/knFcFlt/knFcConfig.cpp:150-175 | the component view of a root that ends in a backslash |
| WatchRoots.RootList.AddRoot | src/knFcFlt/knFcConfig.cpp:47-98 | appends the root or returns the status of the first test that fails and changes nothing |
| WatchRoots.RootList.ClearRoots | src/knFcFlt/knFcConfig.cpp:101-116 | the list is empty afterwards |
| WatchRoots.RootList.PathStartsWithAnyRoot | src/knFcFlt/knFcConfig.cpp:126-185 | the scan answers whether some root covers the path |
| ExcludeList.SuffixCiIsEndsFolded | src/knFcFlt/knFcExclude.cpp:138-154 | the byte arithmetic of the suffix test is case-folded ends-with |
| ExcludeList.SubstringCi | src/knFcFlt/knFcExclude.cpp:157-183 | the USHORT byte loop is case-folded containment and its index never wraps, lengths being even and the pattern not empty |
| ExcludeList.Patterns.Add | src/knFcFlt/knFcExclude.cpp:54-104 | appends the pattern or reports empty, too long, no memory or full, in that order, unchanged |
| ExcludeList.Patterns.Clear | src/knFcFlt/knFcExclude.cpp:107-120 | the list is empty afterwards |
| ExcludeList.Patterns.Matches | src/knFcFlt/knFcExclude.cpp:186-221 | true if and only if some dot pattern is a suffix or some other pattern a substring; the matched counter counts exactly those |
| ExcludeList.Patterns.HandleAddExclude | src/knFcFlt/knFcComm.cpp:432-475 | length validation admits only even, bounded, contained lengths, a fault while the header or the text is read ends the request with its own status, and what is left adds exactly that pattern |
| SelfExcludes.GuardsRegisterExactlyWhenRoom | src/knFcUxWpf/MainViewModel.cs:89-107 | both guards get in if and only if both messages reach the driver, which finds memory, and two places are free; an exception in the first skips the second |
| SelfExcludes.CommandKeepsGuards | src/knFcUxWpf/MainViewModel.cs:345-408 | one exclude command, however it ends, keeps both guards if it clears nothing or its two re-registration messages get through |
| SelfExcludes.ClearKeepsGuardsExactlyWhenSent | src/knFcUxWpf/MainViewModel.cs:363-376 | clearing keeps both guards if and only if both messages get through, every failure being swallowed |
| SelfExcludes.RemoveKeepsGuardsExactlyWhenSentOrPutBack | src/knFcUxWpf/MainViewModel.cs:381-408 | removing a pattern keeps the guards if and only if each gets through at its registration or is put back from the user's own list |
| SelfExcludes.WithoutFirstDropsOne | src/knFcUxWpf/MainViewModel.cs:381-408 | the first occurrence of the removed pattern goes, all others stay in order |
| SelfExcludes.GuardsSurvive | src/knFcUxWpf/MainViewModel.cs:345-408 | every sequence of such commands keeps them |
| SelfExcludes.ViewModel.AddExclude | src/knFcUxWpf/DriverClient.cs:58-88 | code 0 if and only if the message reached the driver and the list gained the pattern; an error code or an exception otherwise, the list unchanged |
| SelfExcludes.ViewModel.RegisterSelfExcludes | src/knFcUxWpf/MainViewModel.cs:89-107 | does Register to the driver list, leaving at an exception |
| SelfExcludes.ViewModel.EnsureSession | src/knFcUxWpf/MainViewModel.cs:165-201 | guards are registered exactly when a session opens, before it counts as open |
| SelfExcludes.ViewModel.InvokeAddExclude | src/knFcUxWpf/MainViewModel.cs:345-361 | does the add command to both lists |
| SelfExcludes.ViewModel.InvokeClearExcludes | src/knFcUxWpf/MainViewModel.cs:363-376 | does the clear command to both lists |
| SelfExcludes.ViewModel.InvokeRemoveExclude | src/knFcUxWpf/MainViewModel.cs:381-408 | the clear, re-register and re-add loop does the remove command to both lists, also when an exception ends it |
| Redelivery.ReacceptedOnlyAfterCapOthers | src/knFcUxWpf/BackupWorker.cs:83-104 | over any stream two acceptances of one id have at least 4096 others between them, and id 0 is never remembered |
| Redelivery.Accept | src/knFcUxWpf/BackupWorker.cs:96-102 | eviction keeps set and queue equal to the last 4096 acceptances |
| Redelivery.FreshExactly | src/knFcUxWpf/BackupWorker.cs:83-104 | an id is accepted if and only if it is 0 or differs from each of the last 4096 accepted |
| Redelivery.Filter.Remember | src/knFcUxWpf/BackupWorker.cs:83-104 | a nonzero id is rejected if and only if it is among the last 4096 accepted |
| MirrorDestination.SanitizeNt | src/knFcUxWpf/BackupWorker.cs:437-449 | the loop drops one leading backslash and escapes colons |
| MirrorDestination.SanitizedCollides | src/knFcUxWpf/BackupWorker.cs:442-447 | a source shares its sanitised name with another one if and only if it holds a colon or a dollar sign |
| MirrorDestination.FileOrigin | src/knFcUxWpf/BackupWorker.cs:383-407 | a file that exists in a session was there at its start or is the destination of an earlier request |
| MirrorDestination.DestinationMirrors | src/knFcUxWpf/BackupWorker.cs:383-397 | the destination is the escaped source below the session directory exactly when no file was there or made since under the probed name, and that name with .r and the id otherwise |
| MirrorDestination.RetainedNamesDiffer | src/knFcUxWpf/BackupWorker.cs:393-396 | the files opened under retained names with different ids differ, whatever the plain names |
| MirrorDestination.OverwritesExactlyWhenShadowedOrBlind | src/knFcUxWpf/BackupWorker.cs:383-405 | whatever the system makes of path strings, a request opens a file that exists in exactly two ways: retained, when its retained name is a plain name an earlier request created; not retained, when the existence test looked at another name than the one opened and that one is taken |
| MirrorDestination.BlindExactlyWhenLoose | src/knFcUxWpf/BackupWorker.cs:393-405 | if the system only drops dots and spaces at the end of a path, the test misjudges exactly the drive and share paths that end in one, since the long path keeps them |
| MirrorDestination.LiteralSpellsId | src/knFcUxWpf/BackupWorker.cs:451-464 | the file opened under a retained drive, share or verbatim path spells the request id at its end |
| MirrorDestination.SecondBackupIsLostExactlyWhenBlind | src/knFcUxWpf/BackupWorker.cs:393-405 | one source backed up twice to a literal destination loses the first backup if and only if the test misjudges that destination |
| MirrorDestination.SecondBackupIsLostExactlyWhenLoose | src/knFcUxWpf/BackupWorker.cs:383-405 | under a drive-absolute session directory that is if and only if the name ends in a dot or a space |
| MirrorDestination.TrailingDotIsLost | src/knFcUxWpf/BackupWorker.cs:393-405 | a concrete source ending in a dot whose first backup the second one truncates |
| MirrorDestination.NoSilentOverwrite | src/knFcUxWpf/BackupWorker.cs:383-407 | with distinct ids, no suffix clash, and no destination used twice that the test misjudges, every destination opened is fresh |
| MirrorDestination.ClashOverwrites | src/knFcUxWpf/BackupWorker.cs:393-405 | a family of three requests that overwrites a backup when there is one |
| MirrorDestination.Session.DoBackup | src/knFcUxWpf/BackupWorker.cs:360-435 | chooses Destination by the name probed, opens at most the file its long path denotes, and reports success only if that was created and copied |
| FeedbackGuard.StaysInSessionExactlyWhenUnrooted | src/knFcUxWpf/BackupWorker.cs:383-384 | a destination is under the session directory if and only if the sanitised source is not rooted |
| FeedbackGuard.GuardMatches | src/knFcUxWpf/MainViewModel.cs:114-130 | the kernel name of every file under the session directory contains the registered tail |
| FeedbackGuard.GuardSpellsRoot | src/knFcUxWpf/MainViewModel.cs:114-130 | behind its drive prefix the registered tail is the root itself, with one backslash added when it lacks one |
| FeedbackGuard.GuardHitsExactlyBelow | src/knFcUxWpf/MainViewModel.cs:114-130 | the tail hits a path if and only if the path continues somewhere, case folded, with the root's text and a component ends there |
| FeedbackGuard.GuardsExcludeExactly | src/knFcUxWpf/MainViewModel.cs:83-107 | both guards together exclude journals and what lies below the root, and nothing else |
| FeedbackGuard.SiblingIsNotBelow | src/knFcUxWpf/MainViewModel.cs:110-113 | a name that continues the root without a separator is no such occurrence |
| FeedbackGuard.SiblingIsBackedUp | src/knFcUxWpf/MainViewModel.cs:110-113 | the root C:\Backups does not exclude \Backups2\x on a volume |
| FeedbackGuard.BackupsAreNotInput | src/knFcUxWpf/BackupWorker.cs:383-405 | with the guard in the list, the file opened for every destination of a source with one leading backslash is excluded |
| FeedbackGuard.JournalIsNotInput | src/knFcUxWpf/MainViewModel.cs:178-201 | so is the journal |
| Manifest.JsonEscape | src/knFcUxWpf/ManifestWriter.cs:72-98 | the loop computes Escape |
| Manifest.UnescapeInvertsEscape | src/knFcUxWpf/ManifestWriter.cs:72-98 | reading an escaped string by section 7 of RFC 8259 returns the original text, for every text |
| Manifest.EscapeHasNoNewline | src/knFcUxWpf/ManifestWriter.cs:75-96 | escaped text holds no newline |
| Manifest.ReadObjectOf | src/knFcUxWpf/ManifestWriter.cs:40-51 | a written object reads back as its entry, every field |
| Manifest.ObjectHasNoNewline | src/knFcUxWpf/ManifestWriter.cs:40-52 | the only newline of a line is its last character |
| JsonReader.ObjectMembers | src/knFcUxWpf/ManifestWriter.cs:40-51 | a JSON reader that knows no field names reads a line as the members id, ts, pid, root_pid, flags, size_hint, src, dest and status, in that order, with the entry's values |
| Manifest.JournalRoundTrip | src/knFcUxWpf/ManifestWriter.cs:36-61 | splitting a journal at newlines and reading the lines gives back exactly the entries written |
| Manifest.JournalSnoc | src/knFcUxWpf/ManifestWriter.cs:54-60 | appending a line is appending an entry |
| Manifest.Line | src/knFcUxWpf/ManifestWriter.cs:40-52 | the string builder produces the line of the entry |
| Manifest.Writer.WriteEntry | src/knFcUxWpf/ManifestWriter.cs:36-61 | the stream stays the journal of the entries written; a closed stream takes nothing |
| Manifest.Writer.Dispose | src/knFcUxWpf/ManifestWriter.cs:63-70 | the stream is closed |
| Numerals.DecimalInjective | src/knFcUxWpf/BackupWorker.cs:395-395 | decimal printing of ids is injective |

## Left out

- Liveness of queue teardown under a scheduler: false as written for two or more workers, so teardown is partial correctness, with the exact condition in `QueueHang`.
- The linked lists and buckets as memory: chains and queues are sequences, so a wrong link inside one list is not visible to the model; order, membership and ownership are.
- The step machines are functions on states rather than code that updates globals, because their point is the interleavings.
- The order of the request list against the request ids: ids are taken outside the lock, so none is promised.
- Failure to start the deferred-exit thread, and the order of CREATED against EXITED messages.
- 32-bit and 64-bit wrap of counters and ids: they are mathematical integers.
- The length test on the message in knFcQueueSendOne (lines 287-291) can never be true and is not a branch of the model.
- Exit events during the boot snapshot: the snapshot works on a fixed list, so "tracked" is not claimed to mean "alive".
- Overlapping cleanups of one handle: BACKED_UP is read and set in two steps, and the model relies on cleanups of a handle following each other.
- References to file name information (FltGetFileNameInformation and its release): each is released on the one path it is taken on.
- The early exits of create (kernel caller, failure, reparse, untracked process): a create of the model has passed them.
- An unexpected exception while a disposition buffer is read: it leaves the driver.
- HandleOutcomes.ModifiedHandleIsCaptured: says that the attempt is made, not that the queue or the reader accepts it; the queue's own answer is in `QueueTheorems`.
- SelfExcludes.GuardsSurvive: needs the guards' own messages to get through on each clear or remove; without that they can be lost, as `SelfExcludes.ClearKeepsGuardsExactlyWhenSent` says.
- Exceptions in the window code other than those of the exclude messages.
- MirrorDestination.NoSilentOverwrite: what the system makes of a path without the verbatim prefix is a parameter; two names of one file (short names, links) are not modelled, and for destinations that are neither drive, share nor verbatim paths it needs that the opened retained name spells its id.
- Redelivery.Filter.Remember: one reader thread, as in the source.
- The byte copy, UTF-8 encoding, time stamps as text without escapes, and opening the journal on an existing file.
- The system's case table: a parameter, of which only the caselessness of separators and digits is used.
- Trimming of typed patterns, the sessions list, process-tree display, windows, timers, installer, services, marshalling and statistics replies.
