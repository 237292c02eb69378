# poll-dancer: a model of the event loop and its proofs

poll-dancer is an event loop library in C with three backends: epoll, kqueue and Windows I/O completion
ports (IOCP).  This project models the parts of it where several actors, or the library and the kernel,
must agree about memory and descriptors, and proves what they keep over every run.

Each protocol is given twice.  The steps that the C code takes are functions from state to state, over
which the properties are proved; and the C functions themselves, which update fields, arrays and buffers in
place, are methods of classes (`IocpLoop`, `Arrays`, `EpollLoop`, `KqueueLoop`, `KqueueTimerLoop`, `WakeLoop`)
proved to take exactly those steps.

## What is modelled

**IOCP** (`IocpPort`, `IocpWatcher`, `IocpSafety`, `IocpTimer`, `Iocp`, `IocpResults`, `IocpDrain`,
`IocpReads`, `IocpReading`, `IocpWrites`, `IocpStops`, `IocpRules`, `IocpTimerHistory`, `IocpLoop`).  The loop
thread, application threads, the Windows timer thread and the kernel share one completion port.
`IocpPort` is the port: the packets already dispatched, the batch that the loop has fetched and the queue,
in one posting order.  `IocpWatcher` is the memory: watchers, their platform data with the embedded
OVERLAPPED and the 4096-byte buffer, the reads that the kernel holds, and two fault flags that record any
access to memory that is not live.  `IocpSafety` and `IocpTimer` are the steps and the inductive invariants,
`Iocp` puts them on one port, and `IocpResults` says what follows for whole runs.  `IocpDrain` is about
the drain barrier.  `IocpReads` ties what a callback is told of a read, and the bytes it gets, to what the
kernel reported for that read; `IocpReading` is a small machine of a watcher's read, which the backend
implements; and `IocpWrites` is about writes that callers issue themselves.  `IocpStops` proves the rule for
stopping a watcher exact, and `IocpRules` holds the other rules for callers and runs that break them.
`IocpTimerHistory` follows the firings of timers to the user's callback.  `IocpLoop` shows that one call of
the C function is a run of moves of the protocol.

**Descriptor ownership** (`Growable`, `Arrays`, `Ownership`, `Epoll`, `EpollBatch`, `EpollLoop`,
`EpollWitness`, `Kqueue`, `KqueueLoop`, `KqueueWitness`, `Backends`).  Descriptor numbers are closed and
opened again for other files at any time; the kernel adds and deletes by number, while the registration records decide by watcher identity.
`Ownership` says who owns a number, once as a machine over a map and once as a condition on the history of
registrations, closes and unregistrations.  `Backends` proves that the epoll kernel set and the kqueue
filters both implement it.

**Timers** (`IocpTimer`, `EpollTimer`, `EpollTimerRuns`, `KqueueTimer`, `KqueueTimerFaults`,
`KqueueTimerHistory`, `KqueueTimerLoop`, `KqueueTimerWitness`): release exactly once, the order of deregistering
and closing, who is called back and when, and the kqueue timer with its two phases, either of which the
kernel may refuse.  An IOCP timer packet is dispatched in three steps, with other threads between them: the
loop reads the timer's platform data, then the flag in it, then calls back.

**Stopping and waking** (`Wake`, `WakeLoop`).  The stop flag and the async data are stored under the mutex,
the wait runs outside it, and a saturating eventfd counter carries the wake-up.  Any number of stops and
sends interleave with the loop thread at every point between its reads and writes; the read of the flag at
src/loop.c:202, which takes no mutex, may even miss a store.

## Assumptions about kernel and callers

They are the guards of the step predicates (`Enabled` in each module); without them the claims are false.

IOCP:
- Dispatch of one I/O completion, and each watcher operation, is one step.  Registration is one step: the code sets
  `pending_operation` (src/platform/iocp.c:680) and publishes platform data (src/platform/iocp.c:969) after
  the arm.  The test at tests/platform/test_iocp.cpp:463-467 concedes the finer race.
- The completion that CancelIoEx forces is queued before the sync packet that is posted after it.
- One loop thread.  In the steps a callback may stop or update its own watcher; what a callback does that
  destroys its own watcher is said apart (`IocpSafety.DestroyInCallbackIsSafeIff`).
- A watcher struct outlives the packets keyed by it.  Where a drain was consumed, or a stop released the
  platform data at once, this is proved instead (`IocpSafety.DestroyIsSafe`).
- In strict runs callers follow two rules.  They stop a watcher as `IocpSafety.MayStop` allows: with no write
  of their own outstanding (src/platform/iocp.c:373-376), except for some watchers without a callback or
  with an update that failed to re-issue its read.  And a READ callback issues no read by updating its own
  watcher.
- A timer is controlled by one thread at a time, and the waits for running timer callbacks return
  (src/platform/iocp.c:1151 and src/platform/iocp.c:1173).  In runs of the whole backend it is destroyed off
  the loop thread; what happens on the loop thread is said apart (`IocpTimer.DestroyOnLoopLeaks`).

epoll and kqueue:
- Closing a number ends the file's membership (no duplicated descriptors).  Watcher addresses are not reused.
- A watcher is registered on a number that no other watcher owns, and on epoll updated while its own file is
  open.  On kqueue the kernel takes all filters of a registration or none, and a mask stays as registered.
- kevent, called without room for error reports, stops at the first change that fails.
- The loop structures of these backends are used by one thread.
- A callback destroys no watcher that comes later in its batch; a kqueue timer with an event still in the
  batch is not destroyed; EV_ADDs of kqueue timers succeed.

Stopping and waking:
- One thread runs pd_loop_run, thread safety is enabled, and an eventfd is reported only while its counter is
  positive.

Where a guard is a condition that the code does not check, a theorem says exactly when the code goes wrong,
and a run from the freshly created loop shows it going wrong:

| condition | run |
|---|---|
| `IocpSafety.FreeingIsSafeIff` | `IocpRules.DestroyBeforeTheLoopRan`, `IocpRules.DestroyOnTheLoopThread`, `IocpRules.DestroyAfterTimeout` |
| `IocpSafety.DestroyInCallbackIsSafeIff` | `IocpRules.DestroyInCallbackRun` |
| `IocpRules.UpdateInReadCallbackIsSafeIff` | `IocpRules.UpdateInCallbackRun`, `IocpRules.UnmarkedReadRun` |
| `IocpStops.StopIsSafeIff` | `IocpRules.LateWriteCanFault`, `IocpRules.WriteOnlyCanFault` |
| `EpollBatch.BatchRunsEachEntryOnce` | `EpollWitness.DestroyInBatchRun` |
| `Epoll.CreateEffect`, `Epoll.StartEffect`, `Epoll.UpdateEffect` | `EpollWitness.SecondCreateRun`, `EpollWitness.StartOnTakenRun`, `EpollWitness.UpdateAfterRecyclingRun` |
| `Kqueue.CreateEffect`, `Kqueue.StartEffect`, `Kqueue.UpdateThenStop` | `KqueueWitness.PartialCreateRun`, `KqueueWitness.SecondCreateRun`, `KqueueWitness.PartialStartRun`, `KqueueWitness.UpdateRun` |
| `KqueueTimerFaults.FailedStart`, `KqueueTimerFaults.ArmedMeansLeftover`, `KqueueTimerFaults.FailedSecondPhase` | `KqueueTimerWitness.FailedRestartRun`, `KqueueTimerWitness.LostTimerRun` |
| `KqueueTimer.DestroyedInBatch`, `KqueueTimer.OneShotStaysArmed` | `KqueueTimerWitness.DestroyedInBatchRun`, `KqueueTimerWitness.OneShotRun` |
| `Wake.CheckHonoursStopsSinceEntry` | `Wake.EarlyStopIsErased` |

## Where code and documentation differ

The model follows the code.
- The comment at src/platform/iocp.c:458-461 lets a READ callback register a fresh read with an update; the
  re-arm at src/platform/iocp.c:489-534 does not look at the pending flag.  It clears the OVERLAPPED in use;
  then the kernel is handed it twice (`IocpRules.UpdateInReadCallbackArmsTwice`), or, if that second issue
  fails, the read in flight is unmarked and a stop frees its block (`IocpRules.UnmarkedReadRun`).  Either way
  read-buffer safety is lost, and by nothing else that such a callback does
  (`IocpRules.UpdateInReadCallbackIsSafeIff`).
- src/platform/iocp.c:1184-1221 tells a timer's destroyer to wait for a drain whatever thread it is on.  On the
  loop thread nobody is left to dispatch the record, so the wait times out and the timer leaks
  (`IocpTimer.DestroyOnLoopLeaks`).
- src/platform/iocp.c:862-863 calls the watcher struct free to go when the drain returns.  The result of the
  drain is ignored at src/platform/iocp.c:870, so it may have timed out; on the loop thread there is no drain;
  and there is none before the loop has run, although the comment at src/platform/iocp.c:98-99 takes a thread
  id of 0 for another thread than the caller's.  Freeing is then safe exactly when the watcher's read is
  over, which for a watcher with a callback and no failed update means that its platform data is NULL, and no
  write is outstanding (`IocpSafety.FreeingIsSafeIff`).
- docs/API.md:224-240 shows a callback that destroys its own watcher.  On IOCP the loop reads the struct again
  after the callback of a read (src/platform/iocp.c:485), so that it is then always freed memory
  (`IocpSafety.DestroyInCallbackIsSafeIff`).
- src/platform/iocp.c:792-795 means to retract the intent of an update's failed re-issue, but both failing
  paths have returned before (src/platform/iocp.c:766-768 and src/platform/iocp.c:786-788).  The block of a
  watcher torn down after that is never freed (`IocpDrain.DrainedDestroy`).
- src/platform/kqueue.c:711-712 and docs/PLATFORM.md:128-131 say that nothing queued outlives a kqueue timer;
  an event of the same batch does (`KqueueTimer.DestroyedInBatch`,
  `KqueueTimer.TouchedExactlyWhenDestroyedInBatch`).
- include/poll-dancer/poll-dancer.h:222 calls a timer without interval one-shot; src/platform/kqueue.c:645-649
  adds it without EV_ONESHOT (`KqueueTimer.OneShotStaysArmed`).
- src/watcher.c:161 overwrites the mask before kqueue_watcher_update compares against it, so a kqueue update
  never issues a change (`Kqueue.UpdateIssuesNothing`).
- src/platform/kqueue.c:490-501 ignores errors of the EV_DELETEs, but a failed first delete also skips the
  second (`Kqueue.UpdateThenStop`).

## Model

| member | source | states |
|---|---|---|
| IocpPort.MoveKeepsOrder | src/platform/iocp.c:275-297 | Posting, fetching and dispatching keep one posting order: only a post extends it and only a dispatch advances in it |
| IocpPort.RunKeepsOrder | src/platform/iocp.c:574-579 | Over any run the history only grows at its end, dispatch never goes back, and a sync record keeps the position it was posted at |
| IocpPort.DrainBarrier | src/platform/iocp.c:586-609 | When the sync record has been consumed, every packet that was in the batch or the queue when it was posted has been dispatched, for all batch sizes and other posters |
| IocpPort.DrainMeasure | src/platform/iocp.c:294-308 | The record's distance falls by one with each dispatch and by nothing else; the loop always has a fetch or a dispatch to do while it is pending |
| IocpWatcher.DrainOnceTakesFront | src/platform/iocp.c:876-893 | One drain call returns the first min(len, available) undrained bytes and leaves exactly the rest at the buffer's front |
| IocpWatcher.DrainReturnsPrefix | src/platform/iocp.c:876-893 | Any sequence of drain calls returns consecutive slices, in total the first min(sum of lengths, received) bytes, with the remainder at the front |
| IocpSafety.TakenIsLast | src/platform/iocp.c:342-350 | The read completion being dispatched is its watcher's only outstanding read, so the kernel is done with the OVERLAPPED |
| IocpSafety.StopKeepsGood | src/platform/iocp.c:801-874 | Unregistering frees the block only when no read is outstanding, and keeps every invariant of the watcher |
| IocpSafety.UpdateKeepsGood | src/platform/iocp.c:687-799 | An update never issues a read while one is outstanding, and keeps every invariant of the watcher, also when the re-issue fails |
| IocpSafety.ReadKeepsGood | src/platform/iocp.c:421-537 | Classifying, stashing, draining, the callback's own stop and the re-arm together keep every invariant of the watcher |
| IocpSafety.DropKeepsGood | src/platform/iocp.c:338-419 | The completions that dispatch drops (final one of a teardown, cancelled read, no callback, no platform data) leave the watcher consistent |
| IocpSafety.DispatchIsLocal | src/platform/iocp.c:336-537 | Dispatching a completion touches no other watcher's memory |
| IocpSafety.DestroyIsSafe | src/watcher.c:217-227 | After a consumed drain, or a stop that released the block at once, nothing refers to the watcher when its struct is freed, although unregister runs twice |
| IocpSafety.ReleaseEffect | src/platform/iocp.c:806-817 | The second unregister of a stopped watcher changes nothing: destroying it takes its struct only |
| IocpSafety.FreeingIsSafeIff | src/platform/iocp.c:868-871 | Freeing a stopped watcher's struct, whatever became of its drain, is safe exactly when no caller's write is outstanding and its read is over: platform data is NULL, or an update had failed to re-issue its read, or it has no callback and the completion of its only read has been dropped.  With a callback and no failed update: exactly when platform data is NULL |
| IocpSafety.StoppedIsUnreferencedIff | src/platform/iocp.c:843-871 | That is also exactly when nothing in kernel, batch or queue refers to the stopped watcher |
| IocpSafety.DestroyInCallbackIsSafeIff | src/platform/iocp.c:458-489 | A callback that destroys its own watcher: after a read always an access to freed memory; after a caller's write safe exactly when no read is in flight |
| IocpSafety.NextKeepsInv | src/platform/iocp.c:259-541 | Read-buffer safety is inductive: every step of loop, application threads and kernel keeps it |
| IocpTimer.DestroyFreesLast | src/platform/iocp.c:1184-1221 | A consumed drain frees a timer that no packet, queue entry or running callback names and that the loop is not in the middle of dispatching; a timed-out drain leaves it allocated |
| IocpTimer.NextKeepsInv | src/platform/iocp.c:986-1234 | Timer safety is inductive over all interleavings of timer thread, destroyer and loop, also when destroy begins between the loop's read of platform data, its read of the flag and the callback; with drains consumed or timed out |
| IocpTimer.DoomedNeverFires | src/platform/iocp.c:311-329 | Once destroy has set the flag, no step adds a call of the timer, unless the loop had already found the flag clear |
| IocpTimerHistory.CallsAreClearLooks | src/platform/iocp.c:311-329 | Over any run the calls of a timer are the packets of it that the loop looked into and found the flag clear, one each, and nothing else adds any |
| IocpTimerHistory.FiringsAreConserved | src/platform/iocp.c:986-1011 | No firing is lost or repeated: the entries of the timer queue's callback that found the timer alive are those on their way to the loop, those skipped because it was destroyed meanwhile, and those that called the user |
| IocpTimerHistory.LiveTimersAreNotSkipped | src/platform/iocp.c:311-329 | While a timer is not destroyed none is skipped: each firing whose packet was dispatched and looked into has called the user once |
| IocpTimerHistory.QueuedMeansStarted | src/platform/iocp.c:1085-1156 | A timer is in the timer queue exactly when it was started and since then neither stopped nor destroyed; and, between operations, it is active exactly then |
| IocpTimer.DestroyOnLoopLeaks | src/platform/iocp.c:1199-1221 | Over any run: once a timer's destroy has begun on the loop thread, its drain is never consumed and the timer is allocated for ever |
| Iocp.MoveKeepsInv | src/platform/iocp.c:259-541 | On the shared port, watcher moves, timer moves, fetches and wake-ups keep all invariants together |
| IocpResults.RunIsSafe | src/platform/iocp.c:259-541 | Every state of every run satisfies the combined invariant |
| IocpResults.ReadBufferSafety | src/platform/iocp.c:351-357 | In every reachable state each read held by the kernel, and each read completion in batch or queue, is in its watcher's live and published block marked pending; a watcher has at most one; nothing was freed twice or touched after its free |
| IocpResults.LoopNeverTouchesFreedMemory | src/platform/iocp.c:359-411 | Even with caller writes outstanding around a stop, loop and application threads touch only live blocks, and a published block belongs to its own watcher |
| IocpResults.StreamIntegrity | src/platform/iocp.c:430-456 | When each READ callback drains its read, the bytes returned over a run are the bytes the kernel delivered, in order, with nothing lost or repeated |
| IocpResults.TimerPacketsNameLiveTimers | src/platform/iocp.c:1204-1212 | Every timer packet in batch or queue, and the one being dispatched, names an allocated timer, consumed drains and timed-out ones alike; no thread ever touched a freed one |
| IocpResults.DestroyedTimerIsSilent | src/platform/iocp.c:314-326 | From the moment `destroyed` is set, the rest of the run calls the timer back only if the loop had found the flag clear before |
| IocpResults.HistoryGrows | src/platform/iocp.c:574-579 | Over any run of all actors packets are only added behind the others and dispatched in that order |
| IocpReads.ReportIsHeld | src/platform/iocp.c:351-357 | From the kernel's completion of a read until its dispatch, its block holds the status and the bytes that the kernel reported, whatever others do |
| IocpReads.ReadTellsItsReport | src/platform/iocp.c:407-462 | The dispatch of a read on a registered watcher with a callback: READ exactly when the kernel completed it with bytes, HANGUP without, ERROR when it failed, no call when it was cancelled; and READ's drain calls take the first of the delivered bytes, as many as they ask for |
| IocpReads.ReadsAreHeardOnce | src/platform/iocp.c:421-462 | Over any run the READ, HANGUP and ERROR callbacks of a watcher are as many as the dispatched reads of each kind, and none comes without an event |
| IocpReads.DrainedIsReceived | src/platform/iocp.c:430-456 | Over any run, whatever callbacks leave undrained, the bytes returned by drain calls are the first bytes of each read heard, as many as asked for, in order |
| IocpReading.ReadingFollows | src/platform/iocp.c:336-537 | The backend implements a machine with the states idle, in flight, wedged and gone: every create, update, stop and dispatch takes a watcher's read to exactly the state the machine says |
| IocpReading.InFlightMeansOutstanding | src/platform/iocp.c:827-841 | In flight means that the kernel holds a read or its completion is to be dispatched; gone, that platform data is NULL |
| IocpReading.ReadingNeverStalls | src/platform/iocp.c:485-534 | A watcher with a read in flight has one in flight again after every READ callback, unless it is stopped, its stream ends or fails, or the kernel refuses the next read |
| IocpDrain.DrainedDestroy | src/platform/iocp.c:843-871 | After a consumed drain off the loop thread nothing refers to the watcher, and its block has been freed, once, if and only if at the stop a completion was due that frees it: dispatch looks at it, and no update had failed to re-issue its read or a caller's write was outstanding |
| IocpDrain.DrainMakesProgress | src/platform/iocp.c:864-871 | A thread waiting for a drain is never the loop thread; the loop always has a move; every move of its dispatch loop brings the record strictly closer, and no move of anyone delays it |
| IocpDrain.SyncIsBarrier | src/platform/iocp.c:586-609 | On runs of all actors: once the record of a watcher's or a timer's drain is dispatched, so is everything that was posted before it |
| IocpDrain.DrainEnds | src/platform/iocp.c:294-308 | Once the loop has made as many moves as remained, the record has been consumed, whatever everyone else did |
| IocpRules.UpdateInReadCallbackIsSafeIff | src/platform/iocp.c:458-534 | The dispatch of a READ keeps read-buffer safety exactly when its callback does not issue a read by updating its own watcher, whether or not the re-arm after it succeeds |
| IocpRules.UnmarkedReadRun | src/platform/iocp.c:489-534 | A run in which such an update is followed by a re-arm that fails; every later move is by the rules, and the kernel writes into freed memory |
| IocpRules.UpdateInReadCallbackArmsTwice | src/platform/iocp.c:458-496 | The kernel holds one OVERLAPPED twice exactly when a READ callback re-armed by an update that was issued and the re-arm is issued too |
| IocpRules.UpdateInCallbackRun | src/platform/iocp.c:489-496 | A run up to a read completion whose callback, by such an update, makes the kernel hold it twice |
| IocpRules.DestroyInCallbackRun | src/platform/iocp.c:462-489 | A run up to a read completion whose callback destroys the watcher and makes the loop read freed memory |
| IocpRules.DestroyBeforeTheLoopRan | src/platform/iocp.c:868-871 | A run in which the loop never ran, so that no drain is made and the freed struct is dispatched |
| IocpRules.DestroyOnTheLoopThread | src/platform/iocp.c:864-867 | The same when the watcher is destroyed on the loop thread |
| IocpRules.DestroyAfterTimeout | src/platform/iocp.c:606-608 | The same after a drain that timed out |
| IocpWrites.WritesAreHeardOnce | src/platform/iocp.c:359-382 | Over any run the WRITE callbacks of a watcher are as many as the completions of callers' writes dispatched while it was registered with a callback: each raised one, and nothing else raised any |
| IocpWrites.WriteLeavesReads | src/platform/iocp.c:365-368 | Such a dispatch leaves the reads in flight and every block alone, up to what its callback does to its own watcher |
| IocpWrites.LateWriteStrandsRead | src/platform/iocp.c:342-357 | A caller's write completion leaves the kernel with a read in freed memory exactly when the watcher is stopping and its read is still with the kernel |
| IocpStops.StopIsSafeIff | src/platform/iocp.c:829-871 | Stopping any active watcher can lead to an access to freed memory, every later move being by the rules, if and only if the stop is not as `IocpSafety.MayStop` allows |
| IocpStops.StopAgainstTheRuleFaults | src/platform/iocp.c:829-871 | Builds that continuation from any such state, with or without a read in flight |
| IocpStops.RuleIsNoWrites | src/platform/iocp.c:373-376 | For a watcher with a callback whose updates never failed to re-issue a read, what is allowed is a stop with no caller's write outstanding |
| IocpWrites.StopUnderReadIsSafeIff | src/platform/iocp.c:373-376 | While the kernel holds the watcher's read: a stop can lead to a kernel write into freed memory, every later move being by the rules, if and only if a caller's write is outstanding |
| IocpWrites.StopWithWriteFaults | src/platform/iocp.c:373-376 | Builds the kernel's write into freed memory from any such state |
| IocpWrites.StopByTheRuleIsSafe | src/platform/iocp.c:373-376 | No continuation by the rules of a stop by the rule ever touches freed memory |
| IocpRules.LateWriteCanFault | src/platform/iocp.c:373-376 | A run from the start that stops a reading watcher with a write outstanding, and its fault |
| IocpRules.WriteOnlyCanFault | src/platform/iocp.c:836-841 | The same for a watcher that only writes |
| IocpLoop.ReadBuffer.DrainRead | src/platform/iocp.c:876-893 | The in-place drain copies out and shifts down exactly what the specification gives, and leaves the rest of the caller's buffer alone |
| IocpLoop.ReadBuffer.Drained | src/platform/iocp.c:876-893 | One such call, for any block whose bytes the buffer holds |
| IocpLoop.Loop.GetQueued | src/platform/iocp.c:273-291 | Fills the event array with the first packets of the queue, as many as fit |
| IocpLoop.Loop.Post | src/platform/iocp.c:552-557 | A posted packet goes to the end of the queue |
| IocpLoop.Loop.FreeData | src/platform/iocp.c:353-355 | Frees the block once and clears platform data; a second free is a fault |
| IocpLoop.Loop.ArmRead | src/platform/iocp.c:491-534 | The intent is published before the read is issued, and retracted only by the dispatcher |
| IocpLoop.Loop.CallBack | src/platform/iocp.c:462 | What a callback may do to its own watcher, as the step it is specified to be |
| IocpLoop.Loop.CompleteRead | src/platform/iocp.c:430-462 | A read completion up to the end of the callback's drain calls; only a READ drains |
| IocpLoop.Loop.DrainInCallback | src/platform/iocp.c:876-893 | The drain calls of one callback, made in place on the block's buffer, return and leave what the specification gives for the whole sequence |
| IocpLoop.Loop.DispatchByKey | src/platform/iocp.c:302-338 | The completion key selects the branch; sync and wake-up packets change nothing in memory |
| IocpLoop.Loop.DispatchEntry | src/platform/iocp.c:294-537 | One round of the loop is the protocol's moves for the head of the batch: one for an I/O completion, up to three for a timer packet |
| IocpLoop.Loop.DispatchIo | src/platform/iocp.c:336-537 | The branches of the loop body take the state to the one specified for an I/O completion |
| IocpLoop.Loop.Classify | src/platform/iocp.c:421-456 | READ, HANGUP, ERROR or no event by pending flag, status and byte count; stashes the bytes of a READ only; clears the flag |
| IocpLoop.Loop.RearmRead | src/platform/iocp.c:485-537 | Re-arms on the platform data read again after the callback |
| IocpLoop.Loop.WatcherUnregister | src/platform/iocp.c:801-874 | Refused, already stopping, released at once or deferred, with the matching state |
| IocpLoop.Loop.WatcherUpdate | src/platform/iocp.c:687-799 | Issues a read only when asked for one and none is marked pending |
| IocpLoop.Loop.WatcherStop | src/watcher.c:171-192 | Stop with restored `active` when the backend refuses |
| IocpLoop.Loop.WatcherRelease | src/watcher.c:217-227 | The second unregister, and the end of the struct |
| IocpLoop.Loop.DispatchTimer | src/platform/iocp.c:311-329 | The timer branch of the loop body: its three steps in a row |
| IocpLoop.Loop.DispatchBatch | src/platform/iocp.c:293-541 | The loop over the batch is the protocol's moves that dispatch every entry once, in order |
| IocpLoop.Loop.Run | src/platform/iocp.c:259-541 | One call is a run of the protocol: enter, fetch as much as fits, dispatch every packet; so it keeps the combined invariant |
| IocpLoop.Loop.Receive | src/platform/iocp.c:266-291 | Records the thread and takes the front of the queue |
| IocpLoop.EntryIsDispatched | src/platform/iocp.c:294-338 | What the protocol's moves for the head of a batch do, by completion key |
| Growable.SwapRemoveMembers | src/platform/epoll.c:430-432 | Swap-remove drops one record and keeps all others, unique |
| Growable.SwapRemoveIsMapRemove | src/platform/epoll.c:430-432 | On unique records swap-remove is removal of a key from the map that they stand for |
| Growable.AppendIsMapInsert | src/platform/epoll.c:357-359 | Appending a record with new ident and watcher is insertion into that map |
| Growable.EvictMembers | src/platform/epoll.c:294-304 | Eviction drops exactly the record that gives the ident to another watcher |
| Growable.FindWatcher | src/platform/epoll.c:412-418 | The first record that names the watcher, or the count when none does |
| Growable.FindStale | src/platform/epoll.c:296-299 | The first record that gives the ident to another watcher, or the count when none does |
| Growable.WithoutSplits | src/loop.c:358-364 | Removal at the first occurrence joins what was before and what was behind |
| Growable.WithoutMembers | src/loop.c:348-376 | Removal from a duplicate-free list drops the watcher only, keeps the order of the rest, and undoes an append |
| Arrays.RegistrationTable.EvictStale | src/platform/epoll.c:294-304 | The loop over the array leaves exactly the records that eviction leaves, and the array itself |
| Arrays.RegistrationTable.Find | src/platform/epoll.c:412-418 | The first record of the watcher, or the count |
| Arrays.RegistrationTable.Reserve | src/platform/epoll.c:339-356 | Doubles the capacity from 8 when full; a failed allocation changes nothing; the records stay |
| Arrays.RegistrationTable.RemoveAt | src/platform/epoll.c:430-432 | The last record moves into the gap and the count falls by one |
| Arrays.RegistrationTable.Append | src/platform/epoll.c:357-359 | The records grow by the new one at the end |
| Arrays.AppendsCostLinear | src/platform/epoll.c:339-356 | Any number of appends fit, waste at most half of the room, and copy no more elements than there is room |
| Arrays.WatcherArray.Add | src/loop.c:308-339 | Appends, doubling when full; on a failed allocation the list is unchanged |
| Arrays.WatcherArray.ShiftOver | src/loop.c:360-364 | The shifting loop deletes one position and keeps the order |
| Arrays.WatcherArray.Remove | src/loop.c:348-376 | Deletes the first occurrence, and reports whether there was one |
| Ownership.OwnersAreStanding | docs/PLATFORM.md:145-168 | The owners are exactly the registrations that no later close or unregistration ended |
| Ownership.OneNumberEach | docs/PLATFORM.md:145-168 | A watcher owns at most one number at a time |
| Epoll.DelHitsOwnEntry | src/platform/epoll.c:407-428 | A DEL issued for a recorded watcher removes that watcher's kernel entry and no other, whoever has the number now |
| Epoll.OpenKeepsInv | src/platform/epoll.c:289-293 | Opening a recycled number for a new file gives it to no old watcher |
| Epoll.CloseKeepsInv | src/platform/epoll.c:289-293 | Closing a number ends exactly its owner's membership, whatever the records still say |
| Epoll.UndoRegistration | src/watcher.c:123-131 | Unregistering a watcher that cannot join the list takes back its kernel entry, record and platform data |
| Epoll.StopEffect | src/watcher.c:171-192 | Stop removes exactly the watcher's own entry and record, or changes nothing, exactly when DEL is refused for a recycled number |
| Epoll.EvictionIsHarmlessIff | src/platform/epoll.c:327-337 | Evicting before the ADD keeps ownership exactly when the number is not in the kernel set |
| Epoll.StartEffect | src/watcher.c:194-215 | Start succeeds exactly when platform data can be allocated, the number is open and not in the kernel set, the kernel takes it and the record fits; the other codes are exact as well.  A failed start leaves kernel set, list and watchers as they were but for an eviction; the invariant survives exactly when the number was free or nothing was evicted |
| Epoll.CreateEffect | src/watcher.c:97-134 | Creation succeeds exactly under the conditions of a start, when struct and list entry can be allocated too.  Every failing path of creation undoes itself but for an eviction; the invariant survives under the same condition |
| Epoll.DestroyEffect | src/watcher.c:217-227 | Destroy removes the watcher's own entry, its struct and its place in the list, and releases record and platform data except when DEL was refused |
| Epoll.UpdateEffect | src/platform/epoll.c:365-391 | MOD by number breaks ownership exactly when the watcher is active and another one has the number's kernel entry by now, and then takes that entry over; else it changes nothing.  It succeeds exactly for an active watcher whose number is in the kernel set |
| Epoll.NextKeepsInv | src/platform/epoll.c:306-440 | The ownership invariant is inductive |
| Epoll.OwnershipAlways | src/platform/epoll.c:306-440 | After any run the kernel set is the set of active watchers whose file was not closed since; records are unique and cover it; `active` holds exactly with platform data; the list holds the live watchers once each; nothing was freed twice |
| EpollWitness.SecondCreateRun | src/platform/epoll.c:327-337 | A run in which creating a second watcher on a registered number fails and leaves the first one's kernel entry behind its destruction |
| EpollWitness.StartOnTakenRun | src/platform/epoll.c:327-337 | The same for starting a stopped watcher on a number taken meanwhile |
| EpollWitness.UpdateAfterRecyclingRun | src/platform/epoll.c:380-388 | A run in which an update after the number was recycled gives the new file's events to the old watcher |
| EpollTimer.LifecycleConserves | src/timer.c:19-133 | Create, any starts and stops, destroy: files, kernel set, watchers, list order and live allocations are restored, and every DEL hit the timerfd's own file |
| EpollTimer.CreateHolds | src/platform/epoll.c:498-539 | After creation the timer holds exactly its struct, cell, stopped watcher and timerfd |
| EpollTimer.CreateOrUndo | src/timer.c:19-51 | Creation succeeds exactly when each of its allocations and system calls does; wherever it fails, open files, kernel set, watchers, list and live allocations are as before |
| EpollTimer.OperateAchieves | src/timer.c:53-97 | A start makes the timer active exactly when the timerfd is armed and its watcher registrable, a stop ends it exactly when it is disarmed, and the loop waits for the timerfd exactly while it is active |
| EpollTimer.OperateHolds | src/timer.c:53-97 | Starting and stopping, with any outcome, keeps exactly what the timer holds |
| EpollTimer.DestroyReleases | src/timer.c:99-133 | The watcher is destroyed before the timerfd is closed; all that the timer held is released once |
| EpollTimerRuns.LifecycleAmongOthers | src/timer.c:19-133 | With any steps of other watchers and descriptors between the timer's own operations: destroy releases all that the timer held, once, leaves everything else as it was, and every DEL for it hit its own file |
| EpollTimerRuns.TurnKeepsHeld | src/platform/epoll.c:541-616 | What the timer holds is kept by every such step and by every start and stop |
| EpollTimerRuns.DestroyReleasesHeld | src/timer.c:99-133 | Destroying the timer in any such state |
| EpollBatch.SampledIsLive | src/platform/epoll.c:237-276 | The watchers that a wait returns are live and different |
| EpollBatch.StepKeepsWatcher | src/watcher.c:97-227 | No step takes away a watcher, or its callback, other than by destroying that watcher |
| EpollBatch.LiveBatchRuns | src/platform/epoll.c:247-277 | From a live batch, whatever callbacks do meanwhile: a freed watcher is dereferenced if and only if the callback of some entry destroys the watcher of a later one; and if not, each entry runs once, in order |
| EpollBatch.BatchRunsEachEntryOnce | src/platform/epoll.c:226-280 | The same for whatever epoll_wait returns in any reachable state |
| EpollWitness.DestroyInBatchRun | src/platform/epoll.c:247-277 | A run to a batch of two in which the first callback destroys the second watcher and the loop goes through it |
| EpollLoop.Loop.Register | src/platform/epoll.c:306-363 | Allocation, eviction, ADD, record and their undoing, in place |
| EpollLoop.Loop.Track | src/platform/epoll.c:339-361 | Records the registration, or deletes it from the kernel when the array cannot grow |
| EpollLoop.Loop.Unregister | src/platform/epoll.c:393-440 | DEL only with a record, nothing released when DEL is refused |
| EpollLoop.Loop.Del | src/platform/epoll.c:420-428 | DEL by number: reports a failure exactly when the number is open but not in the set |
| EpollLoop.Loop.Update | src/watcher.c:152-169 | MOD by number on an active watcher |
| EpollLoop.Loop.Init | src/watcher.c:97-134 | Registration, then the list, then the undoing |
| EpollLoop.Loop.Create | src/watcher.c:16-38 | Creation frees the struct when it fails |
| EpollLoop.Loop.Start | src/watcher.c:194-215 | Start with rollback of `active` |
| EpollLoop.Loop.Stop | src/watcher.c:171-192 | Stop with rollback of `active` |
| EpollLoop.Loop.Destroy | src/watcher.c:217-227 | Stop, cleanup, free |
| EpollLoop.Loop.Cleanup | src/watcher.c:136-150 | The second unregister, then removal from the list |
| EpollLoop.Loop.Perform | src/watcher.c:97-227 | Every step of a run, in place |
| EpollLoop.Loop.DispatchEntry | src/platform/epoll.c:249-276 | Skips the eventfd and watchers without a callback, and else calls back once |
| EpollLoop.Loop.RunBatch | src/platform/epoll.c:247-277 | The loop over the events calls back what the batch specification gives, in order |
| EpollLoop.Loop.RunLiveBatch | src/platform/epoll.c:247-277 | When no callback destroys the watcher of a later entry, the loop over the events keeps the ownership invariant and runs each live entry's callback once |
| EpollLoop.Loop.TimerCreate | src/timer.c:19-51 | Creation of a timer with its rollbacks |
| EpollLoop.Loop.Provide | src/platform/epoll.c:498-539 | timerfd, cell and stopped watcher, each undone when a later one fails |
| EpollLoop.Loop.TimerStart | src/timer.c:53-74 | Start of a timer with rollback of `active` |
| EpollLoop.Loop.TimerStop | src/timer.c:76-97 | Stop of a timer with rollback of `active` |
| EpollLoop.Loop.TimerDestroy | src/timer.c:99-133 | Stop, destroy the watcher, close, free |
| Kqueue.DeletesHitOwnEntries | src/platform/kqueue.c:472-507 | The EV_DELETEs of a recorded watcher remove exactly the entries that name it: all of them, or none when its file was closed |
| Kqueue.StopEffect | src/platform/kqueue.c:457-514 | Stop always succeeds; afterwards no filter names the watcher and no other owner lost one |
| Kqueue.FillUndone | src/platform/kqueue.c:357-368 | Undoing a registration that cannot be recorded restores the kernel's filters |
| Kqueue.EvictedOwner | src/platform/kqueue.c:304-315 | An eviction that hits the number's owner breaks ownership, whatever else the registration does |
| Kqueue.PartialDangles | src/platform/kqueue.c:342-349 | When the kernel takes the first of two filters and refuses the second, creation leaves a filter that names the freed watcher |
| Kqueue.StartEffect | src/platform/kqueue.c:287-379 | Start succeeds exactly when platform data can be allocated, the kernel takes every filter of the mask and the record fits; the other codes are exact as well.  It keeps the invariant exactly when nothing was evicted, or the number has no owner and the kernel did not take one filter of two; a failed one then changes no owner, filter or watcher |
| Kqueue.CreateEffect | src/watcher.c:97-134 | The same for creation, with all its rollbacks |
| Kqueue.DestroyEffect | src/watcher.c:217-227 | No filter, record or struct of the watcher is left, and nothing of any other is gone |
| Kqueue.ChangesAreDifference | src/platform/kqueue.c:396-431 | The change list disables exactly the filters that a new mask gives up, adds exactly those it gains, and deletes none |
| Kqueue.BackendUpdateEffect | src/platform/kqueue.c:381-455 | Given a mask that is not stored yet, the backend's update succeeds exactly when the kernel takes every change; then the number has the filters of both masks, those given up being disabled, and no other number is touched |
| Kqueue.UpdateIssuesNothing | src/watcher.c:152-169 | An update of an active watcher changes the stored mask and never the kernel; of an inactive one it changes nothing, and says so |
| Kqueue.UpdateThenStop | src/platform/kqueue.c:381-514 | A filter outlives a stop after an update exactly when the new mask misses a registered filter, or puts an unregistered READ in front of a registered WRITE |
| Kqueue.OwnershipAlways | src/platform/kqueue.c:304-376 | After any run a filter names a watcher exactly when the watcher is active, its file was not closed since, and its mask has the filter |
| KqueueWitness.PartialCreateRun | src/platform/kqueue.c:342-349 | A run in which a half-applied creation leaves a filter that names the freed watcher |
| KqueueWitness.PartialStartRun | src/platform/kqueue.c:342-349 | The same for a start |
| KqueueWitness.SecondCreateRun | src/platform/kqueue.c:304-315 | A run in which a second watcher takes an owned number over; when it is destroyed the owner has no filter left |
| KqueueWitness.UpdateRun | src/watcher.c:152-169 | A run in which an updated and destroyed watcher leaves the filter it was registered with |
| KqueueLoop.Loop.Kevent | src/platform/kqueue.c:342-349 | A change list is applied up to the first change that fails |
| KqueueLoop.Loop.Register | src/platform/kqueue.c:287-379 | Allocation, eviction, EV_ADDs, record and their undoing, in place |
| KqueueLoop.Loop.Unregister | src/platform/kqueue.c:457-514 | EV_DELETEs only with a record, errors ignored, data freed |
| KqueueLoop.Loop.Track | src/platform/kqueue.c:351-378 | Records the registration, or deletes its filters when the array cannot grow |
| KqueueLoop.Loop.Create | src/watcher.c:97-134 | Creation with its rollbacks |
| KqueueLoop.Loop.Start | src/watcher.c:194-215 | Start with rollback of `active` |
| KqueueLoop.Loop.Stop | src/watcher.c:171-192 | Stop with rollback of `active` |
| KqueueLoop.Loop.Destroy | src/watcher.c:217-227 | Stop, a second unregister that finds no platform data, free |
| KqueueLoop.Loop.UpdateBackend | src/platform/kqueue.c:381-455 | The four comparisons of old and new mask |
| KqueueLoop.Loop.Update | src/watcher.c:152-169 | The mask is stored before the backend compares |
| KqueueLoop.Loop.Perform | src/watcher.c:97-227 | Every step in place keeps the ownership invariant |
| Backends.EpollKernelIsHistory | src/platform/epoll.c:407-433 | The epoll set holds (fd, watcher) exactly when it was registered and since then neither closed nor unregistered |
| Backends.KqueueFiltersAreHistory | src/platform/kqueue.c:472-507 | A kqueue filter names a watcher exactly when its mask has the filter and its registration still stands |
| Backends.BackendsAgree | docs/PLATFORM.md:145-168 | After the same history both backends give every number to the same watcher |
| Backends.EpollRefines | src/platform/epoll.c:306-440 | Every epoll step is a legal event of the ownership machine |
| Backends.KqueueRefines | src/platform/kqueue.c:287-514 | Every kqueue step is a legal event of the ownership machine |
| KqueueTimer.TimersAlways | src/platform/kqueue.c:601-688 | In every reachable state only registered timers have kernel entries; a started one has the entry of its phase, or its first event is still in the batch |
| KqueueTimer.NextKeepsInv | src/platform/kqueue.c:229-250 | The timer invariant is inductive over create, start, stop, destroy, wait and dispatch |
| KqueueTimer.LeftoverDoesNotRearm | src/platform/kqueue.c:229-249 | The event of a timer that was stopped in the same batch does not arm it again |
| KqueueTimer.DestroyKeepsInv | src/timer.c:99-133 | A destroyed timer leaves no kernel entry, and its placeholder watcher leaves the list |
| KqueueTimer.StoppedTimerIsSilent | src/platform/kqueue.c:663-688 | A stopped timer runs its callback at most once more, and only when an event of it was in the batch; a destroyed one never |
| KqueueTimerHistory.CallsAreLiveDispatches | src/platform/kqueue.c:229-250 | Over any run, also with timers destroyed in their batch, the callbacks are the dispatches of events of live timers, one each, in order |
| KqueueTimerHistory.FailingRunCalls | src/platform/kqueue.c:229-250 | The same when EV_ADDs fail |
| KqueueTimerHistory.ActiveMeansStarted | src/timer.c:53-97 | A timer is active exactly when it was started and since then neither stopped nor destroyed |
| KqueueTimerHistory.DelaysAreThoseRequested | src/platform/kqueue.c:621-651 | A started timer's kernel entry has the delays given at its creation: the first one as a one-shot entry or the interval from then on, when both are positive and different; else the one that repeats, at least a millisecond |
| KqueueTimerHistory.PhasesFollow | src/platform/kqueue.c:229-250 | A start adds the entry of the first delay, and the dispatch of its event the one of the interval |
| KqueueTimerFaults.FailedStart | src/platform/kqueue.c:621-657 | A failed start keeps the timer invariant exactly when the timer was active already or has one phase |
| KqueueTimerFaults.FailedSecondPhase | src/platform/kqueue.c:239-249 | A failed EV_ADD in the dispatch keeps the invariant exactly when the event began no second phase; else the timer stays started with no entry for the phase it is in |
| KqueueTimerFaults.PrimedMeansFailedStart | src/platform/kqueue.c:621-657 | Over any run with failing EV_ADDs, an unregistered timer still waits for a first phase exactly when a start of it with two phases failed and nothing of it was started or dispatched since |
| KqueueTimerFaults.ArmedMeansLeftover | src/platform/kqueue.c:229-249 | Over any such run, the kernel will fire an unregistered timer exactly when after a failed start of it, with two phases, an event of it, from any position of the batch, was dispatched, and it has not been started since |
| KqueueTimer.DestroyedInBatch | src/platform/kqueue.c:690-713 | Destroying a timer keeps the invariant exactly when no event of it, at any position, is in the batch |
| KqueueTimer.TouchedExactlyWhenDestroyedInBatch | src/platform/kqueue.c:229-237 | Over any run, the loop has gone through a freed timer exactly when one was destroyed with an event in the batch and that event was dispatched later |
| KqueueTimerWitness.FailedRestartRun | src/platform/kqueue.c:636-657 | A run to a state in which a failed restart in the batch arms an unregistered timer |
| KqueueTimerWitness.LostTimerRun | src/platform/kqueue.c:247 | A run to a state in which a failing second phase leaves a started timer that never fires again |
| KqueueTimerWitness.DestroyedInBatchRun | src/platform/kqueue.c:690-713 | A run to a state in which a destroy in the batch makes the loop go through the freed timer |
| KqueueTimerWitness.OneShotRun | src/platform/kqueue.c:637-651 | A run in which a timer without interval has fired and is still armed |
| KqueueTimer.OneShotStaysArmed | src/platform/kqueue.c:637-651 | A timer without interval stays in the kernel when it fires |
| KqueueTimerLoop.Loop.StartBackend | src/platform/kqueue.c:601-661 | Two phases or one, the clamped period, and pending_initial set before the outcome is known |
| KqueueTimerLoop.Loop.Deregister | src/platform/kqueue.c:663-688 | Deletes the entry of a registered timer |
| KqueueTimerLoop.Loop.DispatchTimer | src/platform/kqueue.c:229-250 | The timer branch of the loop body |
| KqueueTimerLoop.Loop.Receive | src/platform/kqueue.c:204-213 | kevent hands out events and forgets the one-shot entries among them |
| KqueueTimerLoop.Loop.Process | src/platform/kqueue.c:215-277 | The loop over the events takes the state through every dispatch and callback in order |
| KqueueTimerLoop.Loop.TimerCreate | src/timer.c:19-51 | Succeeds exactly when all its allocations do; a failure at any of them leaves nothing |
| KqueueTimerLoop.Loop.CreateBackend | src/platform/kqueue.c:551-599 | Platform data, placeholder watcher and list, each failing on its own |
| KqueueTimerLoop.Loop.TimerStart | src/timer.c:53-74 | Start with rollback of `active` |
| KqueueTimerLoop.Loop.TimerStop | src/timer.c:76-97 | Stop |
| KqueueTimerLoop.Loop.TimerDestroy | src/timer.c:99-133 | Stop, free, and removal from the list |
| KqueueTimerLoop.BatchCallsEachEvent | src/platform/kqueue.c:215-277 | Whatever the callbacks of a batch do, as long as none destroys a timer of a later event, each event calls its timer back once, in order |
| KqueueTimerLoop.Loop.Run | src/platform/kqueue.c:188-278 | A whole batch of timer events, with whatever its callbacks do, keeps the timer invariant and calls back each event's timer once |
| Wake.NextKeepsInv | src/loop.c:194-299 | The wake-up invariant is inductive over loop, stops and sends |
| Wake.NoLostStop | src/loop.c:241-262 | A stop stored after the run cleared the flag, and finished, leaves the counter positive whenever the loop is in epoll_wait |
| Wake.StopEndsRun | src/loop.c:194-239 | With the flag set at most one more wait completes, and the loop returns within maxEvents + 5 of its steps |
| Wake.NoLostWake | src/platform/epoll.c:442-466 | After a write the counter stays positive until the loop reads it, saturated or not |
| Wake.AsyncDataIsFresh | src/loop.c:264-299 | When the loop's read of the eventfd consumes a send's wake, that send had stored and then written; from then on the async data is the value of the latest store, which is no older than that send's |
| Wake.PendingHasWritten | src/platform/epoll.c:455-465 | A wake that is not consumed yet comes from a write, and the write from a call that had stored before |
| Wake.FlagMeaning | src/loop.c:194-200 | The flag is set exactly when a stop was stored with no entry to pd_loop_run since |
| Wake.CheckHonoursStopsSinceEntry | src/loop.c:214-230 | The check lets the loop wait exactly when no stop was stored since pd_loop_run cleared the flag |
| Wake.ReturnsExactlyWhen | src/loop.c:194-212 | pd_loop_run returns exactly at a condition that sees the flag or finds no watcher, or when the wait fails; else it goes on to the check, the wait and the batch |
| Wake.CounterCountsWrites | src/platform/epoll.c:442-466 | The eventfd's counter is the number of writes since it was last read, up to its maximum |
| Wake.EarlyStopIsErased | src/loop.c:199-203 | A concrete run in which a stop from before the clearing is lost: finished, and the loop waits with the counter at zero |
| WakeLoop.Loop.StoreRequest | src/loop.c:246-283 | The store under the mutex |
| WakeLoop.Loop.AsyncSend | src/platform/epoll.c:442-466 | One more on the counter, or nothing at its maximum |
| WakeLoop.Loop.ProcessBatch | src/platform/epoll.c:247-277 | The batch reads the eventfd once when it is reported |
| WakeLoop.Loop.BeginRun | src/loop.c:199-200 | The entry sets `running` and clears the flag |
| WakeLoop.Loop.Condition | src/loop.c:202 | Goes on exactly when no stop is requested and a watcher is left |
| WakeLoop.Loop.RunOnce | src/loop.c:214-239 | With the flag set it returns 0 without waiting; otherwise it waits once and returns the number of entries, or fails |
| WakeLoop.Loop.Run | src/loop.c:194-212 | Whatever the other threads do, the execution is a run of the wake-up machine; it returns 0 at the latest in the first round without watchers, without a wait if that is the first round, and an error only when a wait fails |

## Left out

- System calls, sockets, handles, mutexes and clocks: they are steps of the environment or parameters for their outcomes.
- IocpResults.ReadBufferSafety: needs the two caller rules above; without them only `IocpResults.LoopNeverTouchesFreedMemory` holds, and `IocpRules.LateWriteCanFault` is a run that breaks the rest.
- IocpResults.LoopNeverTouchesFreedMemory: leaves out callbacks that destroy their own watcher; `IocpSafety.DestroyInCallbackIsSafeIff` says exactly when those touch freed memory.
- IocpResults.StreamIntegrity: is about watchers whose READ callbacks drain until nothing is left, since a later read overwrites what a callback leaves behind; what any callback gets is `IocpReads.DrainedIsReceived`.
- IocpDrain.DrainedDestroy: does not model the stack-allocated sync record after a timed-out drain (src/platform/iocp.c:591-608).
- IocpSafety.NextKeepsInv: does not cover the races inside a registration or inside the dispatch of an I/O completion, nor a callback that destroys its own watcher, nor a failed WSARecv while a watcher is registered (src/platform/iocp.c:673-677).
- IocpTimer.NextKeepsInv: does not model the 5-second limit of the stop-event wait, nor timeouts above 32 bits (src/platform/iocp.c:1096-1097), nor the placeholder watcher; the dispatcher does not test `active`, so a stopped IOCP timer may still be called back.
- EpollTimer.LifecycleConserves: does not model the itimerspec conversion nor the reading of the timerfd.
- Kqueue.OwnershipAlways: leaves out the watcher list and the allocation accounting of watcher.c, which are proved with epoll.
- KqueueTimer.TimersAlways: assumes that EV_ADDs succeed; `KqueueTimerFaults` says what failing ones do.
- Wake.StopEndsRun: counts the loop's own steps; callbacks are assumed to return, and a backend error returns earlier.
- kqueue and IOCP wake-ups (EVFILT_USER, completion packets with key 0), and pd_loop_run_once called by the application: only the eventfd under pd_loop_run is modelled.
- pd_loop_unref's sweep over remaining watchers (src/loop.c:171-178): the shifting list makes it skip entries; the header asks that no watcher remains.
- pd_loop_default and reference counting: later calls take no reference and the static pointer is not reset.
- Multi-threaded use of the epoll and kqueue record tables: they take no lock.
- NULL arguments, loops without platform data, error strings, the event-mask translation, version and platform queries: finite and easy.
- Watcher addresses that malloc reuses: every struct and block has its own name forever.
