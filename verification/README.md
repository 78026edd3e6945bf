# Proofs about bio

bio is a single-threaded cooperative scheduler with a pool of worker threads, in C. Coroutines wait on
one-shot signals; everything is reached through generation-checked handles; timers, mailboxes, services
and buffered I/O are built on coroutines and signals.

This project models those layers and proves what each promises to the next, over every run and every
interleaving:

| file | what it is about |
|---|---|
| `Wrappers.dfy` | options and traces |
| `Bits.dfy` | 32-bit masks, wrap-around, rounding up to a power of two |
| `HandleTable.dfy` | the handle table: free list, generations, refinement of a map from handles to objects |
| `SpscQueue.dfy` | the lock-assisted single-producer single-consumer queue, one atomic access at a time |
| `WorkerPool.dfy` | async jobs and the futex handshake between workers and the event loop |
| `PoolShutdown.dfy` | the shutdown of a worker |
| `Coroutines.dfy`, `SchedulerProofs.dfy`, `SchedulerLaws.dfy`, `Scheduler.dfy` | coroutines, signals, monitors: operations as functions, their invariants, what each gives its callers over whole runs, and the scheduler as an object with its loop |
| `Effects.dfy` | what each scheduler operation changes: the basis of the three refinements below |
| `TimerQueue.dfy`, `TimerTask.dfy` | the timer heap, and the life of one timer |
| `TimerCode.dfy`, `TimerRefinement.dfy` | the code of a timer in the scheduler and the heap, proved to refine `TimerTask.dfy` |
| `TimerLaws.dfy` | due times, sleeps and callbacks in terms of what create and reset asked for |
| `Mailbox.dfy`, `Parking.dfy` | the mailbox ring, and many coroutines sending and receiving |
| `MailboxCode.dfy` | receivers as coroutines of the scheduler, proved to refine `Parking.dfy` |
| `ServiceCall.dfy` | a service call between caller, service and canceller |
| `ServiceCode.dfy`, `ServiceRefinement.dfy`, `ServiceCaller.dfy` | the code of a call in the scheduler and the mailbox, proved to refine `ServiceCall.dfy`; the same code on the scheduler and ring objects |
| `Buffering.dfy` | buffered reads and writes over a device that moves as many bytes as it likes |

Code that updates an object in place is a class (`Handles`, `EventLoop`, `Timers`, `Timer`, `Ring`,
`Caller`, `WriteBuffer`, `ReadBuffer`), and each of its methods is proved to compute a function of the old
state; the laws are proved about those functions. Concurrent protocols are state machines with a program counter
per thread, one step per atomic access. Coroutine bodies and the outside world are arbitrary scripts.

A few promises of the documentation, or facts one would expect, do not hold of the code in every case. The
code is modelled as it is, and each such case has a concrete run that shows it and the exact condition
under which it happens:

* A closed handle resolves again once its slot has been closed a multiple of 2^32 times
  (`WrapRevivesClosedHandle`, `ClosedForever`); closing it then ruins the table (`ClosingRevivedRuinsTable`,
  `CloseKeepsChainIff`).
* A wait for all of several signals that names a live signal of its own twice never ends
  (`RepeatedNameHappens`, `StaysAsleepIffRepeated`, `RepeatedNameNeverWakes`).
* The event loop goes to sleep over a finished job if a positive multiple of 2^32 notifications arrives
  between two of its waits (`WrapLosesWakeUp`, `SleepsOverJobIff`, `BlockedMissesIff`).
* `bio_run_async` is documented to busy-wait when all queues are full (include/bio/bio.h); it also does so
  with room elsewhere (`BusyWaitsWithRoomElsewhere`): it waits exactly when the queue of the first worker
  with the least left to do, queued or in hand, is full (`WaitsAtCallIff`).
* A reset made during an interval timer's callback, at a later clock than its start, is overwritten when
  the callback returns (`LateResetIsLost`, `ReturnKeepsResetIff`); one made during a one-shot timer's
  callback is always lost (`OneshotResetIsLost`, `OneshotResetIff`); one that shortens the sleep does not
  wake the timer earlier (`ShortenedSleepIsLate`, `ResetWakesInTimeIff`).
* A receive on an open mailbox may fail when several coroutines receive from it: at once
  (`SecondReceiverIsRefused`, `RefusedIff`) or on waking (`SleeperIsRobbed`, `RobbedIff`).
* A suspended service call returns on cancellation only if the cancel signal is the caller's own
  (`ForeignCancelHappens`, `CancelWakesIff`, `CodeSuspendedIff`).
* A flush that fails part-way sends the same bytes again later (`FailedFlushRepeats`, `ResendsIff`,
  `StreamIsExactIff`).

That a handler responds at most once to a message is for the handler to keep: a first response is begun in
time (`RespondsToWaitingCaller`, `CodeRespondsInTime`), a second one may come after the call has returned
(`SecondResponseIsLate`).

## Model

| member | source | states |
|---|---|---|
| Bits.NextPow2 | src/internal.h:261-273 | the least power of two not below the argument, for every argument from 1 to 2^31, and 0 exactly for the others |
| Bits.SmearAll | src/internal.h:265-269 | the five shift-and-or lines fill every bit below the top bit |
| Bits.WrappedIndex | src/mailbox.c:47-50 | masking a wrapped 32-bit index gives the slot of the unwrapped one, inside the ring |
| Bits.LowDistinct | src/thread.c:101-102 | two tickets less than a ring apart never share a slot |
| HandleTable.MakeKeepsChain | src/handle.c:35-52 | making a handle takes the head off a free list that visits every free slot once and ends at the capacity |
| HandleTable.RoomyKeepsChain | src/handle.c:5-21 | growing, reached only when full, links the new slots into such a list |
| HandleTable.CloseKeepsChain | src/handle.c:80-96 | a matching close of a used slot puts it at the head of the list; one that does not match changes nothing |
| HandleTable.CloseKeepsChainIff | src/handle.c:80-96 | after a matching close there is a well-formed list exactly if the slot was in use |
| HandleTable.MatchesIff | src/handle.c:54-65 | an issued handle matches exactly while it is open, or when its slot's generation has come round to its own again, for the tag the slot then has |
| HandleTable.ResolvesOwnObject | src/handle.c:54-78 | an open handle resolves to its own object under its own tag and shows that tag; a closed one gives NULL, or what its slot holds when the generation has come round |
| HandleTable.InvalidNeverMatches | src/handle.c:54-65 | the zero handle resolves to nothing |
| HandleTable.ClosesOnce | src/handle.c:80-96 | the first close with the right tag returns the object and kills exactly that handle, any other changes nothing, for a handle whose generation has not come round |
| HandleTable.OnlyRevivedIsUnsound | src/handle.c:80-96 | only a handle whose generation has come round can close a slot that is not in use |
| HandleTable.CloseIsOfOpen | src/handle.c:80-96 | if it closes one that is, it closes the handle open there |
| HandleTable.RunKeepsInv | src/handle.c:5-96 | free list, count, generations and issued handles agree after every history of makes and closes, of any length, that closes no unused slot through a revived handle |
| HandleTable.ClosedForever | src/handle.c:35-96 | in every later state a closed handle resolves to something exactly when its generation has come round and the slot's tag is asked for, however the slot is reused and the table moves |
| HandleTable.TableRefinesMap | src/handle.c:35-96 | at every point of every such history: the list is exact, two issues share a handle exactly if they are of one slot a multiple of 2^32 closes apart, and every handle not revived just then resolves and shows its tag as in a map from open handles to objects |
| HandleTable.MakeGives | src/handle.c:35-52 | a new handle resolves to the given object under the given tag and shows it, differs from all open ones, which keep theirs, and the table doubles exactly when it is full |
| HandleTable.CapacityIsLeast | src/handle.c:37-39 | after every sound history the capacity is the least of 4, 8, 16 and so on that has sufficed so far |
| HandleTable.ChurnReusesFirstSlot | src/handle.c:41-51 | making and closing over and over reuses the first slot with the wrapped generation |
| HandleTable.WrapRevivesClosedHandle | src/handle.c:86-86 | after 2^32 closes of one slot a closed handle resolves again |
| HandleTable.ClosingRevivedRuinsTable | src/handle.c:86-91 | closing the revived handle links the slot to itself, makes the count negative, leaves no free list, and lets the next two makes give one handle twice |
| HandleTable.Handles.constructor | src/handle.c:23-28 | the initial table, all slots free |
| HandleTable.Handles.GrowTo | src/handle.c:5-21 | the larger table with the old slots kept |
| HandleTable.Handles.MakeHandle | src/handle.c:35-52 | the new table and the handle, and a free list one shorter |
| HandleTable.Handles.ResolveHandle | src/handle.c:54-65 | the object if index, generation and tag match |
| HandleTable.Handles.HandleInfo | src/handle.c:67-78 | the tag if index and generation match; for issued handles see ResolvesOwnObject |
| HandleTable.Handles.CloseHandle | src/handle.c:80-96 | the new table and the object returned, or no change; the table stays well formed exactly if the slot was in use |
| SpscQueue.RunKeepsInv | src/thread.c:89-129 | the queue's invariant holds in every interleaving of one producer and one consumer |
| SpscQueue.Safety | src/thread.c:89-129 | count in range, items consumed are a prefix of items produced, no unread slot is overwritten and no unpublished slot read, also when tickets wrap |
| SpscQueue.NoDataRace | src/thread.c:101-123 | the threads never touch one slot at the same time |
| SpscQueue.NoLostWakeUp | src/thread.c:64-69 | a sleeping thread that could go on is about to be signalled |
| SpscQueue.NeverBothStuck | src/thread.c:94-126 | one of the two threads can always step, without spurious wake-ups |
| SpscQueue.StepRefinesFifo | src/thread.c:89-129 | every atomic step leaves a bounded FIFO alone, but for the two increments of count that put and take; a call gives up exactly if it finds the FIFO full or empty and is not to wait, and else ends only after putting its own item or taking one |
| WorkerPool.RunIsConserved | src/thread.c:131-167 | every accepted job is in exactly one queue or hand or done, and loads count jobs, in every interleaving |
| WorkerPool.JobsAreConserved | src/thread.c:232-299 | running jobs equal the sum of loads; a signal is raised at most once, after its task returned, which runs at most once; with none running all are done |
| WorkerPool.JobsAreInOrder | src/thread.c:131-167 | in every run each worker's jobs are executed and reported in the order in which they were accepted |
| WorkerPool.SleepsOverJobIff | src/linux/platform.c:154-170 | arming the futex puts the loop to sleep over a finished job exactly when a positive multiple of 2^32 notifications is unaccounted for |
| WorkerPool.SleepsUnlessNotified | src/linux/platform.c:149-175 | a loop about to wait goes to sleep on the futex exactly if the notifications not accounted for are none or a multiple of 2^32 |
| WorkerPool.RunKeepsHandshake | src/linux/platform.c:149-175 | in every run, a notification absorbed into ack_counter is followed by a full drain before the next wait |
| WorkerPool.BlockedMissesIff | src/linux/platform.c:149-206 | in every run, a blocked loop misses a finished job exactly if, when its wait was entered, it was missed already and a positive multiple of 2^32 notifications was unaccounted for |
| WorkerPool.BlockedMissesNothing | src/linux/platform.c:154-206 | every blocked moment belongs to a wait entered at some step of the run, and unless the counter had wrapped there, every response queued belongs to a worker that has not finished notifying; a wait without the futex leaves none |
| WorkerPool.BlockedIsWoken | src/linux/platform.c:195-206 | the step at which a wait was entered is found, and if the counter had not wrapped there and jobs are outstanding, the wait ends in every run within a bound known from its state, and some worker can step until it has |
| WorkerPool.WaitIsBounded | src/linux/platform.c:195-206 | each step of a wait uses up some of a finite amount of work |
| WorkerPool.BusyIsReachable | src/thread.c:271-298 | any number of jobs can be run without the loop ever waiting |
| WorkerPool.WrapLosesWakeUp | src/linux/platform.c:154-175 | 2^32 notifications without a wait lose the wake-up |
| WorkerPool.BusyWaitsWithRoomElsewhere | src/thread.c:271-298 | a reachable state in which no submit is possible although another worker's queue has room |
| WorkerPool.WaitsIff | src/thread.c:271-298 | once the responses are drained, no job can be handed over exactly when the queue of the first least loaded worker is full |
| WorkerPool.DrainPass | src/thread.c:277-280 | the drains that a call makes lead to a reachable state that differs in the unread responses only |
| WorkerPool.WaitsAtCallIff | src/thread.c:271-298 | in every reachable state: with all queues full a call waits; it waits exactly if, at the call, the queue of the first worker with the least left to do is full, and a worker with room then lacks one job and has one in hand |
| WorkerPool.ChooseWorker | src/thread.c:273-286 | the first worker of minimal load |
| PoolShutdown.RunKeepsInv | src/thread.c:196-227 | the terminate message is behind all others, and at most queue size + 1 messages remain at the join |
| PoolShutdown.ShutdownCannotDeadlock | src/thread.c:207-224 | until the worker is joined, main thread or worker can step; at the join the response queue has room for all that remains |
| PoolShutdown.ShutdownTerminates | src/thread.c:196-227 | every interleaving ends within a bound known at its start, with the worker joined |
| PoolShutdown.ShutdownRunsAll | src/thread.c:131-167 | before it is joined the worker has dealt with every task in hand or queued, in order, and with the terminate message last |
| SchedulerProofs.RunKeepsInv | src/scheduler.c:29-326 | lists, links, counts and epochs agree after every run of operations |
| SchedulerProofs.WaitsAreExact | src/scheduler.c:261-295 | a suspended coroutine's live signals of its epoch are exactly the unraised ones it named, num_blocking_signals is their number or one, and it is suspended exactly as long as its wait is blocked |
| SchedulerProofs.SurplusIffRepeated | src/scheduler.c:275-285 | the count of a wait exceeds the number of its signals exactly when a live signal of its own is named twice |
| SchedulerProofs.StaysAsleepIffRepeated | src/scheduler.c:275-292 | a wait-all that suspends counts too many signals exactly if one of its own live signals is given twice |
| SchedulerProofs.RepeatedNameNeverWakes | src/scheduler.c:280-283 | a wait-all that counted a signal twice never ends |
| SchedulerProofs.RepeatedNameHappens | src/scheduler.c:261-295 | a run that reaches such a wait |
| SchedulerProofs.ServedInTurn | src/scheduler.c:29-44 | coroutines run in exactly the order in which they became ready, over the whole run |
| SchedulerProofs.ListsAreExact | src/scheduler.c:29-137 | the unrun part of the ready lists holds each ready coroutine once; counters are exact; the exit test holds exactly if only daemons, or nobody when terminating, are left |
| SchedulerProofs.FireMonitorsRaises | src/scheduler.c:80-93 | the monitor loop raises exactly the signals of the attached monitors and removes exactly those monitors |
| SchedulerProofs.DeathReleases | src/scheduler.c:66-102 | a death closes the coroutine's signals, raises its monitors' signals, closes nothing else and leaves nothing behind |
| SchedulerProofs.RunKeepsWillRaise | src/scheduler.c:297-326 | an attached monitor stays bound to raise its signal when the target dies, until it is discarded |
| SchedulerProofs.JoinStarts | include/bio/bio.h:946-951 | joining oneself or a dead coroutine returns at once, joining another suspends on a signal its death will raise |
| SchedulerProofs.NobodyJoinsTheDead | include/bio/bio.h:946-951 | no coroutine is left suspended in a join on a dead target, at any point of any run |
| SchedulerLaws.SuspendsIff | src/scheduler.c:261-295 | a wait suspends exactly if a live signal of the caller is given and, unless all are waited for, none of the handles was raised before; otherwise the caller runs on; the ready lists stay |
| SchedulerLaws.WaitTouchesOnly | src/scheduler.c:261-295 | a wait changes only the caller and the epochs of its own signals among those given |
| SchedulerLaws.WaitEndsExactly | src/scheduler.c:230-295 | in every run, from a wait to the resumption, the caller is suspended exactly as long as one of its own live signals that it gave is live (all), or none of them has been raised (any), and queued once it is not; a signal given twice to a wait for all keeps it suspended |
| SchedulerLaws.YieldGoesToNextRound | src/scheduler.c:40-42 | a yielding coroutine is queued behind all others for the next round, and the present round stays as it is |
| SchedulerLaws.RoundIsFixed | src/scheduler.c:32-104 | no operation adds to the present round; whoever becomes ready is queued for the next |
| SchedulerLaws.RoundRunsItsList | src/scheduler.c:32-137 | in every run a round resumes exactly those queued when it began, once each and in order |
| SchedulerLaws.SpawnGives | src/scheduler.c:146-181 | a spawn makes a ready coroutine with the daemon flag asked for, without signals or monitors, last in the next round, and leaves the others alone |
| SchedulerLaws.DaemonizeGives | src/bio.c:116-121 | the caller is a daemon afterwards |
| SchedulerLaws.DaemonIff | src/scheduler.c:158-175 | in every run a coroutine is a daemon exactly if it was spawned as one or has made itself one |
| SchedulerLaws.StopsIff | src/scheduler.c:107-112 | in every run the exit test holds exactly if each coroutine left was asked to be a daemon, or, after a terminate, if none is left |
| SchedulerLaws.MakeGives | src/scheduler.c:209-228 | one new live signal, owned by the caller |
| SchedulerLaws.RaiseWakesIff | src/scheduler.c:230-253 | a raise closes its signal, and queues the owner, and says so, exactly if that ends the owner's wait |
| SchedulerLaws.DeathWakesInOrder | src/scheduler.c:80-93 | a death queues exactly those whose waits it ends, in the order of the monitors that end them |
| SchedulerLaws.MonitorsAreByAge | src/scheduler.c:297-326 | in every run monitors are listed in the order in which they were attached, whatever was discarded in between |
| SchedulerLaws.MonitorGives | src/scheduler.c:297-317 | whether a monitor is attached, for any target and signal; if not, the signal is raised at once |
| SchedulerLaws.JoinIsStarted | include/bio/bio.h:946-951 | a join of another live coroutine begins with a wait for a signal that nothing but its monitor names |
| SchedulerLaws.JoinEndsAtDeath | include/bio/bio.h:946-951 | in every run a join keeps its caller suspended exactly as long as the target lives, and queued afterwards |
| Scheduler.EventLoop.MakeSignal | src/scheduler.c:209-228 | a fresh signal of the running coroutine, outside its current wait |
| Scheduler.EventLoop.RaiseSignal | src/scheduler.c:230-253 | closes the signal and makes its owner ready when its wait is over |
| Scheduler.EventLoop.CheckSignal | src/scheduler.c:255-259 | whether the signal is closed |
| Scheduler.EventLoop.MarkSignals | src/scheduler.c:275-290 | the pass marks the named signals of the caller, counts them, and notes a raised one |
| Scheduler.EventLoop.WaitForSignals | src/scheduler.c:261-295 | the whole effect of a wait, any or all, and when it suspends the caller |
| Scheduler.EventLoop.Suspend | src/scheduler.c:38-42 | a yielding coroutine is waiting, or queued last for the next round, and the present round stays |
| Scheduler.EventLoop.Monitor | src/scheduler.c:297-317 | attaches a monitor, or raises the signal when the target is gone or owns it |
| Scheduler.EventLoop.Unmonitor | src/scheduler.c:319-326 | unlinks the monitor if it is still there |
| Scheduler.EventLoop.Spawn | src/scheduler.c:146-181 | a ready coroutine with the daemon flag asked for, last in the next round, counted |
| Scheduler.EventLoop.Daemonize | src/bio.c:116-121 | the caller is a daemon and counted as one once |
| Scheduler.EventLoop.CloseSignals | src/scheduler.c:66-78 | the loop over the dead coroutine's signals closes all of them |
| Scheduler.EventLoop.RaiseMonitors | src/scheduler.c:80-93 | the loop over its monitors raises and closes all of them |
| Scheduler.EventLoop.Die | src/scheduler.c:66-102 | the whole effect of a death |
| Scheduler.EventLoop.Resume | src/scheduler.c:34-37 | the next coroutine of the round runs |
| Scheduler.EventLoop.Loop | src/scheduler.c:28-138 | for every script: what coroutines and the outside did is the script up to the point returned; the next of the round is resumed whenever nobody runs, all else waits for the end of the round and its failed exit test; the invariant is kept; it returns only when the exit test holds after a round, and stops short of the script only when the next operation is for a coroutine and none is ready |
| Scheduler.LeadsKeepsInv | src/scheduler.c:28-138 | the invariant holds at every point the loop comes to |
| Scheduler.LegalIsTrace | src/scheduler.c:28-138 | what the loop did is a run in the sense of the laws above |
| TimerQueue.InsertKeepsHeap | src/timer.c:57-71 | the sift-up loop restores the heap |
| TimerQueue.InsertAdds | src/timer.c:57-71 | an insertion adds exactly the new entry |
| TimerQueue.PopKeepsHeap | src/timer.c:89-112 | the sift-down loop restores the heap |
| TimerQueue.PopRemovesRoot | src/timer.c:89-112 | a deletion removes exactly the root |
| TimerQueue.RootIsLeast | src/timer.c:117-130 | the root is due first of all entries |
| TimerQueue.FireIsExact | src/timer.c:78-114 | an update raises exactly the entries due, once each and in order of due time, and leaves a heap of the others |
| TimerQueue.RunKeepsExact | src/timer.c:46-114 | after every run, heap contents plus fired entries are what was scheduled, and the whole firing history is in order of due time |
| TimerQueue.FiredIffDue | src/timer.c:46-114 | at every point an entry has fired as often as it was scheduled if it is due by the cached clock, and else never |
| TimerQueue.ScheduledExactly | src/timer.c:45-75 | an entry is in the history as often as a call asked for its signal with a positive delay that ends at its due time, counted from the cached clock of the call |
| TimerQueue.RaisedAsAsked | src/timer.c:45-114 | after every run the updates have raised a signal as often as it was asked for with a delay that has run out, and never before |
| TimerQueue.RaisedAtOnce | src/timer.c:72-74 | without a positive delay a signal is raised at once |
| TimerQueue.Timers.constructor | src/timer.c:20-26 | an empty heap |
| TimerQueue.Timers.Grow | src/timer.c:48-55 | doubling the array keeps its contents |
| TimerQueue.Timers.Rise | src/timer.c:64-71 | the sift-up loop in the array |
| TimerQueue.Timers.RaiseSignalAfter | src/timer.c:45-75 | the heap with the entry due after the delay, or an immediate raise when the delay is not positive |
| TimerQueue.Timers.Settle | src/timer.c:92-112 | the sift-down loop in the array |
| TimerQueue.Timers.DeleteRoot | src/timer.c:89-112 | the heap without its root |
| TimerQueue.Timers.Update | src/timer.c:77-114 | what one update raises and leaves |
| TimerQueue.Timers.TimeUntilNext | src/timer.c:116-130 | -1 when empty, 0 exactly when some entry is due, and else the time to the first due entry of all |
| TimerTask.RunKeepsInv | src/timer.c:132-202 | the timer's invariant over every run of create, time, reset, cancel and its own steps |
| TimerTask.NeverEarly | src/timer.c:144-153 | no callback starts before its due time, consecutive ones are a period apart, a one-shot calls at most once |
| TimerTask.CancelIsFinal | src/timer.c:194-202 | no callback starts after a cancel that found the timer, whenever it comes |
| TimerTask.RecordIsSafe | src/timer.c:156-157 | the record is freed at most once, nothing touches it afterwards, pending means neither cancelled nor finished, and an uncancelled interval timer is always pending |
| TimerTask.ReturnKeepsResetIff | src/timer.c:151-151 | the end of a callback keeps the due time of the latest reset exactly if that was not made later than its start |
| TimerTask.ResetIsHonoured | src/timer.c:185-192 | without such late resets no callback starts before the time the latest create or reset asked for |
| TimerTask.LateResetIsLost | src/timer.c:144-152 | with one, a callback starts before that time |
| TimerTask.WakesEarlyByLag | src/timer.c:135-147 | the wake-up may come before the due time because the heap's clock lags, and is then repeated |
| TimerTask.ResetWakesInTimeIff | src/timer.c:185-192 | in any run without another reset or a cancel, a timer update at or after the due time that a reset asked for leaves the timer asleep exactly if the old wake-up is still to come |
| TimerTask.ShortenedSleepIsLate | src/timer.c:185-192 | a timer reset to an earlier time that sleeps through an update at that time |
| TimerTask.NeverOverdue | src/timer.c:132-152 | a timer whose sleep was never shortened is awake by the first update at its due time |
| TimerTask.OneshotResetIff | include/bio/timer.h:59-60 | after a reset of a one-shot timer that resolves, a callback can still come exactly if none has started |
| TimerTask.OneshotResetIsLost | src/timer.c:148-157 | a run in which the callback of a one-shot timer resets it and none follows |
| TimerTask.Timer.constructor | src/timer.c:160-178 | a new record, due after its timeout |
| TimerTask.Timer.TimerUpdate | src/timer.c:77-114 | the cached clock catches up and wakes the timer if its signal is due |
| TimerTask.Timer.Sleep | src/timer.c:136-141 | the coroutine's new wake signal and its delay |
| TimerTask.Timer.RunFirst | src/timer.c:133-141 | the coroutine up to its first wait |
| TimerTask.Timer.Woken | src/timer.c:143-147 | from the wake signal to the callback, the end or the next sleep |
| TimerTask.Timer.Returned | src/timer.c:148-157 | from the callback's end to the end or the next sleep |
| TimerTask.Timer.ResetTimer | src/timer.c:185-192 | new timeout and due time if the handle resolves |
| TimerTask.Timer.CancelTimer | src/timer.c:194-202 | marks, wakes and unlists the timer if the handle resolves |
| TimerTask.Timer.IsPending | src/timer.c:180-183 | pending means neither cancelled nor freed |
| TimerLaws.CreateGives | src/timer.c:160-178 | the timer of module TimerTask starts with the kind and timeout asked for, due one timeout from now |
| TimerLaws.LatestRequest | src/timer.c:185-192 | in every run the timeout in force is the argument of the latest reset that found the timer |
| TimerLaws.FirstRequest | src/timer.c:160-178 | and until then that of the creation |
| TimerLaws.LatestDue | src/timer.c:148-192 | in every run the due time is what the latest reset or callback end made it: the reset's clock, or the callback's start, plus the timeout |
| TimerLaws.FirstDue | src/timer.c:164-172 | and until then the clock of the creation plus its timeout |
| TimerLaws.CallsIff | src/timer.c:143-147 | a callback starts exactly when the woken coroutine finds the timer not cancelled and its due time come |
| TimerLaws.EndsIff | src/timer.c:143-157 | a timer ends exactly when found cancelled, or when a one-shot's callback ends |
| TimerLaws.PeriodIsExact | src/timer.c:144-152 | without resets callbacks are due one timeout after the creation and then one timeout after the start of the one before |
| TimerLaws.CancelWakes | src/timer.c:194-202 | a cancel that finds the timer takes its handle away and wakes its sleep, and the next step ends it; any other changes nothing |
| TimerLaws.SleepIsExact | src/timer.c:135-141 | a sleep lasts exactly until the heap's clock has advanced by the time left, but for a cancel |
| TimerRefinement.ArmAgain | src/timer.c:136-141 | a new wake signal, delayed in the heap or raised at once, and the wait for it are the sleep of module TimerTask |
| TimerRefinement.FireFacts | src/timer.c:78-114 | an update raises the entries due and keeps the others, by membership |
| TimerRefinement.UpdateRefines | src/timer.c:77-114 | a timer update, with all the signals it raises, wakes the timer exactly if its own entry is due |
| TimerRefinement.OthersRefine | src/scheduler.c:29-326 | nothing that others do in the scheduler touches the timer |
| TimerRefinement.StepRefines | src/timer.c:132-202 | every step of the timer's coroutine, of its callers, of the heap and of anybody else is the step of module TimerTask it is meant to be |
| TimerRefinement.RunRefines | src/timer.c:132-202 | so every run of the code in the scheduler and the heap is a run of module TimerTask |
| TimerRefinement.CodeNeverEarly | src/timer.c:144-153 | in every such run callbacks are not early and a period apart, and a one-shot calls at most once |
| TimerRefinement.CodeCancelIsFinal | src/timer.c:194-202 | in every such run no callback starts after a cancel that found the timer |
| TimerRefinement.CodeSuspendedIff | src/timer.c:136-141 | in every such run the scheduler keeps a sleeping timer suspended exactly as long as its wake signal is live |
| TimerRefinement.CodeNeverOverdue | src/timer.c:132-152 | in every such run a timer whose sleep was never shortened is not suspended past the first update at its due time |
| TimerRefinement.AnyMomentIsFresh | src/timer.c:160-178 | at any point of any run of the scheduler a timer of any kind and timeout may be created, and its record is of that kind and timeout |
| TimerRefinement.CreatedGives | src/timer.c:160-178 | the new record has the kind and timeout asked for, is due one timeout from now, open and not cancelled; its coroutine is ready and no daemon |
| TimerLaws.CreatedAs | src/timer.c:148-152 | in every run of the code the kind stays the one asked for, and a timer created as one-shot calls at most once |
| TimerLaws.CodePeriodIsExact | src/timer.c:144-152 | in every run of the code without resets callbacks are due one timeout apart, counted from the creation |
| TimerRefinement.TimerSleeps | src/timer.c:132-141 | a run of the code in which a timer goes to sleep |
| Mailbox.StoreAppends | src/mailbox.c:57-59 | a write at the masked index appends and overwrites no queued message |
| Mailbox.ReadDrops | src/mailbox.c:88-90 | advancing the read index, wrapped or not, drops the first message |
| Mailbox.Ring.constructor | src/mailbox.c:17-27 | an empty ring of the least power-of-two capacity, 0 if there is none |
| Mailbox.Ring.Send | src/mailbox.c:52-70 | appends when there is room and takes out the parked signal to raise, else changes nothing |
| Mailbox.Ring.StartReceive | src/mailbox.c:72-84 | takes the first message, or parks the new signal, or is refused because another is parked |
| Mailbox.Ring.FinishReceive | src/mailbox.c:86-93 | takes the first message if there is one |
| Mailbox.Ring.CanReceive | src/mailbox.c:98-106 | whether there is a message |
| Mailbox.Ring.CanSend | src/mailbox.c:108-116 | whether there is room |
| Parking.RunKeepsInv | src/mailbox.c:17-96 | parked signals and sleeping coroutines agree in every interleaving of senders, receivers, opens and closes |
| Parking.ParkingIsExact | src/mailbox.c:53-96 | a mailbox stores a signal exactly when one coroutine sleeps on it, and is open and empty then |
| Parking.RunIsFifo | src/mailbox.c:52-96 | messages received from a mailbox are those accepted, in order and once each, up to the queued ones |
| Parking.OpenUntilClosed | src/mailbox.c:17-41 | a mailbox is open until it is closed by name and keeps the capacity asked for |
| Parking.SendAcceptsIff | src/mailbox.c:52-70 | a send is accepted exactly if the mailbox is open and fewer messages than its capacity are accepted and not yet received; otherwise it changes nothing |
| Parking.RefusedIff | src/mailbox.c:77-83 | a receive on an open mailbox fails at once exactly when it is empty and somebody sleeps on it |
| Parking.RobbedIff | src/mailbox.c:86-95 | a receive that wakes on an open mailbox fails exactly when everything accepted has been taken |
| Parking.OneReceiverFailsOnlyClosed | src/mailbox.c:72-96 | with one receiver at a time a receive fails only on a closed mailbox, reused slots included |
| Parking.SecondReceiverIsRefused | src/mailbox.c:78-83 | two receivers: the second fails on an open mailbox |
| Parking.SleeperIsRobbed | src/mailbox.c:86-95 | two receivers: the woken one may find its message taken |
| MailboxCode.SchedulerKeepsSleeper | src/mailbox.c:29-96 | whatever happens in the scheduler, a receiver stays in its wait until its signal is raised, which only a send or a close on its mailbox does |
| MailboxCode.StepRefines | src/mailbox.c:17-96 | every step of the code is the step of module Parking it is meant to be; a receiver that goes on has been woken |
| MailboxCode.RunRefines | src/mailbox.c:17-96 | so every run of mailboxes in the scheduler is a run of module Parking |
| MailboxCode.ReceiverSuspendedIff | src/mailbox.c:77-81 | in every such run the scheduler keeps a receiver suspended exactly as long as its signal has not been raised |
| MailboxCode.NobodySleepsOnMessages | src/mailbox.c:29-96 | in every such run nobody is suspended on a mailbox that is closed or has a message, two receivers are never suspended on one mailbox, and a stored signal is that of a suspended receiver |
| MailboxCode.AnyMomentIsInitial | src/mailbox.c:17-27 | at any point of any run of the scheduler mailboxes may come into use |
| MailboxCode.ReceiverSleeps | src/mailbox.c:72-81 | a run of the code in which a coroutine is suspended in a receive |
| ServiceCall.RunKeepsInv | src/service.c:77-140 | the call's invariant in every interleaving of caller, service and canceller |
| ServiceCall.RespondsToWaitingCaller | src/service.c:136-140 | a first response to a message is begun only while the caller is suspended in the call |
| ServiceCall.SecondResponseIsLate | src/service.c:136-140 | a second response may be begun after the call returned |
| ServiceCall.StatusIsExact | src/service.c:115-122 | OK exactly when a response was finished before the return, CANCELLED and TARGET_DEAD only for their reasons; at most one copy was sent |
| ServiceCall.SelfCallReturns | src/service.c:97-128 | a call to oneself returns TARGET_DEAD, or CANCELLED, without sending |
| ServiceCall.WokenIff | src/service.c:108-113 | a suspended caller is woken exactly by a finished response, the service's death or its own cancel signal |
| ServiceCall.ForeignCancelStaysAsleep | src/service.c:108-113 | a call cancelled by another coroutine's signal stays suspended while the service lives |
| ServiceCall.ForeignCancelHappens | src/service.c:108-113 | a run that reaches such a state |
| ServiceCall.CancelWakesIff | src/service.c:108-122 | cancelling a suspended call makes it return CANCELLED exactly if the signal is the caller's own; the scheduler fact behind it is Effects.OnlyOwnWakes |
| ServiceCall.TraceIsRun | src/service.c:77-129 | a trace of steps is a run, so all of this holds along it |
| Effects.OnlyOwnWakes | src/scheduler.c:270-294 | after a wait for any of three live signals, two of them its own, a coroutine is woken by the third exactly if that is its own too |
| Effects.EventEffect | src/scheduler.c:29-326 | which signals and monitors each operation closes, drops or attaches, which coroutine it ends, and that it leaves all others |
| Effects.WaitLasts | src/scheduler.c:261-295 | a wait is ended by nothing but the resumption of its coroutine |
| Effects.MakeAndWait | src/scheduler.c:209-295 | a coroutine that makes a signal and waits for it is suspended in a wait for just that signal |
| ServiceRefinement.MustWaitIff | src/service.c:108-113 | the wait of a call is skipped exactly when the service is dead or the call was cancelled |
| ServiceRefinement.WaitRefines | src/service.c:108-128 | the wait suspends the caller in a wait for its two signals and its own cancel signal, or goes on to the verdict |
| ServiceRefinement.FinishIsReturn | src/service.c:115-128 | the verdict and the clean-up in the scheduler are the return of module ServiceCall |
| ServiceRefinement.TryRefines | src/service.c:100-113 | a turn of the retry loop, in the scheduler and the mailbox, is one of module ServiceCall |
| ServiceRefinement.PrepareRefines | src/service.c:91-98 | making the signals and the monitor leaves them bound to the service's life, or raised for a call to oneself |
| ServiceRefinement.WaitsAtOnceIff | src/service.c:77-113 | a call is sent and suspended before it first gives up control exactly if the service is another live coroutine whose mailbox has room and the call is not cancelled yet |
| ServiceRefinement.RetryOutcome | src/service.c:100-113 | a later turn sends and waits exactly if there is room, and otherwise yields, while the service lives and the call is not cancelled |
| ServiceRefinement.PutGives | src/mailbox.c:52-70 | the send puts the call's message last and wakes the receiver parked there |
| ServiceRefinement.DeathIsHarmless | src/scheduler.c:66-102 | the death of a coroutine raises the call's monitor signal exactly if it is the service, and never its ack signal |
| ServiceRefinement.StepRefines | src/service.c:77-140 | every step of the caller, of the handler, of the mailbox and of anybody else in the scheduler is none or more steps of module ServiceCall |
| ServiceRefinement.RunRefines | src/service.c:77-140 | so every run of the code in the scheduler and the mailbox goes through a run of module ServiceCall |
| ServiceRefinement.AnyMomentIsInitial | src/service.c:77-91 | at any point of any run of the scheduler a call may begin, with any handles made so far and a message not yet in the mailbox |
| ServiceRefinement.CallWaits | src/service.c:77-113 | a run of the code that sends its message and is suspended |
| ServiceRefinement.CodeStatusIsExact | src/service.c:115-122 | in every such run the status tells whether a response was finished, the call cancelled or the service dead, and at most one copy was sent |
| ServiceRefinement.VerdictIsExact | src/service.c:85-122 | the status of every return: dead when the call was made, else responded, else cancelled by whomever, else dead |
| ServiceRefinement.HandledIff | include/bio/service.h:249-255 | a received message is handed over exactly if it is the call's and not cancelled, and a response begins exactly if it is not |
| ServiceRefinement.CancelledIsLeftAlone | src/service.c:131-140 | in every run, once a call is cancelled its message is no longer handed over and no response begins |
| ServiceRefinement.CallLeavesNothing | src/service.c:124-126 | after its return the two signals and the monitor of a call are gone |
| ServiceRefinement.CodeRespondsInTime | src/service.c:136-140 | in every such run a first response is begun while the calling coroutine is inside the call |
| ServiceRefinement.CodeSuspendedIff | src/service.c:108-113 | in every such run the scheduler keeps a waiting caller suspended exactly as long as no response was finished, the service lives and no cancel signal of its own was raised |
| ServiceCaller.Caller.StartCall | src/service.c:77-113 | the code up to where it first gives up control, on the scheduler and ring objects, does what ServiceCode.Start says |
| ServiceCaller.Caller.MakeSignals | src/service.c:91-98 | the signals, the monitor and the caller's handles |
| ServiceCaller.Caller.TryToSend | src/service.c:100-113 | a turn of the retry loop: the checks, the send and the parked signal, the wait or the yield |
| ServiceCaller.Caller.Await | src/service.c:108-113 | the wait, suspended or skipped |
| ServiceCaller.Caller.Conclude | src/service.c:115-128 | the verdict in the order ack, cancel, dead, and the clean-up |
| ServiceCaller.Caller.Resumed | src/service.c:105-128 | what the resumed coroutine does |
| Buffering.FlushWritesOnce | src/buffering.c:113-130 | the flush loop writes a prefix of the buffer once, all of it exactly when it succeeds, and on failure keeps the buffer |
| Buffering.WriteKeepsConsistent | src/buffering.c:177-211 | a write keeps the stream consistent, whether it fits, flushes first or goes to the device |
| Buffering.WriteGives | src/buffering.c:177-211 | what a write buffers, gives to the device and reports, path by path: bytes that fit, before or after a successful flush, are buffered in full; a flush given up leaves everything unwritten |
| Buffering.RunKeepsConsistent | src/buffering.c:113-235 | the stream is longer than what was accepted by exactly the bytes of failed flushes |
| Buffering.StreamIsExactIff | src/buffering.c:113-235 | device plus buffer hold the accepted bytes in order exactly if at no flush the device gave up after taking some bytes |
| Buffering.ResendsIff | src/buffering.c:117-127 | a flush succeeds exactly if the device takes all buffered bytes, and will resend exactly if it takes some and then gives up |
| Buffering.ResentIff | src/buffering.c:113-235 | over a run, bytes are resent exactly if the device gave up part-way at one of its flushes |
| Buffering.FailedFlushRepeats | src/buffering.c:117-127 | bytes go out twice |
| Buffering.WriteBuffer.constructor | src/buffering.c:14-22 | an empty buffer |
| Buffering.WriteBuffer.FlushInternal | src/buffering.c:113-130 | the flush loop over short writes |
| Buffering.WriteBuffer.BufferedWrite | src/buffering.c:177-211 | the new stream and count, as WriteGives says, or the error for a bad handle or a missing write_fn |
| Buffering.WriteBuffer.Copy | src/buffering.c:193-197 | bytes that fit are appended to the buffer |
| Buffering.WriteBuffer.FlushBuffer | src/buffering.c:213-235 | flushes, then asks flush_fn, with the same errors |
| Buffering.WriteBuffer.WriteExactly | include/bio/buffering.h:156-178 | the loop over short writes, short exactly on an error |
| Buffering.WriteAllIsExact | include/bio/buffering.h:156-178 | it accepts the reported bytes in order and keeps the stream consistent |
| Buffering.WriteAllStopsRefused | include/bio/buffering.h:156-178 | it stops short only where a write of all the rest has been refused |
| Buffering.ReadIsFaithful | src/buffering.c:141-175 | a read passes the stream on in order, empty only if nothing was asked for or the device gave nothing |
| Buffering.ReadGives | src/buffering.c:141-175 | a read yields the first min(asked, buffered) bytes without asking the device, or, with none buffered, the first min(asked, given) of one refill |
| Buffering.ReadBuffer.constructor | src/buffering.c:14-22 | an empty buffer before the whole stream |
| Buffering.ReadBuffer.Fill | src/buffering.c:151-160 | a refill, or no change when the device gives nothing |
| Buffering.ReadBuffer.TakeOut | src/buffering.c:162-166 | copies out the first min(asked, buffered) bytes |
| Buffering.ReadBuffer.ReadSome | src/buffering.c:150-166 | a read from a readable buffer: the bytes, as ReadGives says, and whether the device gave something |
| Buffering.ReadBuffer.BufferedRead | src/buffering.c:141-175 | the bytes, as ReadGives says, and the new stream, or the error for a bad handle or a missing read_fn |
| Buffering.ReadBuffer.ReadExactly | include/bio/buffering.h:134-154 | the loop over short reads, short exactly on an error |
| Buffering.ReadAllIsFaithful | include/bio/buffering.h:134-154 | it yields the next bytes of the stream, short exactly if the device gave nothing |

## Left out

- HandleTable.RunKeepsInv: the increment of a maximal `int32_t` is modelled as wrapping to the minimum, although C leaves it undefined; what follows once a revived handle has closed an unused slot is shown by ClosingRevivedRuinsTable only.
- HandleTable.Handles.MakeHandle: indices and capacity are unbounded, so the overflow of the `int32_t` in `handle_capacity * 2` and in `index + 1` is not modelled.
- SchedulerProofs.WaitsAreExact: `wait_counter` is unbounded, so its overflow after 2^31 waits of one coroutine is not modelled.
- SchedulerProofs.NobodyJoinsTheDead: the monitor of a join is not discarded by others, who do not have its handle.
- SchedulerLaws.JoinEndsAtDeath: nor do others raise its signal or monitor with it.
- Scheduler.EventLoop.Spawn: the timer update made when the first coroutine is spawned is left out; it could raise no live signal, since no coroutine is there to own one.
- Scheduler.EventLoop.Loop: coroutine stacks and context switches are replaced by a script of operations, coroutine-local storage is left out, and polling is a script of raised signals.
- TimerQueue.FiredIffDue: times are unbounded integers, so the overflow of 64-bit milliseconds is not modelled.
- TimerTask.CancelIsFinal: handles that are closed do not resolve again, see HandleTable.
- TimerRefinement.RunRefines: others do not raise or monitor with the wake signal, which only the timer and the heap hold; a callback ends by returning.
- WorkerPool.RunIsConserved: queues are the bounded FIFOs that SpscQueue is proved to implement, with their puts and takes as single steps; the two state machines are not composed; tasks are assumed to return; job names are fresh; the overflow of `queue_size * 2`, the size of the response queue, is not modelled.
- WorkerPool.ChooseWorker: the draining of responses inside the selection loop is a separate step of the model; a pool in which every load is at its maximum, where the code would index with -1, is reported as -1.
- PoolShutdown.ShutdownTerminates: tasks are assumed to return; messages still in a response queue when the worker is joined are not reclaimed by the code, and nothing is claimed about them.
- ServiceRefinement.RunRefines: the service coroutine itself handles and answers its messages, and closes its mailbox before it ends; a handler that passes a message to another coroutine is not modelled. Others do not raise, monitor with or discard what only the call has handles to.
- ServiceCaller.Caller.StartCall: the coroutine body is cut at its yield and its wait, as its suspension is a step of the scheduler.
- MailboxCode.RunRefines: others do not raise or monitor with a receiver's signal, which only its mailbox holds.
- Parking.RunIsFifo: sends and receives of one mailbox are atomic between suspensions, as they are with cooperative coroutines.
- Buffering.StreamIsExactIff: one coroutine uses a buffer at a time, and either to write or to read; the sum of offset and size does not overflow.
- Buffering.WriteBuffer.BufferedWrite: closing a buffer, with its single final write that ignores short writes, is left out.
- The list of pending signals of a coroutine is a set, since its order has no effect; monitor lists and ready lists are sequences. Pointer layout, allocation and freeing are left out except for the timer record.
- io_uring itself, the eventfd notification, and the other platforms: the futex is a sleep that is entered only if the counter still has the expected value, and ended by a wake.
- Starting and stopping a service (the ready signal, the join): their parts are covered by signals and joins.
- Files, sockets, logging, formatting, errors and type checks: thin wrappers without state of their own.
