# A verified model of the concurrency kernel

Kestrel keeps its background work in a small kernel: tasks that must be joined, an iterator that lives
in one task and is read from another, a reader/writer lock, and process groups that must not outlive
their caller. This project states in Dafny what that kernel promises and proves it, for every
interleaving, every run and every input. Three smaller parts follow: audit timestamps, revocable
caller authority, and the heartbeat sentinel.

`dafny verify dfyconfig.toml` checks everything; each module is one file.

| module | about |
|---|---|
| ReaderWriterLock | the writer-preferring lock as a machine of atomic stretches, and the class that takes its steps |
| OwnedIterator, IteratorSteps | producer, watcher, reader and closer over a FIFO queue of ready handles, and the iterator class; what each of them does in one turn |
| Options, Sequences | a missing value; facts about concatenation |
| EventLoops | a scripted event loop: whatever may happen while a coroutine is suspended |
| OwnedTasks, OwnedGather | must-joins, bounded observation, structured gather, for every script |
| TaskAdmission | creating a task around an operation: everything that may go wrong, and the task's life after it |
| JoinGraph | reference-counted join edges and the ancestor search |
| ProcessTree, BoundedRun | escalation against a process group, launches, the tail buffer, the bounded runner |
| AuditTime, AuditStamps, AuditNormalize | calendar, canonical text, normalisation |
| CallerContexts | bindings shared by copied task contexts |
| Heartbeat, WhiteSpace | the sentinel pattern and the classification |

## How it is modelled

- A coroutine runs without interruption between two suspensions, so each stretch is one step.
  ReaderWriterLock and OwnedIterator are state machines over such steps, a cancellation possible at
  every suspension. Beside the step function stands a class with the fields of the source, whose
  methods are proved to take exactly those steps.
- OwnedTasks, OwnedGather, ProcessTree and BoundedRun follow one coroutine against a script: any finite
  sequence of timed completions, cancellations of the caller, and failures of observation. Their
  contracts speak of the histories that the loop keeps: what was raised and when, what each wait was for
  and how and when it ended, which cancels were sent and when; and a wait reacts to its script in one determined way. A
  call that is still suspended when the script ends is a result of its own. `ends` fixes how each task
  ends, whatever it is sent; contracts hold for every choice of it. Operating-system facts (a reaped child, an extinct group) are tasks of the script.
- Errors are ordinary, cancellation, or control. How several are composed
  (`execution_terminal_error` and its relatives in `kestrel_sovereign.execution_custody`, which is not
  part of this model) is any function of the non-empty sequence of those present. That nothing is
  composed exactly when nothing is present is an assumption of the model.
- Time is in microseconds and timers are exact.

## Where the code differs from its documentation

- `aclose` joins owner and watcher only in the call that closes. A second, concurrent call returns at
  once with both still running (`AcloseLeavesATaskIff`, `SecondAcloseDoesNotWait`).
- "A provider that blocks in the next `anext` is interrupted one loop turn later" holds exactly for an
  interrupt scheduled after the release, and while no deadline of the source's own cuts the handshake off
  (`SourceHadItsTurnIff`). A watcher that is cancelled while an item is queued and not yet read schedules
  its interrupt before the release (`InterruptMayOvertakeTheSource`).
- Without an explicit receipt, a failure after acceptance is said to arrive through the returned task.
  With a factory that cancels the task at its gate, setting the gate raises instead
  (`APrivateCallerMissesItsTaskIff`).
- A cancellation of the watcher does not always reach the source. Sources read through the iterator use
  `asyncio.timeout` (`kestrel_sovereign/agent/orchestrator_engine.py:399`); while such a deadline has the
  owner cancelling, the hand-over leaves it alone, and the source then takes the cancel back
  (`CancellationIsLostIff`, `ADeadlineMayLoseACancellation`). `aclose` misses in the same way, and waits
  for the source's next step (`AcloseMissesIff`, `ACloserMayWaitForASourceThatRunsOn`).
- `start_async_process` has no cancellation gap, but an observation failure does leave one: an error from
  observing a launch that succeeded is raised without cleanup (`StartAsyncProcess`,
  `AnUnobservedLaunchIsLeftRunning`).
- `run_bounded_subprocess` does not clean up after every exit: a launch that is over as the caller is
  cancelled stays (`AFinishedLaunchIsLeftBehind`), and so does one that the runner lost sight of because a
  wait of its own failed (`ALostObservationLeavesTheLaunch`); `LeftBehindIff` says exactly when. It also
  drops a cancellation that arrives while a late launch is joined (`FirstCancellationIsDroppedIff`,
  `ALateCancellationIsDropped`).
- `normalize_audit_timestamp` returns unparsable text stripped, not unchanged (`UnparsableTextStays`,
  `PaddedTextChanges`), and lets `OverflowError` escape for offsets at either end of the calendar
  (`OverflowsIff`, `OverflowHappens`).
- The migrated form does not match `isoformat()` output, which has no fraction on whole seconds
  (`MigratedRowsNeverMatch`); order between different instants is kept all the same.

## Model

| member | source | states |
|---|---|---|
| ReaderWriterLock.EveryRunIsSafe | kestrel_sovereign/_async_rwlock.py:46-116 | In every interleaving of calls, resumptions, cancellations and releases: the counters equal the requests that hold or wait, a writer excludes everybody else, and whoever sleeps is really blocked |
| ReaderWriterLock.NextKeepsInv | kestrel_sovereign/_async_rwlock.py:46-116 | Each atomic stretch of each operation keeps those three invariants |
| ReaderWriterLock.NoLostWakeup | kestrel_sovereign/_async_rwlock.py:56-67 | When nothing holds the lock and somebody waits, some waiter is ready to run, although waiters clear the one shared event |
| ReaderWriterLock.EveryScheduleDrains | kestrel_sovereign/_async_rwlock.py:46-116 | Once arrivals stop every schedule is finite, with an explicit bound, and one that ends with nothing ready and no lease out has left no request waiting: no deadlock and no livelock of waiters that wake each other |
| ReaderWriterLock.RefinesWriterPreferringLock | kestrel_sovereign/_async_rwlock.py:25-116 | Every step is an allowed step, with the same effect, of an abstract lock over sets of holders and waiters; a cancelled waiter simply leaves |
| ReaderWriterLock.ReadersOnlyLeaveWhileAWriterWaits | kestrel_sovereign/_async_rwlock.py:93-108 | While one writer stays queued, in every run, the readers are those of the beginning and those whom a `downgrade` made, at most |
| ReaderWriterLock.CountersShowView | kestrel_sovereign/_async_rwlock.py:35-44 | What the code tests on its counters agrees with what the abstract lock says about its sets |
| ReaderWriterLock.EachActionInSets | kestrel_sovereign/_async_rwlock.py:46-116 | Every action in terms of sets of requests alone: who is let in, who queues, who leaves; a request cancelled while it waited is in no set once it runs |
| ReaderWriterLock.AsyncReaderWriterLock.Acquire | kestrel_sovereign/_async_rwlock.py:46-62 | The call up to its grant or its first sleep takes exactly the step of the machine, and says which |
| ReaderWriterLock.AsyncReaderWriterLock.AcquirePass | kestrel_sovereign/_async_rwlock.py:56-67 | One pass of the retry loop, with the counter given back and the event set exactly when the call is over |
| ReaderWriterLock.AsyncReaderWriterLock.ResumeAcquire | kestrel_sovereign/_async_rwlock.py:61-67 | Resumption of a sleeper, and cancellation at the suspension: the counter comes down and the event is set on both ways out |
| ReaderWriterLock.AsyncReaderWriterLock.ReleaseWriter | kestrel_sovereign/_async_rwlock.py:69-75 | Releases a held writer and wakes; refuses, changing nothing, when no writer holds |
| ReaderWriterLock.AsyncReaderWriterLock.DowngradeWriter | kestrel_sovereign/_async_rwlock.py:77-91 | The writer becomes one reader without a gap; refuses when no writer holds |
| ReaderWriterLock.AsyncReaderWriterLock.TryAcquireRead | kestrel_sovereign/_async_rwlock.py:103-108 | Grants a reader exactly when there is neither a writer nor a queued writer |
| ReaderWriterLock.AsyncReaderWriterLock.AcquireRead | kestrel_sovereign/_async_rwlock.py:93-101 | The reader's call up to its grant or its sleep, when it begins and when it runs again after a wakeup |
| ReaderWriterLock.AsyncReaderWriterLock.ReleaseReader | kestrel_sovereign/_async_rwlock.py:110-116 | Gives one reader lease back and wakes; refuses when none is out |
| ReaderWriterLock.AsyncReaderWriterLock.Changed | kestrel_sovereign/_async_rwlock.py:65-67 | Setting the event wakes every sleeper, and nobody when it is up already |
| ReaderWriterLock.DowngradedReaderLease.Exit | kestrel_sovereign/_async_rwlock.py:19-22 | The lease gives its reader back once, however often it is left |
| OwnedIterator.EveryRunIsSafe | kestrel_sovereign/_async_ownership.py:636-1013 | The whole invariant of queue, handshake, watcher, joins and ready queue holds in every interleaving of reader, producer, watcher, closer and cancellations at every suspension |
| OwnedIterator.NextKeepsInv | kestrel_sovereign/_async_ownership.py:743-990 | One turn of any handle, one call, or one cancellation keeps it |
| OwnedIterator.DeliveryIsExact | kestrel_sovereign/_async_ownership.py:782-807 | What `__anext__` returned is a prefix of what the source yielded, at most one item behind; the difference is queued, or was yielded after a stop |
| OwnedIterator.CancelledReaderLosesNothing | kestrel_sovereign/_async_ownership.py:782-807 | Cancelling a reader that waits on the queue changes nothing but the reader, and its next call does not release the producer again |
| OwnedIterator.QueueIsWellFormed | kestrel_sovereign/_async_ownership.py:743-749 | The queue is item? INTERRUPTED? TERMINAL?, TERMINAL at most once; once the owner is done and nobody closed, it is there or its publication is scheduled |
| OwnedIterator.NobodyIsStranded | kestrel_sovereign/_async_ownership.py:782-807 | No deadlock: with nothing ready and a caller suspended, the owner is waiting for its source, never parked or finished |
| OwnedIterator.JoinsAreComplete | kestrel_sovereign/_async_ownership.py:851-867 | The `aclose` that closes and the terminal path of `__anext__` complete only after both owner and watcher are done |
| OwnedIterator.AcloseLeavesATaskIff | kestrel_sovereign/_async_ownership.py:976-991 | Exactly which `aclose` returns with a task still running: one that finds the iterator closed by a call whose join is not over |
| OwnedIterator.SecondAcloseDoesNotWait | kestrel_sovereign/_async_ownership.py:979-980 | A concrete run of that kind |
| OwnedIterator.CancellationIsLostIff | kestrel_sovereign/_async_ownership.py:820-892 | Exactly when a cancellation of the watcher is lost, started or not: its hand-over found the owner cancelled by nothing but a deadline of its own source, or it carried control evidence; in every other case the interrupt has arrived or is on its way |
| OwnedIterator.LostForGood | kestrel_sovereign/_async_ownership.py:890-892 | A lost cancellation stays lost, whatever else happens, until the owner ends, is closed, or is cancelled from elsewhere |
| OwnedIterator.ADeadlineMayLoseACancellation | kestrel_sovereign/_async_ownership.py:820-840 | A concrete run in which a deadline of the source fires in the same turn, the source takes its cancel back and waits on undisturbed |
| OwnedIterator.CancellationArrivesOrWaits | kestrel_sovereign/_async_ownership.py:826-830 | A cancellation that is not lost has arrived once nothing is ready, or is deferred behind an outstanding item |
| OwnedIterator.StopInterruptsOrMisses | kestrel_sovereign/_async_ownership.py:989-990 | A stop, by `aclose` or by a lost observer, has interrupted the owner, unless it found it cancelled by nothing but a deadline of its own source |
| OwnedIterator.AcloseMissesIff | kestrel_sovereign/_async_ownership.py:976-991 | Over every run: the closing `aclose` leaves a live owner uninterrupted exactly if the owner is cancelled by nothing but a deadline of its own source as the call is made, and nothing has interrupted it before |
| OwnedIterator.ACloserMayWaitForASourceThatRunsOn | kestrel_sovereign/_async_ownership.py:989-991 | A concrete run of that kind: the source takes its deadline back and waits on, nothing is ready, and the closer is suspended with nobody to interrupt the source |
| OwnedIterator.AcloseStops | kestrel_sovereign/_async_ownership.py:976-991 | Otherwise the stop has reached the owner: it is cancelled, and it will run or has ended |
| OwnedIterator.AStopWindsDown | kestrel_sovereign/_async_ownership.py:851-974 | After a stop that reached the owner, with a source that ends once it is cancelled: every schedule is over after an explicit number of turns, at most 21, and one that leaves nothing ready has ended owner and watcher and let reader and closer return |
| OwnedIterator.OwnerIsCancelledOnce | kestrel_sovereign/_async_ownership.py:890-892 | Whatever ways come together, the iterator cancels its owner at most once |
| IteratorSteps.OwnerStepIsExact | kestrel_sovereign/_async_ownership.py:893-974 | The owner's turn in every run: when the source is asked for more, when an item, INTERRUPTED or TERMINAL is published, what is dropped, and where the owner stands then |
| IteratorSteps.InterruptedIsPublishedIff | kestrel_sovereign/_async_ownership.py:942-951 | Over every action: INTERRUPTED is published, and wakes a reader at the queue, exactly if a plain cancellation comes out of the source or of the handshake while a stop or the cleanup was asked for |
| IteratorSteps.ReaderStepIsExact | kestrel_sovereign/_async_ownership.py:782-807 | `__anext__` in every run: which entry it takes, what it returns, that it gives the last item back first; at INTERRUPTED it is over at once without a join, at TERMINAL it closes and joins |
| IteratorSteps.WatcherStepIsExact | kestrel_sovereign/_async_ownership.py:809-849 | The watcher in every run: a plain cancellation goes on at once, behind the handshake, or at the next call of the reader, exactly one of these; a lost observation stops; anything else reaches nobody |
| IteratorSteps.AcloseIsExact | kestrel_sovereign/_async_ownership.py:976-991 | The closing `aclose` in every run: stop, release, an interrupt that can be made, and the join |
| IteratorSteps.CancelledByIff | kestrel_sovereign/_async_ownership.py:890-892 | Over every action: the owner is cancelled exactly by the teardown of the loop or by an interrupt of the iterator that reaches it, and nothing takes that back |
| IteratorSteps.OthersPublishNothing | kestrel_sovereign/_async_ownership.py:743-749 | Nobody else changes the queue, but for the reader, who takes the oldest entry, and the done callback, which adds a missing TERMINAL |
| IteratorSteps.AReaderStopsBeforeTheClose | kestrel_sovereign/_async_ownership.py:798-802 | A concrete run: the reader returns at INTERRUPTED while the source's own `aclose` still runs |
| OwnedIterator.SourceHadItsTurnIff | kestrel_sovereign/_async_ownership.py:826-837 | When a scheduled interrupt is about to cancel the owner, the source has had its turn exactly if its handshake was released before the interrupt was scheduled and no deadline of its own has cut the handshake off |
| OwnedIterator.DeferredInterruptIsReleased | kestrel_sovereign/_async_ownership.py:785-792 | The interrupt that `__anext__` schedules always stands behind a handshake that it released first |
| OwnedIterator.InterruptMayOvertakeTheSource | kestrel_sovereign/_async_ownership.py:826-839 | A concrete run in which a watcher cancelled over a queued, unread item schedules an interrupt that overtakes the source |
| OwnedIterator.OwnedAsyncIterator.CallNext | kestrel_sovereign/_async_ownership.py:782-794 | The call up to its item or its suspension, with release, deferred interrupt and queue |
| OwnedIterator.OwnedAsyncIterator.Take | kestrel_sovereign/_async_ownership.py:794-807 | Handling of one queue entry: item, INTERRUPTED without a join, TERMINAL with the join |
| OwnedIterator.OwnedAsyncIterator.ReleaseItem | kestrel_sovereign/_async_ownership.py:785-792 | Clears the outstanding item, sets the event, turns a deferred interrupt into a scheduled one |
| OwnedIterator.OwnedAsyncIterator.Close | kestrel_sovereign/_async_ownership.py:976-991 | `aclose` up to its return or its join, and when it cancels the owner |
| OwnedIterator.OwnedAsyncIterator.ReaderResumes | kestrel_sovereign/_async_ownership.py:794-803 | The reader after its queue wait, its joins, or a cancellation at either |
| OwnedIterator.OwnedAsyncIterator.CloserResumes | kestrel_sovereign/_async_ownership.py:851-867 | The closer through its two joins |
| OwnedIterator.OwnedAsyncIterator.RunSource | kestrel_sovereign/_async_ownership.py:899-902 | One step of the source inside the owner: it parks, yields, ends or fails |
| OwnedIterator.OwnedAsyncIterator.RunYielded | kestrel_sovereign/_async_ownership.py:900-905 | A yielded item is dropped after a stop, otherwise queued, and the owner parks at the handshake |
| OwnedIterator.OwnedAsyncIterator.RunRaised | kestrel_sovereign/_async_ownership.py:911-952 | Which failures publish INTERRUPTED and end normally, and which go on to the terminal path |
| OwnedIterator.OwnedAsyncIterator.RunFinally | kestrel_sovereign/_async_ownership.py:956-974 | Closing the source, and publishing TERMINAL once, on every way out |
| OwnedIterator.OwnedAsyncIterator.HandshakeResumes | kestrel_sovereign/_async_ownership.py:904-910 | After the handshake: flag cleared, event cleared, out on a stop or on cancellation |
| OwnedIterator.OwnedAsyncIterator.WatchCancelled | kestrel_sovereign/_async_ownership.py:820-840 | The watcher's three ways of passing a cancellation on: defer, schedule, or cancel at once |
| OwnedIterator.OwnedAsyncIterator.WatchLost | kestrel_sovereign/_async_ownership.py:841-849 | Losing the observer stops the iterator and interrupts the owner once |
| OwnedIterator.OwnedAsyncIterator.WatchIsInterrupted | kestrel_sovereign/_async_ownership.py:820-849 | What becomes of a cancellation: handed over, withheld with control evidence, or an observer lost |
| OwnedIterator.OwnedAsyncIterator.WatchGoesOn | kestrel_sovereign/_async_ownership.py:813-819 | The observation ends with the owner, or fails at any time |
| OwnedIterator.OwnedAsyncIterator.InterruptOwner | kestrel_sovereign/_async_ownership.py:890-892 | Cancels an owner that runs and is not cancelling, and notes an interrupt that misses |
| OwnedIterator.OwnedAsyncIterator.InterruptIfWatchNeverStarted | kestrel_sovereign/_async_ownership.py:869-888 | The done callback that stands in for a watcher cancelled before its first step |
| OwnedIterator.OwnedAsyncIterator.PublishOwnerCompletion | kestrel_sovereign/_async_ownership.py:743-749 | TERMINAL is published unless it has been |
| OwnedTasks.AwaitOwnedTask | kestrel_sovereign/_async_ownership.py:1073-1198 | Default mode, for every script of completions, cancellations and failures: no return before the task is done; first cancellation kept, at most one cancel forwarded and that at the moment of the first; result and error exactly those of the task with what went wrong in observing and forwarding |
| OwnedTasks.ObserveToTheEnd | kestrel_sovereign/_async_ownership.py:1127-1166 | The loop behind it: only completion ends it; the first cancellation is kept and forwarded at its arrival; failures of observation add up, and a wait has a timer exactly from the first of them on |
| OwnedTasks.BorrowOwnedTask | kestrel_sovereign/_async_ownership.py:1103-1111 | Borrowed mode: sends nothing, leaves at the first withdrawal, and joins exactly if the task is done and nobody withdrew; otherwise what it raises is composed of the withdrawal and everything that went wrong in observing; it waits for the task and no longer |
| OwnedTasks.Observe | kestrel_sovereign/_async_ownership.py:1133-1142 | One suspension, on the completion or on the recheck timer; each brings the task or the script forward |
| OwnedTasks.ObserveAndForward | kestrel_sovereign/_async_ownership.py:1143-1160 | One pass of the loop forwards a cancellation at its arrival, and only the first |
| OwnedTasks.ReturnsOnlyWithoutErrorOrCancellation | kestrel_sovereign/_async_ownership.py:1240-1272 | A value comes out exactly when there is neither error nor cancellation, and it is the outcome's result |
| OwnedTasks.RaisedIsMadeOf | kestrel_sovereign/_async_ownership.py:1256-1272 | What is raised is made of the outcome's error and the caller's cancellation, composed only where one is control; the cancellation is always part of it |
| OwnedTasks.AValueComesOutIff | kestrel_sovereign/_async_ownership.py:1196-1272 | From join to caller: a value comes out exactly if the task has one and nothing else went wrong; otherwise the caller's cancellation goes before an ordinary error |
| OwnedTasks.ComposedIsMadeOf | kestrel_sovereign/_async_ownership.py:1182-1196 | Nothing is lost and nothing made up: whatever evidence the composition of errors keeps, the outcome's error carries exactly if the task's own error does, or a fault in observing it or in forwarding to it |
| OwnedTasks.WaitOwnedOrPending | kestrel_sovereign/_async_ownership.py:1201-1237 | Pending only with a real cancellation, exactly one grace after the first, however many follow; one cancel at most; otherwise the outcome of the join |
| OwnedTasks.Watch | kestrel_sovereign/_async_ownership.py:1214-1230 | The observing loop: the timer starts at the first cancellation and is never moved; every wait is for the task, and none follows its end |
| OwnedTasks.WaitOwnedTasksUntil | kestrel_sovereign/_async_ownership.py:337-363 | Exact partition into done and pending; pending empty or the absolute deadline reached and never passed; nothing is cancelled; withdrawals accumulate; each wait is for all that is left, and none goes on once nothing is |
| OwnedGather.GatherOwned | kestrel_sovereign/_async_ownership.py:366-455 | However it ends every accepted child is done; an all-completed gather has results exactly if every operation was accepted, every child succeeded and nothing disturbed it; the cancels it sends are exactly those to the children still running when the admission failed, when the observation was disturbed or showed a failing child, or at the one wait that decided a race. A race has results exactly if every operation was accepted, nothing disturbed it, that wait shows no failing child, and every child ended in a value or a plain cancellation. Otherwise its error is composed of every refusal and opening error, what disturbed the observation or the failing child that it showed, and what the joins of all children came to; and of nothing else |
| OwnedGather.WhatIsRaisedIsMadeOf | kestrel_sovereign/_async_ownership.py:432-454 | For every kind of evidence that the composition of errors keeps: the error of the gather carries it exactly if something does that stood in the way of results; a plain cancellation of a child is passed over |
| OwnedGather.ControlIsRetained | kestrel_sovereign/_async_ownership.py:445-454 | There is such a composition and such evidence |
| OwnedGather.ChildrenInOrder | kestrel_sovereign/_async_ownership.py:387-400 | With every operation accepted there is one child for each, in their order |
| OwnedGather.AdmitAll | kestrel_sovereign/_async_ownership.py:391-421 | The children of every attempted operation, including one accepted before its publication failed, whether admission went wrong, every wait that it took, one join after another for the children whose publication failed, and the error so far |
| OwnedGather.Admit | kestrel_sovereign/_async_ownership.py:393-417 | A child whose publication failed is joined on the spot |
| OwnedGather.Observe | kestrel_sovereign/_async_ownership.py:422-431 | Ends at the first wait that is disturbed, shows a failing child, decides a race, or leaves nothing to wait for; every wait is for all children that are left; what it has come upon, and no more, joins the error |
| OwnedGather.CancelRunning | kestrel_sovereign/_async_ownership.py:437-440 | One cancel for each child that is not done, in order |
| OwnedGather.AdmitAndObserve | kestrel_sovereign/_async_ownership.py:389-440 | The same cancels, seen before the final join |
| OwnedGather.LaterWaits | kestrel_sovereign/_async_ownership.py:441-444 | The final join changes nothing about whom the cancel pass reached |
| OwnedGather.JoinAll | kestrel_sovereign/_async_ownership.py:441-448 | Every child is joined; one result each, in order; undisturbed, there is no error exactly if every child ended in a value or in a plain cancellation of its own; and in general exactly what each join came to |
| TaskAdmission.TheOperationIsUsedOnce | kestrel_sovereign/_async_ownership.py:127-317 | On every path of the call and in every later run of the task, the operation is started or closed, never both, never twice; exactly one of them once everything is terminal |
| TaskAdmission.ARaiseNeverStarts | kestrel_sovereign/_async_ownership.py:223-314 | A call that raises has refused for good: no later step of any task starts the operation |
| TaskAdmission.StartsIff | kestrel_sovereign/_async_ownership.py:151-159 | The first step reaches the operation exactly for a call that returned a task with nothing wrong in its opening |
| TaskAdmission.AHealthyCallStarts | kestrel_sovereign/_async_ownership.py:300-317 | In the terms of the surroundings alone: the call returns its task, and the operation is about to start, exactly if nothing went wrong and the factory has not cancelled the task at its gate |
| TaskAdmission.RaisesIff | kestrel_sovereign/_async_ownership.py:222-314 | In the same terms, exactly when each error is raised: refused, possibly accepted, accepted with a failed opening, cancelled at the gate |
| TaskAdmission.ClosedByTheCallIff | kestrel_sovereign/_async_ownership.py:265-298 | Exactly when the call itself closes the operation, and when it closes the wrapper because no task can have it |
| TaskAdmission.StartsInTheEndIff | kestrel_sovereign/_async_ownership.py:151-159 | Over every later run: the operation starts exactly in the task of a healthy call that is run before it is cancelled |
| TaskAdmission.NobodyForgets | kestrel_sovereign/_async_ownership.py:179-185 | From any point a step, the end of the operation and the callbacks settle the matter |
| TaskAdmission.APrivateCallerMissesItsTaskIff | kestrel_sovereign/_async_ownership.py:135-137 | A call without a receipt raises over an accepted task exactly when the factory let the task run to its gate and cancelled it there |
| TaskAdmission.AnAcceptedTaskMayBeMissed | kestrel_sovereign/_async_ownership.py:315-317 | Such a call exists |
| TaskAdmission.CreateEstablishesInv | kestrel_sovereign/_async_ownership.py:206-317 | What every branch of the call leaves behind: unused and promised, or closed with the gate shut |
| TaskAdmission.OwnedCreation.CreateTask | kestrel_sovereign/_async_ownership.py:206-317 | The call in the order of its statements, its result and its state |
| TaskAdmission.OwnedCreation.RefuseStart | kestrel_sovereign/_async_ownership.py:187-204 | Closes the operation, then shuts the gate with the error |
| TaskAdmission.OwnedCreation.CloseOperation | kestrel_sovereign/_async_ownership.py:179-185 | Closes at most once and only what never started |
| TaskAdmission.OwnedCreation.Take | kestrel_sovereign/_async_ownership.py:151-160 | A turn of the wrapper, of a canceller, of the operation, or of the done callback |
| JoinGraph.EdgesCountLiveJoins | kestrel_sovereign/_async_ownership.py:36-60 | After any interleaving of joins, exits and completions each edge count is the number of live join frames, and no entry stays without one |
| JoinGraph.EdgesCountTheJoinsOfTheRun | kestrel_sovereign/_async_ownership.py:45-60 | From the events of the run alone: an edge counts the blocks of that waiter on that target that were entered before the target was done and have not been left, and there is an edge exactly if there is one |
| JoinGraph.NextKeepsExact | kestrel_sovereign/_async_ownership.py:45-60 | Entering, leaving in any order, and completion keep the counts exact |
| JoinGraph.NoJoinNoEdge | kestrel_sovereign/_async_ownership.py:56-60 | When every frame has been left no edge is left |
| JoinGraph.RecordedIsCounted | kestrel_sovereign/_async_ownership.py:56 | The default of the lookup on leaving is never used |
| JoinGraph.Ancestors | kestrel_sovereign/_async_ownership.py:63-79 | Terminates on every graph and returns exactly the unfinished tasks that reach the start through unfinished waiters, without the start |
| JoinGraph.Visit | kestrel_sovereign/_async_ownership.py:73-78 | One pass of the worklist over the waiters of one task, in any order |
| JoinGraph.ClosedHoldsChains | kestrel_sovereign/_async_ownership.py:71-79 | A set closed under unfinished waiters contains every chain that begins in it |
| JoinGraph.JoinRegistry.Enter | kestrel_sovereign/_async_ownership.py:45-52 | Records or ignores a join and counts it |
| JoinGraph.JoinRegistry.Leave | kestrel_sovereign/_async_ownership.py:55-60 | Takes one frame back, and the entry with the last |
| ProcessTree.WaitForCompletionAndTreeExit | kestrel_sovereign/_async_process.py:114-134 | True only when the completion settled and the group is extinct, at the first look that shows it; false exactly at the deadline, with one of them missing; it looks at least every 50 ms and at once when the completion settles |
| ProcessTree.TerminateAndAwait | kestrel_sovereign/_async_process.py:143-196 | Normal return only after completion and extinction; SIGTERM at once, SIGKILL only after SIGTERM and an expired grace; the completion has settled before a cleanup error; at most grace, one reap timeout and two floored ones before the final cancel, of which there is one |
| ProcessTree.Escalate | kestrel_sovereign/_async_process.py:161-167 | The signals and the times at which they are sent |
| ProcessTree.ReapAndSettle | kestrel_sovereign/_async_process.py:169-196 | The three bounded ends after an expired SIGKILL wait, and exactly why each error is raised: the child not reaped, members of the group left, or a completion that does not settle |
| ProcessTree.CancelTask | kestrel_sovereign/_async_process.py:137-140 | One cancel for a task that runs, and no way on before it is done |
| ProcessTree.CleanupTask | kestrel_sovereign/_async_process.py:143-196 | As the body of a task: it has a value only over a settled completion and an extinct group, and that value is the completion's |
| ProcessTree.TerminateProcessTree | kestrel_sovereign/_async_process.py:220-253 | No way out of the call before the cleanup task ends; a normal return exactly for a clean cleanup and an undisturbed caller; with the termination for the body of that task, exactly if that completed and the completion has a value; what comes out is the outcome of the task, with the first cancellation and every fault in observing it |
| ProcessTree.StartAsyncProcess | kestrel_sovereign/_async_process.py:256-299 | A handle only from an undisturbed launch; a launch that succeeded ends in an error without cleanup exactly if something went wrong in observing it, and otherwise its cleanup is terminal; what comes out is the outcome of the task joined last, with the first cancellation of all |
| ProcessTree.AnUnobservedLaunchIsLeftRunning | kestrel_sovereign/_async_process.py:283-285 | A call of that kind: observation cannot be set up, the launch succeeds, the call raises |
| ProcessTree.LaunchTask | kestrel_sovereign/_async_process.py:283-299 | As the body of a task: one that is cancelled while it runs never ends with a handle |
| BoundedRun.ReadBoundedTail | kestrel_sovereign/_bounded_subprocess.py:51-73 | For every cut of the stream and every limit: exactly the last min(total, limit) bytes, and truncation exactly when the total exceeds the limit |
| BoundedRun.ReadToEnd | kestrel_sovereign/_bounded_subprocess.py:60-73 | The loop, whose buffer is never longer than the limit |
| BoundedRun.Retain | kestrel_sovereign/_bounded_subprocess.py:64-72 | One edit of the buffer yields the tail of buffer and chunk |
| BoundedRun.TailOfTail | kestrel_sovereign/_bounded_subprocess.py:66-72 | A tail of a tail with more appended is the tail of the whole |
| BoundedRun.ChunkingDoesNotMatter | kestrel_sovereign/_bounded_subprocess.py:62 | Splitting a read in two delivers the same stream |
| BoundedRun.CollectProcess | kestrel_sovereign/_bounded_subprocess.py:76-106 | Both drains and the wait are done before it ends; it has a result exactly if each of them has and nothing disturbed it, in the right places. Its error, and every cancel it sends, follow from its waits: each cancellation is handed to whoever runs as it arrives, and the end of the gather cancels the rest |
| BoundedRun.GatherOrRaise | kestrel_sovereign/_bounded_subprocess.py:95-101 | It ends at the first wait that fails, shows a failing child, or leaves none; the error is that wait's or that child's, else the first cancellation; every cancellation is handed, as it arrives, to the children that still run |
| BoundedRun.GatherAll | kestrel_sovereign/_bounded_subprocess.py:106 | The gather that returns exceptions: only a failed wait or the last child ends it, and cancellations are handed on all the same |
| BoundedRun.Drain | kestrel_sovereign/_bounded_subprocess.py:102-106 | The finally block cancels whoever still runs on entry, hands later cancellations on, and leaves none of the three running |
| BoundedRun.JoinCancelledLaunch | kestrel_sovereign/_bounded_subprocess.py:154-177 | A launch is cancelled once, immediately, and joined, on cancellation and at the deadline; the outcome is exactly that of the launch with all that the join met |
| BoundedRun.JoinCleanup | kestrel_sovereign/_bounded_subprocess.py:186-219 | The cleanup task is joined on both branches, and nothing is cancelled |
| BoundedRun.RunBoundedSubprocess | kestrel_sovereign/_bounded_subprocess.py:109-231 | For every script, failures of observation included, the first wait decides the way: whether the completion task is created, what comes out, and whom the call cancels and when. Once the completion task exists every way out passes through the finished tree cleanup, exactly unless the second wait itself fails; that wait is for the completion, and ends at the deadline of the call at the latest |
| BoundedRun.AnUndisturbedCall | kestrel_sovereign/_bounded_subprocess.py:109-231 | What comes out when nobody disturbs the call: the timeout or the error of the launch, the error of the cleanup, or what it has captured |
| BoundedRun.ACancelledCall | kestrel_sovereign/_bounded_subprocess.py:152-219 | A cancellation of the caller comes out as it is, unless control is involved or the launch is late |
| BoundedRun.FirstCancellationIsDroppedIff | kestrel_sovereign/_bounded_subprocess.py:152-219 | The first cancellation of the caller is in nothing that comes out exactly if the launch missed its deadline |
| BoundedRun.LeftBehindIff | kestrel_sovereign/_bounded_subprocess.py:152-219 | Given that a launch cancelled while it runs never has a handle: a process is left without cleanup exactly if its launch was over as the caller was cancelled, or a wait of the runner failed |
| BoundedRun.ALostObservationLeavesTheLaunch | kestrel_sovereign/_bounded_subprocess.py:152-153 | A script for the failed wait: the launch succeeds, the wait for it raises, the error comes out, nobody is cancelled, the process stays |
| BoundedRun.RunToCleanup | kestrel_sovereign/_bounded_subprocess.py:179-219 | From the completion task on: cleanup on success, timeout and cancellation alike; a missed deadline leads to it at that very time |
| BoundedRun.RaisedFromIngredients | kestrel_sovereign/_bounded_subprocess.py:157-219 | What each way out raises, and what it is made of |
| BoundedRun.CancellationIsDroppedIff | kestrel_sovereign/_bounded_subprocess.py:154-219 | A cancellation that reached the caller is part of what is raised, except while a late launch is joined, whatever becomes of that launch |
| BoundedRun.ALateCancellationIsDropped | kestrel_sovereign/_bounded_subprocess.py:165-177 | A script that does it: the launch misses its deadline, the caller is cancelled during the join, and the call reports a timeout or the launch's own error |
| BoundedRun.AFinishedLaunchIsLeftBehind | kestrel_sovereign/_bounded_subprocess.py:152-158 | A script in which launch and cancellation fall into one turn: the caller gets its cancellation and the process stays without cleanup |
| BoundedRun.CapturedMeansSwept | kestrel_sovereign/_bounded_subprocess.py:206-231 | Under a cleanup task that ends as `CleanupTask` does, a captured result is the settled completion's own, over an extinct group |
| AuditNormalize.TextOrderIsTimeOrder | kestrel_sovereign/audit_time.py:27-62 | For all values that denote a representable time: order of the canonical strings is order in time, and equality is equality |
| AuditNormalize.Idempotent | kestrel_sovereign/audit_time.py:32-62 | Whatever comes out goes through unchanged |
| AuditNormalize.OverflowsIff | kestrel_sovereign/audit_time.py:59-62 | The call fails exactly for times whose UTC form leaves the years 1 to 9999 |
| AuditNormalize.UtcNeverOverflows | kestrel_sovereign/audit_time.py:59-62 | Naive times count as UTC, keep their fields, and always pass |
| AuditNormalize.OffsetsAreTakenOff | kestrel_sovereign/audit_time.py:59-62 | A time with an offset gives the text of its UTC date and clock, over midnight too |
| AuditNormalize.EachZBecomesUtc | kestrel_sovereign/audit_time.py:49 | Each Z becomes +00:00, and nothing else is changed |
| AuditNormalize.ZMeansUtc | kestrel_sovereign/audit_time.py:49 | A text that ends in Z denotes what it denotes with +00:00 |
| AuditNormalize.MigratedRowsNormalize | kestrel_sovereign/audit_time.py:20-24 | A migrated legacy row normalises to the canonical text of its instant |
| AuditNormalize.UnparsableTextStays | kestrel_sovereign/audit_time.py:41-58 | Text that denotes no time comes out stripped; so unchanged exactly if it has no white space at either end |
| AuditNormalize.PaddedTextChanges | kestrel_sovereign/audit_time.py:41-58 | Such a text that does change, with parsers that meet the assumption |
| AuditNormalize.SomeParserReadsBack | kestrel_sovereign/audit_time.py:49 | The assumption on the parser can be met |
| AuditStamps.EarlierSortsFirst | kestrel_sovereign/audit_time.py:20-29 | Fresh and migrated rows in any mixture: different instants sort strictly in their order, although a fraction may be missing |
| AuditStamps.FreshStampsAgreeIff | kestrel_sovereign/audit_time.py:27-29 | Two fresh stamps are equal, or in order, exactly when their instants are |
| AuditStamps.MigratedRowsNeverMatch | kestrel_sovereign/audit_time.py:20-24 | A migrated row never equals the `isoformat()` of its instant, and sorts after it |
| AuditStamps.LegacyRowsSortFirst | kestrel_sovereign/audit_time.py:3-8 | Within one day an unmigrated row sorts before every canonical one, whatever the times |
| AuditStamps.MigrationIsRight | kestrel_sovereign/audit_time.py:20-24 | The migration maps every legacy row to its canonical form, once |
| AuditStamps.DigitsInOrder | kestrel_sovereign/audit_time.py:62 | Fixed-width numbers sort as text the way they sort as numbers |
| AuditStamps.IsoShowsItsFields | kestrel_sovereign/audit_time.py:62 | The text of an instant, fresh and legacy, is its calendar fields in decimal, with a fraction exactly if it has microseconds |
| AuditStamps.DigitsShowTheNumber | kestrel_sovereign/audit_time.py:62 | The digits of a field stand for its number again |
| AuditTime.TheCalendarIsGregorian | kestrel_sovereign/audit_time.py:62 | Lengths of months, leap years and the day after, against the rule in figures |
| AuditStamps.RowsInOrder | kestrel_sovereign/audit_time.py:62 | So do rows of such fields between fixed separators |
| AuditStamps.ValuesInOrder | kestrel_sovereign/audit_time.py:62 | Later instants have lexically later calendar fields |
| AuditTime.CivilOfOrdinal | kestrel_sovereign/audit_time.py:62 | Dates and day numbers of the Gregorian calendar are inverse to each other |
| AuditTime.CivilMonotone | kestrel_sovereign/audit_time.py:62 | Later days have later dates |
| AuditTime.AtUtcIsValid | kestrel_sovereign/audit_time.py:62 | Every representable instant has UTC fields, and they denote it |
| AuditTime.UtcKeepsFields | kestrel_sovereign/audit_time.py:59-62 | A time in UTC keeps its fields through `astimezone` |
| CallerContexts.OnlyOpenLifetimesSpeak | kestrel_sovereign/auth.py:111-118 | In every run over any tree of tasks a caller is seen only through the task's own binding, whose lifetime nobody has closed |
| CallerContexts.ClosingRevokesEverywhere | kestrel_sovereign/auth.py:136-153 | Closing a lifetime takes the caller from every task at once and for good, also where the binding is captured or presented again later |
| CallerContexts.ActiveIffNotClosed | kestrel_sovereign/auth.py:97-103 | A binding keeps its caller and is active exactly until its lifetime is closed |
| CallerContexts.ScopesRestore | kestrel_sovereign/auth.py:156-173 | Leaving a scope restores the binding its task had before, whatever happened in between; the caller is the same or has been revoked |
| CallerContexts.OthersOnlyRevoke | kestrel_sovereign/auth.py:105-118 | No step of another task can give a task a caller |
| CallerContexts.PresentedSpeaks | kestrel_sovereign/auth.py:156-173 | Over every run: a binding that is presented gives exactly the caller that its lifetime was opened for, unless that has been closed; presenting none takes away whomever the task had |
| CallerContexts.ChildrenInherit | kestrel_sovereign/auth.py:105-118 | A task that is spawned sees what its parent sees, and each has its own view from then on |
| CallerContexts.ScopeOfOneCaller | kestrel_sovereign/auth.py:188-199 | Inside, exactly the given caller, also when that is none and one was inherited; afterwards nothing is changed for anybody |
| CallerContexts.RunKeepsKnown | kestrel_sovereign/auth.py:105-108 | Every binding that anybody holds exists |
| CallerContexts.CallerAuthority.OpenLifetime | kestrel_sovereign/auth.py:149-151 | A fresh active binding |
| CallerContexts.CallerAuthority.CloseLifetime | kestrel_sovereign/auth.py:152-153 | The one place where a binding is revoked |
| CallerContexts.CallerAuthority.EnterScope | kestrel_sovereign/auth.py:167-171 | Presents a binding and reports the caller that it gives |
| CallerContexts.CallerAuthority.LeaveScope | kestrel_sovereign/auth.py:172-173 | Resets the variable by its token |
| CallerContexts.CallerAuthority.Current | kestrel_sovereign/auth.py:111-117 | The caller of the current binding while it is active |
| Heartbeat.AlertsAreStable | kestrel_sovereign/heartbeat_response.py:25-57 | An alert text, classified again, is the same alert, for every response |
| Heartbeat.AlertsHoldNoSentinel | kestrel_sovereign/heartbeat_response.py:41-55 | No alert shows a delimited sentinel |
| Heartbeat.DeletionLeavesNone | kestrel_sovereign/heartbeat_response.py:47 | No deletion joins text into a sentinel that was not there |
| Heartbeat.AlertsSay | kestrel_sovereign/heartbeat_response.py:37-55 | What an alert says: the whole response if it shows no sentinel, otherwise what is left when every sentinel with its markup is cut out, stripped |
| Heartbeat.SubCuts | kestrel_sovereign/heartbeat_response.py:47 | The substitution cuts the first and longest phrase, then the next behind it, and nothing else |
| Heartbeat.LongestPhrase | kestrel_sovereign/heartbeat_response.py:11-14 | With its greedy options and backtracking the pattern matches the longest phrase of the language it describes, and whenever there is one |
| Heartbeat.PunctuationIs | kestrel_sovereign/heartbeat_response.py:48-51 | The characters counted as punctuation, one by one |
| Heartbeat.NoSentinelIff | kestrel_sovereign/heartbeat_response.py:11-14 | The pattern, with its greedy options and backtracking, is found exactly if some sentinel stands between non-word characters |
| Heartbeat.SentinelIsMatched | kestrel_sovereign/heartbeat_response.py:11-14 | No greedy option can make the pattern miss a delimited sentinel |
| Heartbeat.MatchHoldsSentinel | kestrel_sovereign/heartbeat_response.py:11-14 | Every match holds a delimited sentinel and does not end inside a word |
| Heartbeat.ForeignCharactersSurvive | kestrel_sovereign/heartbeat_response.py:47 | Characters without a part in the pattern all come through the deletion |
| Heartbeat.AllClearIff | kestrel_sovereign/heartbeat_response.py:37-57 | Routine means blank, or a sentinel with nothing else but white space and punctuation |
| Heartbeat.AsciiIsSane | kestrel_sovereign/heartbeat_response.py:11-14 | The assumptions on the character classes can be met |
| WhiteSpace.StripTwice | kestrel_sovereign/audit_time.py:44 | Stripping twice is stripping once |
| WhiteSpace.StripIsASlice | kestrel_sovereign/heartbeat_response.py:47 | Stripping cuts off white space at the two ends and nothing else |

## Left out

- TerminateAndAwait: a cleanup task that is itself cancelled, which only the teardown of the loop does, ends at that suspension; that `asyncio.gather` would first cancel and await its child once more is not modelled.
- TerminateProcessTree: its cleanup task ends in the script as any task may; that it ends as its body does is a hypothesis of the clause about that body.
- RunBoundedSubprocess: likewise for the launch task; `LeftBehindIff` asks of it what `LaunchTask` proves.
- CollectProcess: output and return code are one value where `RunBoundedSubprocess` captures them; the duration is left out.
- StartAsyncProcess: arguments, environment and streams of the child are left out; only whether there is a command matters.
- CreateTask: reconciliation by scanning the tasks of the loop, and the identity checks on constructors, are inputs: one match, several, none, or a failed search.
- OwnedAsyncIterator: a wake-up through a done callback and the step that follows it are one turn of the ready queue; a source takes back only the cancels of its own deadlines, and a factory has none before `_run`; the failing constructor, and the choice of the error that ends `aclose` are left out. Errors of the source are kept as their class only.
- EnterScope: presenting something that is not a binding, a type error, cannot be written here.
- Ancestors: works on one value of the graph; the source reads the attributes of the tasks, which nothing changes during the search.
- Weak references, task names, diagnostics and notes on errors.
- `run_blocking_operation` and threads; the wrappers `create_owned_iterator` and `await_owned_operation`, which add no state of their own.
- Windows: `taskkill`, and liveness by return code, which the source itself calls best effort. Extinction of a group is final here, so process-id reuse is left out.
- Scheduling latency: a timer fires at its time, and a due happening comes before the wait ends.
- Python's datetime parsers: any functions that read back what `isoformat` writes, the migrated form included. Offsets are any number of microseconds below one day.
- Unicode tables: which characters are word characters, and which match a letter without regard to case, are parameters with the two assumptions that `Sane` states.
- The SQL statement of the migration is not in the repository; it is modelled from the description beside its suffix.
- The conversion of a response that is not text, and presentation limits.
- Attribute publication (`_kestrel_*`), retirement debts, and everything that command lines, HTTP handlers, Docker, IPFS and cloud wrappers do: plumbing, or checks of a single branch.
