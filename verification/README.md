# CppFramework in Dafny

CppFramework is a C++20 concurrency framework: actors that own a table-driven state machine, a
thread pool, a locking queue, an event flag, a background worker, a timer and a name router. This
project models its protocols step by step and proves what holds of every run.

How a concurrent component is modelled: a datatype holds the C++ fields, the owner of the mutex, one
program counter per thread (any number of threads) and a record of what happened; an `Action` is one
step of one thread; `Enabled` and `Apply` give the step. A wait on a condition variable is separate
steps - check, park and release, wake (notified, spurious or timed out), lock again. `Legal` and
`After` run a schedule, so a lemma over `Legal` and `After` speaks of every interleaving. Beside each
system stands a class with the component's own fields: its methods are the code between two scheduling
points, and a ghost `world` shows that each advances the whole system by exactly one step. A schedule
is also the record of the calls made in it: the modules named `...Calls` say, from a call's own
arguments and the steps that followed it, what the call has done and returned. The
sequential components (state machine, bitset, deadline, the actor's own loop) are classes and methods
proved against functions, and the laws are proved about those functions.

| file | component |
|---|---|
| EventTypes.dfy | requests, handler behaviour, replies, errors |
| StateMachine.dfy, MachineLaws.dfy, StateMachineObjects.dfy | `StateMachine` with `MessageEventAggregator`, and the `StatementTask` builder |
| EventTask.dfy, EventTaskLaws.dfy, EventTaskCalls.dfy, EventTaskObject.dfy | `EventTaskBase`: actor, RPC and stop protocol, over the queue's mutex and condition variable |
| SynchronizedDeque.dfy | the FIFO monitor itself, with any number of threads in all its members, and its linearizability |
| TaskPool.dfy, TaskPoolLaws.dfy, TaskPoolCalls.dfy, TaskPoolObject.dfy | `TaskPool` |
| EventFlag.dfy, EventFlagCalls.dfy, BackGroundWorker.dfy, BackGroundWorkerCalls.dfy, Timer.dfy, TimerCalls.dfy | `EventFlag`, `BackGroundWorker`, `Timer` |
| EventTaskManager.dfy, EventTaskManagerCalls.dfy | `EventTaskManager` |
| EnumBitset.dfy, Deadline.dfy | `EnumBitset`, `PosixMessageQueue::to_abs_timespec` |

Places where a plausible reading of the code is false; each has its exact condition as a lemma:

- `TaskPool::stop()` need not return. It notifies without the mutex, so a worker between its failed
  check and its wait misses the notification (`StopCanHang`); it reaches every worker exactly when
  no worker stands there when the stop flag is set (`StopReachesAllIffNoneParking`).
- A `set_state` that throws may have changed the state: the callback runs after the store, and an
  `out_of_range` it throws is reported as the "State not found" of an unknown target
  (`StateNotFoundAfterEntering`). It left state, row pointer and table unchanged exactly when the
  target is unknown or is the state the machine was already in (`FailedSetStateUnchangedIff`).
- A `cancel_async` issued in the worker's clean-up is lost, even after a new `run_task_async`
  (`CancelOfRequestedRunCanBeLost`, `CancelSeenIffNoClearPending`).
- A one-shot timer stays active after its thread ended, so a second `start()` without `stop()` does
  nothing (`EndedTimerIgnoresStart`); a `start()` is ignored exactly when an earlier one took effect and
  no stop has cleared the flag since (`StartIsIgnoredIffUncleared`).
- An RPC without timeout enqueued behind the Stop never returns (`RpcBehindStopHangs`); once loop and
  senders are done, a caller can return exactly when no Stop stands before its message
  (`WaitingReturnsIffNoStopBefore`).
- A waiter for an exact event pattern can miss it although it was announced
  (`AnnouncedEqualityCanBeMissed`); it can still be met exactly while no other bit is set
  (`EqualityStillPossibleIff`).
- A negative duration can give `to_abs_timespec` an unnormalised result (`NegativeTimeoutExample`,
  `DeadlineIsExact`).
- `EnumBitset(e)` and `set(e)` on an empty bitset can differ: they agree, and `set` does not throw,
  exactly when the enumerator is zero or has exactly one bit below MaxBits
  (`ConstructIsSetIffSingleBit`).

## Model

| member | source | states |
|---|---|---|
| StateMachines.RunKeepsRow | include/Task/StateMachine.hpp:54-90 | in every run, re-entrant handlers and callbacks that throw included, the row pointer once set stays the table's row of the current state, and no registration is lost or overwritten |
| StateMachines.PublishEndsInSuccessor | include/Task/StateMachine.hpp:76-90 | a publish succeeds only through the handler in the row current at its start and ends in that entry's successor, or where the handler left the machine if the entry keeps the state |
| StateMachines.ActsEndInLastGoto | include/Task/StateMachine.hpp:62-72 | a handler whose re-entrant calls all succeed leaves the machine in the last state it moved to |
| StateMachines.StateNotFoundNeverArises | include/Task/StateMachine.hpp:62-72 | if successors, re-entrant targets and `set_state` arguments are table keys and callbacks do not throw `out_of_range`, no operation of any run reports "State not found" |
| StateMachines.FailedSetStateUnchangedIff | include/Task/StateMachine.hpp:62-72 | a failed `set_state` left table, state and row pointer unchanged exactly when the target is unknown or the machine was already in it; the callback was called exactly if the target is known |
| StateMachines.SetStateOutcome | include/Task/StateMachine.hpp:62-72 | `set_state` succeeds exactly for a known state whose callback does not throw; what the callback throws comes out unchanged, except that an `out_of_range` reads like an unknown state |
| StateMachines.HandlerCallsAreCalls | include/Task/StateMachine.hpp:54-72 | a handler's calls on its own machine do what the same calls from outside do, one after the other up to the first that fails, whose error ends the handler |
| StateMachines.PublishOutcome | include/Task/StateMachine.hpp:76-90 | with any handler, re-entrant ones included, the exact cause of each outcome of a publish: success, false, and each error, in both directions for success and false |
| StateMachines.StateNotFoundAfterEntering | include/Task/StateMachine.hpp:64-71 | a machine that reports "State not found" for the state it has just entered |
| StateMachines.NotificationsFormPath | include/Task/StateMachine.hpp:62-90 | from its installation the callback's calls chain from the state held then to the current state, in every run |
| MachineLaws.PublishIsMealy | include/Task/StateMachine.hpp:76-90 | with handlers that stay off the machine a publish is one Mealy step; it changes the machine only if the Mealy state changes, and then calls the callback once |
| MachineLaws.BuiltTableIsFirstWins | include/Task/StateMachine.hpp:54-57 | the table built by `add` calls maps every pair to the first call naming it, and has no other row |
| MachineLaws.SameTableIffSameFirsts | include/Task/MessageEventAggregator.hpp:51-53 | two call lists build the same table exactly when they agree on every pair's first call |
| MachineLaws.PermutedCallsBuildSameTable | include/Task/MessageEventAggregator.hpp:51-53 | reordering calls of distinct pairs builds the same table |
| MachineLaws.BuilderAgreesWithTable | include/Task/StateMachine.hpp:46-60 | a machine built by `add` and `init` equals, in success, states and replies of every later run, the one constructed from the first-wins table; `init` succeeds exactly for a state some call names |
| StateMachineObjects.EventAggregator.Add | include/Task/MessageEventAggregator.hpp:51-53 | an emplace in place: an existing entry stays |
| StateMachineObjects.StateMachine.At | include/Task/StateMachine.hpp:56 | the row object of a state: the one already there, or a new empty one added to the table |
| StateMachineObjects.StateMachine.Emplace | include/Task/StateMachine.hpp:56 | an emplace into a shared row object changes that row of the table and no other |
| StateMachineObjects.StateMachine.Add | include/Task/StateMachine.hpp:54-57 | adds in place to the shared row object, keeps the row pointer valid and every other row's identity |
| StateMachineObjects.StateMachine.SetState | include/Task/StateMachine.hpp:62-72 | stores state and row together; the table's view and the error are those of the specification |
| StateMachineObjects.StateMachine.RunActs | include/Task/StateMachine.hpp:62-72 | calls a handler makes on its own machine, up to the first that throws |
| StateMachineObjects.StateMachine.Publish | include/Task/StateMachine.hpp:76-90 | publish through the row pointer of shared row objects does what the specification does on values |
| EventTaskLaws.EveryRunIsTheFold | include/Task/EventTaskBase.hpp:215-257 | in every interleaving the machine is the sequential fold of the handled prefix of the enqueue log, the queue is the rest, and promise i holds the fold's output i exactly when message i has been answered |
| EventTaskLaws.SameLogSameReplies | include/Task/EventTaskBase.hpp:215-232 | two runs with the same enqueue log agree on machine and replies, whatever the schedules |
| EventTaskLaws.EveryRunIsTheMealyMachine | include/Task/StatementTask.hpp:38-65 | the machine is in the Mealy state of the handled prefix and each reply is the Mealy output at its position in the log, with `init` and `set_state` calls from outside between the turns, for table-constructed and for built tasks; a table-constructed one always has a state |
| EventTaskLaws.EveryRunOfBuiltTaskIsTheMealyMachine | include/Task/StatementTask.hpp:43-61 | a task built with `on` calls that `start` initialises after any number of messages answers those "not initialized" without moving, and from the initial state on is the Mealy machine of the first-wins table |
| EventTaskLaws.RpcIsABarrier | include/Task/EventTaskBase.hpp:121-134 | a waiting caller can return exactly when its own message has been answered; then all earlier messages have been handled and it gets the output at its position |
| EventTaskLaws.PromisesAreSetOnce | include/Task/EventTaskBase.hpp:218-232 | no promise is ever set twice and a fulfilled one never changes |
| EventTaskLaws.TimeoutIsHarmless | include/Task/EventTaskBase.hpp:126-132 | a timed-out request stays queued and is answered at its place in every later run, without a second set |
| EventTaskLaws.FoldStopsAtInternalStop | include/Task/EventTaskBase.hpp:239-253 | only an internal Stop stops the loop; external commands of the same number do not |
| EventTaskLaws.LoopEndsAtFirstStop | include/Task/EventTaskBase.hpp:215-237 | nothing after the first internal Stop is handled; at loop exit the answered messages are exactly those up to it and `on_finish` has run once |
| EventTaskLaws.StopReturnsAfterFinish | include/Task/EventTaskBase.hpp:168-177 | `stop()` returns only after `on_finish`, and its own Stop is the message that ended the loop |
| EventTaskLaws.WaitingReturnsIffNoStopBefore | include/Task/EventTaskBase.hpp:121-134 | when neither loop nor senders can go on, a waiting caller can return exactly when no internal Stop stands before its message |
| EventTaskLaws.NothingHandledAfterFinish | include/Task/EventTaskBase.hpp:215-237 | after the loop has ended no message is answered in any later run, and a caller waiting without timeout for an unanswered one stays where it is |
| EventTaskLaws.RpcBehindStopHangs | include/Task/EventTaskBase.hpp:121-134 | a concrete run of every task in which an RPC without timeout is enqueued behind the Stop and its caller never returns |
| EventTaskLaws.LoopMakesProgress | include/Task/EventTaskBase.hpp:215-237 | each loop step lowers a measure that only a push, a notification or a spurious wakeup raises, and the loop is stuck only when it ended, when all messages are answered, or while a sender inside the queue can step |
| EventTaskLaws.LoopSleepsOnlyWhenDone | include/Message/SynchronizedDeque.hpp:28-44 | with the mutex free a waiting loop has an empty queue and has answered everything enqueued |
| EventTaskCalls.EveryMessageIsItsCall | include/Task/EventTaskBase.hpp:104-201 | every log entry comes from its own call and carries what that call was given: events external with the caller's request, a promise exactly for calls that want a reply, `start` and `stop` the internal commands 0 and 1; each client's calls in its own order, each once |
| EventTaskCalls.ReturnedCallsAreDone | include/Task/EventTaskBase.hpp:121-201 | a returned RPC was answered, or timed out if it could; a returned `start` was answered; a returned `stop` has joined after `on_finish` |
| EventTaskCalls.EventIsOneMealyStep | include/Task/EventTaskBase.hpp:179-201 | each `send_event` and `rpc_event` moves a table-driven machine by one Mealy step on the caller's own request, and an RPC's promise gets its output; `start` and `stop` move nothing |
| EventTaskCalls.InternalCallsAreAnswered | include/Task/EventTaskBase.hpp:161-177 | an answered `stop` is told a value, an answered `start` a value or exactly what `on_start` threw |
| EventTaskCalls.OnlyStopStops | include/Task/EventTaskBase.hpp:239-253 | the loop is stopped exactly when a call of `stop` has been handled; no event stops it, whatever its command |
| EventTaskCalls.CallersGoOn | include/Task/EventTaskBase.hpp:104-201 | no caller is stuck but for the mutex, an answer not given, or the join; a waiting RPC can time out exactly if it has a time-out and no answer |
| EventTaskObjects.EventTask.Send | include/Task/EventTaskBase.hpp:110-119 | a sender makes its promise, if any, with its message and appends the message |
| EventTaskObjects.EventTask.ProcessInternalCommand | include/Task/EventTaskBase.hpp:239-253 | Start runs `on_start`, Stop raises the flag, other commands do nothing |
| EventTaskObjects.EventTask.Process | include/Task/EventTaskBase.hpp:218-232 | one message processed on the object: state and reply are the fold's |
| EventTaskObjects.EventTask.SetReply | include/Task/EventTaskBase.hpp:225-231 | the message's own promise, and no other, gets the reply, and the object again agrees with the fold |
| EventTaskObjects.EventTask.Turn | include/Task/EventTaskBase.hpp:217-232 | one turn of the loop: the front message is popped, processed and answered, and only a Stop stops |
| EventTaskObjects.EventTask.MainLoop | include/Task/EventTaskBase.hpp:215-237 | the loop handles the queue in order and keeps the rest, no message but the last one handled being a Stop; it ends by a Stop or blocks on an empty queue, leaves machine and promises as the fold says, and runs `on_finish` once if it ended |
| EventTaskObjects.UpToStopMeans | include/Task/EventTaskBase.hpp:216 | what MainLoop handles: only the last message can be a Stop, and without one it is the whole queue |
| EventTaskObjects.SettledMeans | include/Task/EventTaskBase.hpp:225-231 | the promises MainLoop leaves: the fold's output for each handled message, pending for all others |
| SynchronizedDeques.EveryRunIsFifo | include/Message/SynchronizedDeque.hpp:28-57 | one thread inside at a time, messages leave in order and once each, and with the lock free nobody waits on a non-empty queue |
| SynchronizedDeques.StepRefinesAtomicQueue | include/Message/SynchronizedDeque.hpp:17-67 | a step with an event is the mutex holder's, its event, read from its own buffer, is one the atomic queue can have now, and the contents are those after it; other steps leave the contents alone |
| SynchronizedDeques.EveryRunIsLinearizable | include/Message/SynchronizedDeque.hpp:17-67 | in every run the events of the calls, in their order, are a run of an atomic FIFO queue ending in the present contents; each thread alternates call, one event under the lock, return of its result; and what a thread's calls returned, with the message in its hand, is in order what was popped for it |
| SynchronizedDeques.ReturnFollowsItsEffect | include/Message/SynchronizedDeque.hpp:28-67 | every return has its call, its last lock and, between that lock and the return, exactly one event, which the operation permits and whose result it returns; an empty result follows only a timed wait that has waited its time and then found the queue empty |
| SynchronizedDeques.QueuedMessageIsReceivable | include/Message/SynchronizedDeque.hpp:40-52 | with a message queued and a receiver waiting some thread can step without luck or new callers |
| SynchronizedDeques.ThreadsGoOn | include/Message/SynchronizedDeque.hpp:28-67 | no thread is stuck but for the mutex or its wait, and exactly timed waits can time out |
| SynchronizedDeques.SynchronizedDeque.PushBack | include/Message/SynchronizedDeque.hpp:28-38 | appends, as one step of the monitor |
| SynchronizedDeques.SynchronizedDeque.IsNotEmpty | include/Message/SynchronizedDeque.hpp:23 | the wait predicate decides whether the receiver goes on to pop |
| SynchronizedDeques.SynchronizedDeque.GetFront | include/Message/SynchronizedDeque.hpp:17-21 | after a check under the same lock the deque is non-empty at both steps, the copied message is the one popped, and it is delivered to this thread |
| SynchronizedDeques.SynchronizedDeque.Clear | include/Message/SynchronizedDeque.hpp:54-57 | empties the deque, recording what it drops |
| TaskPoolLaws.NothingLostNothingTwice | lib/Task/TaskPool.cpp:22-89 | conservation and FIFO of the deque, one holder per task, at most one call per task, the counter counts workers between ++ and -- and stays in range, the spin branch is unreachable, no lost wakeup |
| TaskPoolLaws.StopDrains | lib/Task/TaskPool.cpp:28-37 | when stop() has joined at least one worker, every task pushed before stop_ was set was called once and completed, or cleared, and no worker holds one |
| TaskPoolLaws.AtRestAllDone | lib/Task/TaskPool.cpp:62-89 | before stop, a pool at rest has an empty deque and every task ever enqueued was completed by exactly one call or cleared |
| TaskPoolLaws.WorkDecreasesAfterStop | lib/Task/TaskPool.cpp:64-88 | after stop_ every worker step, spurious wakeups included, lowers a measure and only a push raises it |
| TaskPoolLaws.QuiescentMeans | lib/Task/TaskPool.cpp:62-89 | a pool counts as at rest exactly when no client holds the lock and no worker has a step other than a spurious wakeup |
| TaskPoolLaws.OnlyLateParkersRemain | lib/Task/TaskPool.cpp:28-30 | at rest after the notification every worker has exited or checked before stop_ and parked after the notification |
| TaskPoolLaws.LateParkerHangsStop | lib/Task/TaskPool.cpp:28-37 | such a worker waits and stop() does not return through any run without a later enqueue's notification or a spurious wakeup |
| TaskPoolLaws.StopReachesAllIffNoneParking | lib/Task/TaskPool.cpp:28-30 | no worker waits in any continuation of a `stop()` past its notification exactly when none stands between check and wait at the moment stop_ is set |
| TaskPoolLaws.StopReturnsWhenNoneParking | lib/Task/TaskPool.cpp:28-37 | if none stands there when stop_ is set, a pool at rest after the notification has lost all its workers and the joins go through |
| TaskPoolLaws.StopCanHang | lib/Task/TaskPool.cpp:28-30 | a concrete run of a one-worker pool after which stop() never returns |
| TaskPoolCalls.CallsAreWhole | lib/Task/TaskPool.cpp:22-55 | the pushed tasks are the callers' own, in order; a returned enqueue pushed once under the lock and notified, a returned clear emptied the deque once |
| TaskPoolCalls.EnqueuedTasksAreCalled | lib/Task/TaskPool.cpp:22-37 | when stop() has returned, each task an enqueue had pushed before stop_ was set was dropped by a clear or called once and completed |
| TaskPoolCalls.CallersGoOn | lib/Task/TaskPool.cpp:22-55 | no caller of enqueue or clear is stuck but for the mutex |
| TaskPoolCalls.StopGoesOn | lib/Task/TaskPool.cpp:28-37 | stop() can go on until it has returned, unless it joins a live worker; then all workers have exited |
| TaskPoolObjects.TaskPool.EmplaceBack | lib/Task/TaskPool.cpp:22-26 | enqueue under its lock |
| TaskPoolObjects.TaskPool.ClearWaitingTasks | lib/Task/TaskPool.cpp:52-55 | empties the deque; every enqueued task is accounted for |
| TaskPoolObjects.TaskPool.RaiseStop | lib/Task/TaskPool.cpp:28-29 | sets stop_ without the lock, as one step |
| TaskPoolObjects.TaskPool.HasWork | lib/Task/TaskPool.cpp:82 | the wait predicate decides between taking and waiting |
| TaskPoolObjects.TaskPool.TakeTask | lib/Task/TaskPool.cpp:83-88 | pops the front task, which this worker now carries; the empty callable is returned only with stop_ set |
| TaskPoolObjects.TaskPool.BeginTask | lib/Task/TaskPool.cpp:71 | the counter's ++, never above the worker count |
| TaskPoolObjects.TaskPool.EndTask | lib/Task/TaskPool.cpp:73 | the counter's --, never below zero |
| EventFlags.EveryRunOfFlag | lib/Sync/EventFlag.cpp:7-30 | the pattern is the OR of all set arguments; when OR and AND conditions hold; successful AND patterns form an increasing chain; with no setter before its notification nobody waits for a condition that holds |
| EventFlags.ConditionsOverTime | lib/Sync/EventFlag.cpp:7-12 | an OR condition stays true; a bit set outside the wanted pattern makes the AND condition false for ever |
| EventFlags.EqualityStillPossibleIff | lib/Sync/EventFlag.cpp:7-12 | with the mutex free and a thread outside, an AND condition can become true in some continuation exactly when no bit outside its pattern is set |
| EventFlags.AnnouncedEqualityCanBeMissed | lib/Sync/EventFlag.cpp:14-30 | a concrete run in which a waiter is notified while its equality holds, a second `set` comes first, and it waits for ever |
| EventFlagCalls.WaitReturnsItsCondition | lib/Sync/EventFlag.cpp:7-22 | a wait ends by the thread's own last check, with `true` exactly if the bits stored until then equal (AND) or meet (OR) the wanted ones; with `false` only if it is timed and has timed out since its call |
| EventFlagCalls.OnlyWaitsReturn | lib/Sync/EventFlag.cpp:14-22 | a result is returned exactly by the unlock that ends a wait |
| EventFlagCalls.CallsAreWhole | lib/Sync/EventFlag.cpp:14-30 | the pattern is what the set calls' arguments stored; a returned set stored under the mutex and notified after releasing it |
| EventFlagCalls.TimedOutWaitEnds | lib/Sync/EventFlag.cpp:19-22 | a wait whose time is up only takes the mutex, checks once more and returns |
| EventFlagCalls.MetEqualitiesFormChain | lib/Sync/EventFlag.cpp:7-12 | the patterns of the AND waits that found theirs form an increasing chain below all that is stored |
| EventFlagCalls.ThreadsGoOn | lib/Sync/EventFlag.cpp:14-30 | no thread is stuck but for the mutex or its wait, and exactly timed waits can time out |
| EventFlags.EventFlag.Matches | lib/Sync/EventFlag.cpp:7-12 | the wait predicate: AND is equality, OR is intersection |
| EventFlags.EventFlag.OrIn | lib/Sync/EventFlag.cpp:24-28 | the locked part of set, after which a notification is due |
| BackGroundWorkers.EveryRunIsAccounted | lib/Task/BackGroundWorker.cpp:14-92 | rising edges are cycles plus one if busy, executions never exceed requests, report i has execution i's cancel mark and result and the code it threw, or success, not busy means all reported, no lost wakeup |
| BackGroundWorkers.ExecutionsAreIdleRequests | lib/Task/BackGroundWorker.cpp:36-40 | over every run the executions begun are the requests that found the worker idle, minus one while the last of them is still to begin |
| BackGroundWorkers.CancelSeenIffNoClearPending | lib/Task/BackGroundWorker.cpp:42-92 | the execution in progress, or else the next, sees a cancel exactly when no clearing of the flag was pending at the time |
| BackGroundWorkers.CancelOfRequestedRunCanBeLost | lib/Task/BackGroundWorker.cpp:79-84 | a concrete run from the initial worker in which a requested and then cancelled run executes with no cancellation pending |
| BackGroundWorkerCalls.CallsAreWhole | lib/Task/BackGroundWorker.cpp:25-40 | the locked part of run_task_async raises running_ alone, that of the destructor stop_ alone; a returned call has done it once and notified |
| BackGroundWorkerCalls.NothingBeginsAfterStop | lib/Task/BackGroundWorker.cpp:14-22 | once stop_ is set no execution begins in any run |
| BackGroundWorkerCalls.StopBringsExitNearer | lib/Task/BackGroundWorker.cpp:14-22 | once stop_ is set every worker step brings the worker nearer to its exit and nothing takes it away |
| BackGroundWorkerCalls.AskedWorkerCanStep | lib/Task/BackGroundWorker.cpp:61-64 | asked to run or stop, with no client inside the lock, the worker can step until it has exited, which it only does when stopped |
| BackGroundWorkerCalls.ClientsGoOn | lib/Task/BackGroundWorker.cpp:25-48 | no client is stuck but for the mutex |
| BackGroundWorkers.BackGroundWorker.RequestRun | lib/Task/BackGroundWorker.cpp:36-40 | run_task_async under its lock |
| BackGroundWorkers.BackGroundWorker.RequestStop | lib/Task/BackGroundWorker.cpp:25-30 | the destructor under its lock |
| BackGroundWorkers.BackGroundWorker.CancelAsync | lib/Task/BackGroundWorker.cpp:46-48 | raises the flag without the lock |
| BackGroundWorkers.BackGroundWorker.MayWake | lib/Task/BackGroundWorker.cpp:61-64 | the condition sleep waits for |
| BackGroundWorkers.BackGroundWorker.ClearAfterReport | lib/Task/BackGroundWorker.cpp:89-91 | after a report both flags end clear and the cycle is counted |
| BackGroundWorkers.BackGroundWorker.OnTaskCompleted | lib/Task/BackGroundWorker.cpp:77-92 | one report if there is a handler, with the execution's cancel mark, result and thrown code, both flags clear, one cycle counted |
| Timers.GenerationsDoNotMix | lib/Timer/Timer.cpp:10-50 | at most one live timer thread, a thread only sees the flag its own start raised, thread_ is never overwritten, listeners are called in order round by round |
| Timers.NoRoundAfterStop | lib/Timer/Timer.cpp:39-43 | with the flag down no thread is admitted to another round |
| Timers.SilenceAfterWait | lib/Timer/Timer.cpp:45-50 | after wait_for_stop nothing is called until the next start |
| Timers.OneRoundPerStart | lib/Timer/Timer.cpp:24-35 | without auto-restart each start yields at most one round of its snapshot |
| Timers.StartIsIgnoredIffUncleared | lib/Timer/Timer.cpp:10-43 | after any run a `start()` is without effect exactly when an earlier one took effect and no stop has cleared the flag since, whatever the thread does |
| Timers.EndedTimerIgnoresStart | lib/Timer/Timer.cpp:10-36 | a concrete run after which the only thread has ended, the flag is up and `start()` changes nothing |
| TimerCalls.ThreadsCallAddedListeners | lib/Timer/Timer.cpp:18-31 | a thread past its copy has as snapshot exactly the listeners added before the step of that copy, in order, and has called a prefix of their repetition |
| TimerCalls.OneShotCallsEveryListener | lib/Timer/Timer.cpp:18-36 | without auto-restart a start whose round is over has called every listener added before its copy, once each, in order, and nobody else |
| TimerCalls.CallsAreWhole | lib/Timer/Timer.cpp:10-50 | after start the timer is active, after stop not, after wait_for_stop besides every thread has ended |
| TimerCalls.AutoRestartKeepsRunning | lib/Timer/Timer.cpp:32-34 | with auto-restart on and no stop a live thread goes on from round to round |
| TimerCalls.CallsGoOn | lib/Timer/Timer.cpp:10-50 | the controller is only stuck joining a live thread, and a live thread can always step |
| Timers.TimerObject.AddListenerTo | include/Timer.hpp:31-34 | the listener goes to the back and started threads keep the list they copied |
| Timers.TimerObject.Start | lib/Timer/Timer.cpp:10-37 | no effect if active, whether or not its thread still runs; else one new thread after all earlier ones ended |
| Timers.TimerObject.Stop | lib/Timer/Timer.cpp:39-43 | lowers the flag and leaves the threads alone |
| Timers.TimerObject.InvokeAll | lib/Timer/Timer.cpp:29-31 | one round calls every listener of the snapshot once, in order |
| EventTaskManagers.RoutingIsProjection | include/Task/EventTaskManager.hpp:47-134 | each task received exactly the sends whose name meant it at that point, in order, and the table is the log's bindings |
| EventTaskManagers.BindingIsTheLastChange | include/Task/EventTaskManager.hpp:47-60 | a name means a task exactly when a registration gave it and no later change named it |
| EventTaskManagers.LaterEventsOnlyAppend | include/Task/EventTaskManager.hpp:47-98 | rebinding affects only later sends |
| EventTaskManagers.NoChangeDuringRpc | include/Task/EventTaskManager.hpp:104-118 | while an RPC is outstanding the table is constant and no thread can take the exclusive lock |
| EventTaskManagerCalls.RoutingIsProjectionOfCalls | include/Task/EventTaskManager.hpp:47-134 | each task received exactly the callers' own requests, in order, of the calls whose name meant it by the registrations in effect |
| EventTaskManagerCalls.CallsAreWhole | include/Task/EventTaskManager.hpp:47-118 | a returned registration wrote once under the exclusive lock; a send looked up once under the shared one; a found RPC kept that lock until its reply or time-out |
| EventTaskManagerCalls.ReturnsWhatItFound | include/Task/EventTaskManager.hpp:127-134 | a send or RPC reports an unknown name exactly if the name meant no task when it looked it up |
| EventTaskManagerCalls.NoChangeWhileUnanswered | include/Task/EventTaskManager.hpp:104-118 | from the routing of an RPC to its reply or time-out the table is constant and nobody can take the exclusive lock, in every run |
| EventTaskManagerCalls.ThreadsGoOn | include/Task/EventTaskManager.hpp:47-118 | a writer waits exactly for lock holders, a reader exactly for a writer, and whoever holds a lock can step |
| EventTaskManagers.EventTaskManager.Change | include/Task/EventTaskManager.hpp:52-60 | insert_or_assign or erase of one name, with no RPC outstanding |
| EventTaskManagers.EventTaskManager.FindAndSend | include/Task/EventTaskManager.hpp:88-134 | the request reaches the task its name is bound to; an unknown name is reported and delivers nothing |
| EnumBitsets.BitPositionIsLowest | include/Templates/EnumBitset.hpp:130-132 | the position of a non-zero value is its lowest one-bit, signed types included |
| EnumBitsets.EditTouchesLowestBit | include/Templates/EnumBitset.hpp:53-100 | below MaxBits, set adds the value's lowest one-bit to the positions, reset takes it out, flip does the one or the other, with all other positions unchanged; at or above it they throw; and test sees the result |
| EnumBitsets.ZeroIsIgnored | include/Templates/EnumBitset.hpp:53-100 | the zero enumerator changes nothing, throws nothing and tests as not set |
| EnumBitsets.EditTwice | include/Templates/EnumBitset.hpp:53-87 | flip twice is nothing, set or reset twice is once |
| EnumBitsets.RoundTrips | include/Templates/EnumBitset.hpp:28-31 | rebuilding from to_enum gives the bitset back for every signedness and MaxBits; a value comes back exactly when it has no bit at or above MaxBits |
| EnumBitsets.ConstructIsSetIffSingleBit | include/Templates/EnumBitset.hpp:28-59 | for every value, constructing from it and setting it in an empty bitset agree without an exception exactly when it is zero or has exactly one bit below MaxBits |
| EnumBitsets.EnumBitset.FromList | include/Templates/EnumBitset.hpp:28-29 | the union of the listed values' positions below MaxBits |
| EnumBitsets.EnumBitset.OrAll | include/Templates/EnumBitset.hpp:120-127 | the loop computes the union of the values' positions |
| EnumBitsets.EnumBitset.EditAt | include/Templates/EnumBitset.hpp:53-87 | set adds, reset removes, flip inverts the lowest one-bit in place, or the exception with nothing changed |
| EnumBitsets.EnumBitset.TestAt | include/Templates/EnumBitset.hpp:93-100 | membership of the lowest one-bit, or the exception |
| EnumBitsets.EnumBitset.OrWith | include/Templates/EnumBitset.hpp:38-41 | the union of the positions |
| Deadlines.DeadlineIsExact | include/Message/PosixMessageQueue.hpp:49-57 | the result is now plus ms to the nanosecond for every ms, and normalised exactly when nothing must be borrowed |
| Deadlines.DeadlineIsMonotone | include/Message/PosixMessageQueue.hpp:49-57 | later now or longer timeout gives a later deadline |
| Deadlines.NegativeTimeoutExample | include/Message/PosixMessageQueue.hpp:49-57 | a negative timeout with an unnormalised result |
| Deadlines.ToAbsTimespec | include/Message/PosixMessageQueue.hpp:49-57 | the steps in place, with no 64-bit overflow, give a normalised and exact deadline |

## Left out

- Subprocess code, the POSIX message queue calls, `Property`, `EnumOperations`, the exception classes, `TaskBase` and the queue factory: calls into the system, or wrappers.
- Time: a sleep or a timeout is a step that may happen whenever it is enabled; durations are not modelled.
- The C++ memory model and object lifetimes: steps are sequentially consistent; threads that start in a constructor or outlive a derived object are not modelled.
- Two `stop()` calls at the same time, and `stop()` or an RPC from the task's own loop thread: excluded, as racing or blocking on themselves. `init` and `set_state` calls from other threads fall between two turns of the loop, not inside a handler's run; in the object EventTask there are none.
- A handler that calls `publish` on its own machine or catches a failure of its own `set_state`, and a callback that re-enters the machine.
- Handlers that throw in a pool task, `on_finish` or (outside the framework's exceptions) a background task end the process and are assumed away; so are empty callables in the pool.
- EventFlag words are sets of bit positions and EnumBitset words sequences of bits, so `|` and `&` are union and intersection by definition.
- EnumBitset: the whole-set operations, `&=`, `^=`, `count`, comparisons and `operator~`, which are pointwise or do not compile.
- BackGroundWorker's progress field, which the code only ever sets to zero, and `reports_progress`, which only forwards.
- Queries that read one field under a lock (`has_task`, `task_names`, `count_waiting_tasks`), and the null test of `register_task`, which throws before anything is touched.
- ToAbsTimespec: requires a non-negative duration whose nanoseconds and resulting seconds fit 64 bits; for others the arithmetic is `DeadlineIsExact`, and overflow in the source is undefined behaviour.
