# Repeater scheduler: a Dafny model

This project models the scheduling core of a small Java service. The service runs a callback a fixed number of times at a fixed interval on a pool of worker threads. The core parts are:

- **Repeat task** (`RepeaterTaskImpl`). It holds an occurrence counter `repeatNumber`, a launch time `startAfterTime` on the monotonic clock, and a `TaskFuture`. Each execution attempt passes the counter to the callback and bumps it by one. Rescheduling uses the clamp rule `max(prev + delay, now)`.
- **Completion slot** (`TaskFuture`, and its near-copy `RepeaterFutureImpl`). It is a finished flag plus an error slot, and the first signal wins. `await` raises the stored error: `TaskFuture` always wraps it, and `RepeaterFutureImpl` rethrows a `RuntimeException` as it is.
- **Delay queue** (`RepeaterTaskQueue`). A priority collection keyed by launch time, plus the designated-waiter field `timerWaiter`. Of all idle workers, only the designated waiter sleeps on the timer for the head's due time.
- **Worker iteration** (`RepeaterWorker`). After a run, the worker drops the task (its future holds an error), reschedules and re-adds it (occurrences remain), or completes it.
- **Facade** (`Repeater`). `init` and `shutdown` toggle the running flag. `repeat` checks the flag, then the count, then converts the delay from milliseconds to nanoseconds and enqueues one task.
- **The earlier single-class service** (`RepeatService`). It expands a request into one queue item per occurrence, all sharing one `CountDownLatch`. A worker removes the head once it is strictly overdue. It appends one history record and counts the latch down.

Locks, condition variables and blocking are not modelled. Each operation that runs under the queue lock is one atomic step. The step *returns* what it would signal (`NoSignal`, `SignalIdle`, `SignalTimer`) or wait on (`Idle`, `Timer(nanos)`), or the task it hands out. The clock reading `now` and the calling thread's id are parameters. The callback is a total function from the occurrence index to "returned" (`None`) or "threw `e`" (`Some(e)`).

A priority queue is a sequence of elements whose order means nothing. Its head is an element with the smallest key. Contracts only ever claim "a minimum": which of several equal keys Java's `PriorityQueue` hands out is left open. In `RepeatService` the head is an item chosen among those with the smallest launch time without saying which (`RepeatServices.IsHead`). `addTask` asks `priorityQueue.peek() == repeaterTask` after adding the task. The model answers this with the binary heap's sift-up rule: an element moves up only past strictly larger parents. So the new task becomes the head exactly when the queue was empty or its launch time is below the old minimum (`TaskQueues.BecomesHead`).

`WaiterProtocol` lifts the queue step to any number of threads. A world holds the `timerWaiter` field and where each thread is parked. Any thread may take a step at any time, which over-approximates wake-ups by signal, timeout or spurious wake-up. The proved invariant is that every thread asleep on `timerWait` is the designated waiter. Hence at most one thread sleeps on the timer after any trace. `addTask` changes neither the waiter nor any thread's status, so it is not an event there.

Files: `wrappers.dfy` (Option), `ordering.dfy`, `completion.dfy` (the slot as values), `task_future.dfy`, `repeater_future.dfy`, `repeater_task.dfy`, `task_queue.dfy`, `waiter_protocol.dfy`, `worker.dfy`, `repeater.dfy`, `repeat_service.dfy`.

The Java files come from different stages of the code's history, and the model follows each file as written:

- `Repeater` uses `RepeaterQueue` and `RepeaterQueueItem`, and hands back a `RepeaterFutureImpl`. `RepeaterQueue`, `RepeaterQueueItem` and the `RepeaterFuture` interface (with `EMPTY_TASK`) are not part of this model. The facade is therefore modelled over `RepeaterTaskQueue` and `RepeaterTaskImpl`. The handle it returns is the task itself, whose `await` delegates to its `TaskFuture` (RepeaterTaskImpl.java:23-26), or the already-complete empty task.
- `RepeaterTaskImpl` reads the clock through `TimeUtils.nowNanoTime()`, but `TimeUtils` defines `now()`. In both cases it is a monotonic clock reading, passed in as `now`.
- `RepeaterWorker` takes its task from `RepeaterQueue`, which is not part of this model, and not from `RepeaterTaskQueue`. Its `catch (InterruptedException e)` (RepeaterWorker.java:36-38) implies that `RepeaterQueue.awaitNextTask` may throw on an interrupt, and that branch ends the loop. `RepeaterTaskQueue.awaitNextTask` instead returns null after an interrupt (RepeaterTaskQueue.java:86-90). Were that queue used, `tryExecute` on the null would throw a `NullPointerException`; the catch-all would log it, and the restored interrupt flag would end the loop. Which path applies depends on `RepeaterQueue`, which this model does not cover. Either way the loop ends: `Workers.RunOnce` models the outcome as `Stopped`.
- Java's `PriorityQueue` is not stable, so the model claims no order among equal launch times.

## Model

| member | source | states |
|---|---|---|
| Ordering.Compare | src/main/java/org/example/utils/repeater/RepeaterTaskImpl.java:30 | `Long.compare`: the sign is negative, zero or positive exactly as the first timestamp is below, equal to or above the second |
| Ordering.CompareIsOrder | src/main/java/org/example/utils/repeater/RepeaterTaskImpl.java:28-31 | the comparison is antisymmetric and transitive, as `Comparable` requires |
| Ordering.ArgMin | src/main/java/org/example/utils/repeater/RepeaterTaskQueue.java:18 | the position the priority queue's head comes from holds a key no larger than any other key |
| Completion.AfterComplete | src/main/java/org/example/utils/TaskFuture.java:28-33 | completing finishes the slot and keeps the stored error, whatever it is |
| Completion.AfterError | src/main/java/org/example/utils/TaskFuture.java:35-46 | an unfinished slot stores the error and finishes; a finished slot is unchanged (protection against overwriting) |
| Completion.FinishedIsFrozen | src/main/java/org/example/utils/TaskFuture.java:38-40 | once finished, no sequence of later completions or errors changes the slot |
| Completion.FirstSignalWins | src/main/java/org/example/utils/TaskFuture.java:28-46 | from a fresh slot the first signal alone decides the result: error then complete still reports the error, complete then error reports none |
| Completion.TaskAwait | src/main/java/org/example/utils/TaskFuture.java:16-26 | `await` waits while unfinished; once finished it returns iff no error is stored and otherwise raises a RuntimeException whose cause is the stored error |
| Completion.RepeaterAwait | src/main/java/org/example/utils/repeater/RepeaterFutureImpl.java:17-31 | once finished, `await` returns iff no error; a stored RuntimeException is raised as the same object, any other error wrapped in a RuntimeException; the raised exception is always unchecked |
| Completion.AwaitIsStable | src/main/java/org/example/utils/repeater/RepeaterFutureImpl.java:19-23 | after finishing, repeated awaits of either future, whatever signals come later, give the same outcome |
| TaskFutures.TaskFuture.constructor | src/main/java/org/example/utils/TaskFuture.java:13-14 | a new future is not finished and has no error |
| TaskFutures.TaskFuture.SignalComplete | src/main/java/org/example/utils/TaskFuture.java:28-33 | the new state is AfterComplete of the old: finished, error kept |
| TaskFutures.TaskFuture.SignalError | src/main/java/org/example/utils/TaskFuture.java:35-46 | the new state is AfterError of the old: first writer wins |
| TaskFutures.TaskFuture.HasError | src/main/java/org/example/utils/TaskFuture.java:48-52 | `hasError` holds exactly when a finished `await` would raise |
| TaskFutures.TaskFuture.Await | src/main/java/org/example/utils/TaskFuture.java:16-26 | one evaluation of `await` gives TaskAwait of the current state; the raised exception wraps the stored error |
| RepeaterFutures.RepeaterFuture.constructor | src/main/java/org/example/utils/repeater/RepeaterFutureImpl.java:13-14 | a new future is not finished and has no error |
| RepeaterFutures.RepeaterFuture.SignalComplete | src/main/java/org/example/utils/repeater/RepeaterFutureImpl.java:33-38 | finished, any stored error kept |
| RepeaterFutures.RepeaterFuture.SignalError | src/main/java/org/example/utils/repeater/RepeaterFutureImpl.java:40-51 | stores the error only if not yet finished; later calls change nothing |
| RepeaterFutures.RepeaterFuture.HasError | src/main/java/org/example/utils/repeater/RepeaterFutureImpl.java:53-57 | `hasError` holds exactly when a finished `await` would raise |
| RepeaterFutures.RepeaterFuture.Await | src/main/java/org/example/utils/repeater/RepeaterFutureImpl.java:17-31 | one evaluation of `await` gives RepeaterAwait of the current state |
| RepeaterTasks.IndicesAre | src/main/java/org/example/utils/repeater/RepeaterTaskImpl.java:33-39 | after n attempts the callback has received exactly 0, 1, ..., n - 1, in that order |
| RepeaterTasks.IndicesStrictlyIncrease | src/main/java/org/example/utils/repeater/RepeaterTaskImpl.java:39 | the indices handed to the callback strictly increase |
| RepeaterTasks.NextLaunchTime | src/main/java/org/example/utils/repeater/RepeaterTaskImpl.java:61-77 | the clamp rule gives a time no earlier than now and no earlier than prev + delay, equal to one of them, and for a non-negative delay never earlier than prev |
| RepeaterTasks.RepeaterTask.constructor | src/main/java/org/example/utils/repeater/RepeaterTaskImpl.java:9-21 | a new task has repeatNumber 0, no callback calls, launch time equal to the creation-time clock value, a fresh unfinished future, and with a count of at least one is Ready |
| RepeaterTasks.RepeaterTask.CompareTo | src/main/java/org/example/utils/repeater/RepeaterTaskImpl.java:28-31 | tasks are ordered by launch time and by nothing else |
| RepeaterTasks.RepeaterTask.TryExecute | src/main/java/org/example/utils/repeater/RepeaterTaskImpl.java:33-47 | the callback gets the old repeatNumber, which goes up by exactly one even when the callback throws; a throw is stored in the future by SignalError, a normal return leaves the future and the launch time untouched |
| RepeaterTasks.RepeaterTask.HasError | src/main/java/org/example/utils/repeater/RepeaterTaskImpl.java:49-51 | holds iff the task's future stores an error, and then the future is finished |
| RepeaterTasks.RepeaterTask.SignalComplete | src/main/java/org/example/utils/repeater/RepeaterTaskImpl.java:53-55 | the future finishes, keeping any stored error |
| RepeaterTasks.RepeaterTask.TimeUntilNextRun | src/main/java/org/example/utils/repeater/RepeaterTaskImpl.java:57-59 | at most zero exactly when the task is due at `now`; otherwise the exact wait until its launch time |
| RepeaterTasks.RepeaterTask.CalculateAndSetNextLaunchTime | src/main/java/org/example/utils/repeater/RepeaterTaskImpl.java:61-78 | the new launch time is NextLaunchTime of the old one, the delay and now, hence never before now |
| RepeaterTasks.RepeaterTask.HasNext | src/main/java/org/example/utils/repeater/RepeaterTaskImpl.java:80-82 | holds iff the callback has been called fewer times than the requested count |
| TaskQueues.MinTime | src/main/java/org/example/utils/repeater/RepeaterTaskQueue.java:51 | the head's launch time is absent iff the queue is empty, and otherwise is the launch time of some task and no larger than any task's |
| TaskQueues.AddSignal | src/main/java/org/example/utils/repeater/RepeaterTaskQueue.java:28-38 | a signal is sent iff the added task becomes the head; it goes to an idle worker only when nobody is designated, and to the timer only when someone is |
| TaskQueues.Released | src/main/java/org/example/utils/repeater/RepeaterTaskQueue.java:107-111 | the caller does not hold the role afterwards, and a role held by another thread is untouched |
| TaskQueues.Decide | src/main/java/org/example/utils/repeater/RepeaterTaskQueue.java:50-85 | a task is taken iff the head is due; a timer wait lasts exactly until the head is due and only while nobody else is designated; a non-empty queue parks the caller idle only behind another designated waiter |
| TaskQueues.WaiterAfter | src/main/java/org/example/utils/repeater/RepeaterTaskQueue.java:53-84 | after a pass a head not yet due always has a designated waiter; a timer wait makes the caller the waiter; taking the head, or finding the queue empty, releases the caller's role; an idle park behind another waiter leaves the field as it was; the field changes only to or from the caller |
| TaskQueues.RepeaterTaskQueue.constructor | src/main/java/org/example/utils/repeater/RepeaterTaskQueue.java:18-21 | a new queue is empty with no designated waiter |
| TaskQueues.RepeaterTaskQueue.AddTask | src/main/java/org/example/utils/repeater/RepeaterTaskQueue.java:23-42 | the multiset of tasks grows by exactly the added task; the waiter is untouched; the head becomes the smaller of the old head and the new launch time; the signal follows AddSignal |
| TaskQueues.RepeaterTaskQueue.ClearTimerWaiter | src/main/java/org/example/utils/repeater/RepeaterTaskQueue.java:107-111 | the role is cleared only if the caller holds it |
| TaskQueues.RepeaterTaskQueue.Interrupted | src/main/java/org/example/utils/repeater/RepeaterTaskQueue.java:86-105 | on interrupt a caller holding the role clears it and wakes one idle worker; any other caller changes and signals nothing |
| TaskQueues.RepeaterTaskQueue.AwaitStep | src/main/java/org/example/utils/repeater/RepeaterTaskQueue.java:44-85 | one loop pass follows Decide and WaiterAfter; a due head is removed (multiset shrinks by that task), is a task of minimum launch time, and comes with one idle signal; otherwise the tasks are unchanged and nothing is signalled |
| WaiterProtocol.Start | src/main/java/org/example/utils/repeater/RepeaterTaskQueue.java:21 | initially nobody is designated and every thread is known |
| WaiterProtocol.QueueStep | src/main/java/org/example/utils/repeater/RepeaterTaskQueue.java:50-85 | a queue pass by any thread keeps "every timer sleeper is the designated waiter" and changes no other thread's status |
| WaiterProtocol.InterruptStep | src/main/java/org/example/utils/repeater/RepeaterTaskQueue.java:86-105 | an interrupted thread leaves without the role, and the invariant is kept |
| WaiterProtocol.RunKeepsSingleSleeper | src/main/java/org/example/utils/repeater/RepeaterTaskQueue.java:73-84 | the invariant holds after every trace of queue passes and interrupts |
| WaiterProtocol.AtMostOneTimerSleeper | src/main/java/org/example/utils/repeater/RepeaterTaskQueue.java:79-84 | from the start, after any trace, two timer sleepers are the same thread |
| Workers.Dispose | src/main/java/org/example/utils/repeater/RepeaterWorker.java:23-35 | re-queue iff no error and occurrences remain; complete iff no error and none remain; otherwise drop |
| Workers.LifetimeShape | src/main/java/org/example/utils/repeater/RepeaterWorker.java:18-35 | from index n a task runs n, n + 1, ... in order, at most count - n times; every run but the last returned normally; it ends failed with the last run's error iff that run threw, otherwise finished after index count - 1 |
| Workers.FirstFailureStops | src/main/java/org/example/utils/repeater/RepeaterWorker.java:23-26 | if occurrence k is the first to throw, exactly occurrences 0..k run and the task fails with that error |
| Workers.NoFailureRunsAll | src/main/java/org/example/utils/repeater/RepeaterWorker.java:28-35 | if no occurrence throws, exactly 0..count - 1 run and the task finishes |
| Workers.Dispatch | src/main/java/org/example/utils/repeater/RepeaterWorker.java:23-35 | after execution: a task with an error is neither re-added nor completed; with occurrences left its launch time is recomputed and then it is added; otherwise its future completes and it is not re-added |
| Workers.Handle | src/main/java/org/example/utils/repeater/RepeaterWorker.java:18-35 | one execution then Dispose's route; a re-queued task gets its new launch time, joins the queue and signals as AddSignal says; otherwise the queue and the launch time are unchanged; for a Ready task, the error check sees exactly the callback's throw, the task ran at most repeatCount times in total, a re-queued task is Ready again, and the future ends failed with the thrown error or completed without one |
| Workers.RunOnce | src/main/java/org/example/utils/repeater/RepeaterWorker.java:14-42 | a null task (interrupt) ends the loop with the queue untouched; otherwise every guarantee of Handle holds for the task, e.g. a Ready task whose callback throws is dropped with that error stored |
| Workers.TakeAlone | src/main/java/org/example/utils/repeater/RepeaterWorker.java:18 | a task alone in the queue and due is handed out, leaving the queue empty |
| Workers.ServeAlone | src/main/java/org/example/utils/repeater/RepeaterWorker.java:15-35 | one pass over a Ready task alone in the queue runs occurrence n and routes exactly as Dispose says for that occurrence's outcome and whether occurrences remain; a re-queued task is Ready and alone in the queue again; a dropped or completed one leaves the queue empty with its future failed or completed |
| Workers.RunAlone | src/main/java/org/example/utils/repeater/RepeaterWorker.java:15-35 | repeated passes over a fresh task alone in the queue, until it is dropped or completed, run exactly the occurrences LifetimeFrom lists from index 0; the task is dropped iff the lifetime ends failed; its future then holds that error, and otherwise completes without one; the queue ends empty |
| Repeaters.MillisToNanos | src/main/java/org/example/utils/repeater/Repeater.java:92 | `TimeUnit.MILLISECONDS.toNanos` of an `int` never saturates: the result is exactly millis * 1 000 000 |
| Repeaters.Repeater.constructor | src/main/java/org/example/utils/repeater/Repeater.java:40-43 | a new repeater is not running, has one slot per worker and every slot is empty (no thread yet), and an empty queue |
| Repeaters.Repeater.Init | src/main/java/org/example/utils/repeater/Repeater.java:45-58 | afterwards it runs; when already running the slots are unchanged, otherwise every slot holds the thread made for it |
| Repeaters.Repeater.Shutdown | src/main/java/org/example/utils/repeater/Repeater.java:60-66 | afterwards it is not running; on a stopped repeater nothing changes |
| Repeaters.Repeater.Repeat | src/main/java/org/example/utils/repeater/Repeater.java:83-99 | not running: refused (before the count check) with the queue untouched; count below one: the empty task, nothing enqueued; otherwise exactly one fresh Ready task is added, with the count, the delay times 1 000 000, launch time now, and the signal addTask gives |
| RepeatServices.CountDownLatch.constructor | src/main/java/org/example/service/RepeatService.java:59 | the latch starts at the request's count |
| RepeatServices.CountDownLatch.CountDown | src/main/java/org/example/service/RepeatService.java:133 | the count goes down by one, never below zero |
| RepeatServices.ExpansionShape | src/main/java/org/example/service/RepeatService.java:62-72 | a request expands into exactly count items; item i has the request's user and message, repeatNumber i, launch time now + i * delay and the shared latch |
| RepeatServices.ExpansionIsMonotone | src/main/java/org/example/service/RepeatService.java:62-63 | with a non-negative delay a later occurrence is never due earlier |
| RepeatServices.HeadExists | src/main/java/org/example/service/RepeatService.java:96-99 | `peek` is null exactly on an empty queue: a queue has an item with the smallest launch time iff it is not empty |
| RepeatServices.RepeatService.constructor | src/main/java/org/example/service/RepeatService.java:31-34 | the queue and the history start empty |
| RepeatServices.RepeatService.Repeat | src/main/java/org/example/service/RepeatService.java:49-80 | a count below one enqueues nothing; otherwise a fresh latch with the count, and the queue gains exactly the count's items of the expansion |
| RepeatServices.RepeatService.GetHistoryOfRequests | src/main/java/org/example/service/RepeatService.java:82-86 | returns a value equal to the history, which is not modified |
| RepeatServices.RepeatService.PeekForWait | src/main/java/org/example/service/RepeatService.java:95-105 | it waits for items iff the queue is empty; otherwise it waits on a head (an item with the smallest launch time, ties open) for max(0, launch time - now), which ends exactly at the launch time when it is positive |
| RepeatServices.RepeatService.ExecuteTask | src/main/java/org/example/service/RepeatService.java:121-134 | appends exactly one record (user, repeatNumber, message) copied from the item and counts its latch down once |
| RepeatServices.RepeatService.TakeIfDue | src/main/java/org/example/service/RepeatService.java:107-112 | an item is taken only if it still has the smallest launch time and now is strictly past it, and always when it is the only such item and overdue; a taken item leaves the queue (multiset minus it), gets one history record and one latch count-down; otherwise queue, history and latch are unchanged |

## Left out

- Threads, `ReentrantLock`, `Condition`, `synchronized`, `wait`/`notifyAll` and the blocking in `await`, `awaitNanos` and `CountDownLatch.await` are left out. Each lock-held step is atomic and returns the signal or wait it would perform. Liveness and the absence of needless wake-ups are not modelled; only the single-sleeper invariant is.
- The clocks (`System.nanoTime`, `System.currentTimeMillis`, `TimeUtils`) are external. Their readings are the `now` parameters.
- Thread creation, starting, interrupting and joining in `Repeater.init`/`shutdown` are left out. `Init` takes the factory's threads as a parameter. `RepeaterThreadFactory` (names, daemon flag) is runtime plumbing.
- `checkInterrupt` re-sets the interrupt flag when the callback throws an `InterruptedException`, or a throwable whose cause is one. That is interrupt-flag plumbing, and the model has no interrupt flag.
- The worker's `while` loop runs until an interrupt, so `Workers.RunOnce` models it one iteration at a time. `Workers.RunAlone` is the loop for a single task alone in the queue with a single worker: its passes are proved to follow `Workers.LifetimeFrom`. With several tasks or workers, no invariant says that every queued task is Ready; `Handle` states it only for the task it re-adds.
- Workers.RunAlone: the callback takes no time, so the clock reading at which a task is taken is also the one its next launch time is computed from.
- The handle `Repeater.repeat` returns is a `RepeaterFutureImpl`, whose `await` rethrows a stored `RuntimeException` as it is (RepeaterFutureImpl.java:24-25). The model's handle is the task, which awaits through its `TaskFuture` and always wraps the error (`Completion.TaskAwait`). `Completion.RepeaterAwait` states the other behaviour, but no model of `Repeater` hands it out.
- The worker threads started in `RepeatService`'s constructor (RepeatService.java:36-47) and the outer loop of `handleQueue` are left out. So are the `queueAddedItems.signal()` after enqueuing and the `synchronized (historyItems)` guard.
- Logging (`log.error`, `log.warn`) and the debug `printf` are side effects only and are left out.
- `RepeatController`, `SobesApplication`, `ApplicationConfig` and the validation annotations of `RepeatRequest` are framework glue and are left out.
- `RepeaterQueue`, `RepeaterQueueItem`, `RepeaterFuture`, `RepeaterCallback` and `RepeaterTask` are not part of this model. The callback is a total function that may report a throw.
- The order among equal launch times is left out: the Java priority queue does not fix it.
- RepeatServices.RepeatService.TakeIfDue: when the observed item ties with another for the smallest launch time, whether it is taken depends on the heap's choice, so the contract promises taking only for the sole smallest item.
- Repeaters.Repeater.constructor: a negative pool size (a `NegativeArraySizeException` in Java) is not modelled; the size is a `nat`.
- RepeaterTasks.NextLaunchTime: does not model 64-bit wrap-around of `startAfterTime + repeatDelayInNanos`. Monotonic clock readings are unbounded integers, since a wrap needs centuries of uptime.
- RepeaterTasks.RepeaterTask.TimeUntilNextRun: does not model 64-bit wrap-around of `startAfterTime - now`, for the same reason.
- RepeaterTasks.RepeaterTask.TryExecute: does not model 32-bit wrap-around of `repeatNumber++`. For Ready tasks, `Workers.Handle` keeps the counter at most `repeatCount`, which is itself an `int`.
- TaskQueues.RepeaterTaskQueue.AddTask: requires that the task is not queued already. Java's `PriorityQueue` would hold it twice, and where it is already the head with an equal key, `peek() == repeaterTask` holds while `BecomesHead` says no. Both callers add a task that is not queued: the worker's own task, and a new one in `Repeater.repeat`.
- RepeatServices.ItemAt: does not model 64-bit wrap-around of `now + i * delayInMillis`.
