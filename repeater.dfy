/**
 * `Repeater`: the public entry point. `init` and `shutdown` toggle the
 * running flag; `repeat` checks the flag, then the count, converts the delay
 * from milliseconds to nanoseconds and enqueues one task.
 */
module Repeaters {
  import opened Wrappers
  import opened RepeaterTasks
  import opened TaskQueues

  /** Java `long`. */
  type Int64 = x: int | -0x8000_0000_0000_0000 <= x < 0x8000_0000_0000_0000

  const LongMax: Int64 := 0x7FFF_FFFF_FFFF_FFFF
  const NanosPerMilli: Int64 := 1_000_000

  /** `TimeUnit.MILLISECONDS.toNanos`: multiply, saturating at the `long` bounds. */
  function ToNanos(d: Int64): Int64 {
    if d > LongMax / NanosPerMilli then LongMax
    else if d < -(LongMax / NanosPerMilli) then -LongMax - 1
    else d * NanosPerMilli
  }

  /** An `int` count of milliseconds never saturates: the conversion is exact. */
  function MillisToNanos(millis: Int32): (nanos: Int64)
    ensures nanos == millis * 1_000_000
    ensures nanos / 1_000_000 == millis && nanos % 1_000_000 == 0
  {
    ToNanos(millis)
  }

  /** The outcome of `repeat`. */
  datatype Submission =
    | NotRunning                                  // IllegalStateException
    | EmptyTask                                   // RepeaterFuture.EMPTY_TASK: already complete
    | Scheduled(task: RepeaterTask, signal: Signal)  // the enqueued task and what `addTask` signalled

  class Repeater {
    const queue: RepeaterTaskQueue
    /** The worker slots; a thread is identified by its id. */
    const workers: array<Option<ThreadId>>
    var isRunning: bool

    constructor (workerPoolSize: nat)
      ensures !isRunning
      ensures fresh(workers) && workers.Length == workerPoolSize
      ensures forall i :: 0 <= i < workers.Length ==> workers[i] == None
      ensures fresh(queue) && queue.items == [] && queue.timerWaiter.None?
    {
      queue := new RepeaterTaskQueue();
      workers := new Option<ThreadId>[workerPoolSize](_ => None);
      isRunning := false;
    }

    /**
     * `init`: when already running, nothing changes; otherwise every slot is
     * filled with the thread the factory made for it, and the repeater runs.
     * `threads` are the threads the factory returns, in order.
     */
    method Init(threads: seq<ThreadId>)
      requires |threads| == workers.Length
      modifies this`isRunning, workers
      ensures isRunning
      ensures old(isRunning) ==> workers[..] == old(workers[..])
      ensures !old(isRunning) ==> workers[..] == seq(|threads|, i requires 0 <= i < |threads| => Some(threads[i]))
    {
      if isRunning {
        return;
      }
      for i := 0 to workers.Length
        invariant forall j :: 0 <= j < i ==> workers[j] == Some(threads[j])
      {
        workers[i] := Some(threads[i]);
      }
      isRunning := true;
    }

    /** `shutdown`: when not running nothing happens; otherwise the repeater stops running. */
    method Shutdown()
      modifies this`isRunning
      ensures !isRunning
    {
      if !isRunning {
        return;
      }
      isRunning := false;
    }

    /**
     * `repeat` at clock reading `now`. Not running: refused, even for a count
     * below one. A count below one: the empty task, nothing enqueued.
     * Otherwise exactly one new task joins the queue, with the delay in
     * nanoseconds, launch time `now` and nothing run yet.
     */
    method Repeat(repeatCount: Int32, repeatDelayInMillis: Int32, callback: Callback, now: int)
      returns (s: Submission)
      modifies queue`items
      ensures !isRunning ==> s == NotRunning
      ensures isRunning && repeatCount < 1 ==> s == EmptyTask
      ensures !s.Scheduled? ==> queue.items == old(queue.items)
      ensures isRunning && repeatCount >= 1 ==> s.Scheduled?
      ensures s.Scheduled? ==>
                && fresh(s.task) && fresh(s.task.future)
                && s.task.Valid() && s.task.Ready()
                && s.task.repeatCount == repeatCount
                && s.task.repeatDelayInNanos == repeatDelayInMillis * 1_000_000
                && s.task.callback == callback
                && s.task.repeatNumber == 0 && s.task.startAfterTime == now
                && multiset(queue.items) == old(multiset(queue.items)) + multiset{s.task}
                && s.signal == AddSignal(old(queue.Head()), now, queue.timerWaiter)
    {
      if !isRunning {
        return NotRunning;
      }
      if repeatCount < 1 {
        return EmptyTask;
      }
      var repeatDelayInNanos := MillisToNanos(repeatDelayInMillis);
      var task := new RepeaterTask(repeatCount, repeatDelayInNanos, callback, now);
      var signal := queue.AddTask(task);
      return Scheduled(task, signal);
    }
  }
}
