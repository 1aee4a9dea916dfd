/**
 * `RepeaterTaskQueue`: a priority collection of tasks keyed by launch time
 * plus the designated-waiter field `timerWaiter`. Each operation runs under
 * the queue lock; here each is one atomic step that returns what it would
 * signal or wait on instead of blocking. The clock and the calling thread
 * are parameters.
 */
module TaskQueues {
  import opened Wrappers
  import opened RepeaterTasks
  import Ordering

  type ThreadId = nat

  /** The condition a step signals (one waiter of it), if any. */
  datatype Signal = NoSignal | SignalIdle | SignalTimer

  /** The launch times of the tasks, position by position. */
  function Times(s: seq<RepeaterTask>): (r: seq<int>)
    reads s
    ensures |r| == |s| && forall i :: 0 <= i < |s| ==> r[i] == s[i].startAfterTime
  {
    seq(|s|, i reads s requires 0 <= i < |s| => s[i].startAfterTime)
  }

  /** The launch time of the head (`peek`), None for an empty queue. */
  function MinTime(s: seq<RepeaterTask>): (r: Option<int>)
    reads s
    ensures r.None? <==> s == []
    ensures r.Some? ==> forall i :: 0 <= i < |s| ==> r.value <= s[i].startAfterTime
    ensures r.Some? ==> exists i :: 0 <= i < |s| && s[i].startAfterTime == r.value
  {
    if s == [] then None
    else
      var k := Ordering.ArgMin(Times(s));
      Some(s[k].startAfterTime)
  }

  /**
   * Whether an added task is the head afterwards. A binary heap moves a new
   * element up only past strictly larger parents, so it reaches the top
   * exactly when the queue was empty or its key is below the old minimum.
   */
  predicate BecomesHead(head: Option<int>, time: int) {
    head.None? || time < head.value
  }

  /**
   * What `addTask` signals: nothing unless the task becomes the head; then
   * one idle worker when nobody is designated, else the designated waiter.
   */
  function AddSignal(head: Option<int>, time: int, waiter: Option<ThreadId>): (s: Signal)
    ensures s != NoSignal <==> BecomesHead(head, time)
    ensures s == SignalTimer ==> waiter.Some?
    ensures s == SignalIdle ==> waiter.None?
  {
    if !BecomesHead(head, time) then NoSignal
    else if waiter.None? then SignalIdle
    else SignalTimer
  }

  /** `clearTimerWaiter`: the caller gives the role up if it holds it; another holder keeps it. */
  function Released(waiter: Option<ThreadId>, caller: ThreadId): (w: Option<ThreadId>)
    ensures w != Some(caller)
    ensures waiter != Some(caller) ==> w == waiter
  {
    if waiter == Some(caller) then None else waiter
  }

  /** The three outcomes of one pass of the `awaitNextTask` loop. */
  datatype Decision = ParkIdle | ParkTimer(nanos: int) | TakeHead

  /**
   * One pass of the loop: an empty queue parks on `idleWait`; a due head
   * (`timeUntilNextRun <= 0`) is taken; a head not yet due parks on `idleWait`
   * if another thread is the designated waiter, and otherwise on `timerWait`
   * for exactly the time until it is due.
   */
  function Decide(head: Option<int>, waiter: Option<ThreadId>, caller: ThreadId, now: int): (d: Decision)
    ensures d.TakeHead? <==> head.Some? && head.value <= now
    ensures d.ParkTimer? ==> head.Some? && d.nanos > 0 && now + d.nanos == head.value
    ensures d.ParkTimer? ==> waiter.None? || waiter == Some(caller)
    ensures d.ParkIdle? && head.Some? ==> waiter.Some? && waiter != Some(caller)
  {
    if head.None? then ParkIdle
    else
      var timeUntilNextRun := head.value - now;
      if timeUntilNextRun <= 0 then TakeHead
      else if waiter.Some? && waiter.value != caller then ParkIdle
      else ParkTimer(timeUntilNextRun)
  }

  /**
   * The designated waiter after one pass: released by the caller on an empty
   * queue or when it takes the head, kept while it parks on `idleWait`
   * behind another waiter, the caller when it parks on the timer. A head not
   * yet due is always left with a designated waiter.
   */
  function WaiterAfter(head: Option<int>, waiter: Option<ThreadId>, caller: ThreadId, now: int): (w: Option<ThreadId>)
    ensures head.Some? && head.value > now ==> w.Some?
    ensures Decide(head, waiter, caller, now).ParkTimer? ==> w == Some(caller)
    ensures w != waiter ==> w == Some(caller) || waiter == Some(caller)
    ensures head.None? || Decide(head, waiter, caller, now).TakeHead? ==> w == Released(waiter, caller)
    ensures head.Some? && Decide(head, waiter, caller, now).ParkIdle? ==> w == waiter
  {
    match Decide(head, waiter, caller, now)
    case TakeHead => Released(waiter, caller)
    case ParkIdle => if head.None? then Released(waiter, caller) else waiter
    case ParkTimer(_) => Some(caller)
  }

  /** What one pass returns to the caller: park on a condition, or hand out a task. */
  datatype Step = Idle | Timer(nanos: int) | Deliver(task: RepeaterTask)

  class RepeaterTaskQueue {
    /** The tasks of the priority queue; their order in the sequence carries no meaning. */
    var items: seq<RepeaterTask>
    var timerWaiter: Option<ThreadId>

    function Head(): (r: Option<int>)
      reads this, items
    {
      MinTime(items)
    }

    constructor ()
      ensures items == [] && timerWaiter == None
    {
      items := [];
      timerWaiter := None;
    }

    /**
     * `addTask`: the task joins the queue and nothing else changes; the head
     * becomes the smaller of the old head and the new launch time; the signal
     * follows AddSignal and the designated waiter is left alone.
     */
    method AddTask(task: RepeaterTask) returns (signal: Signal)
      requires task !in items
      modifies this`items
      ensures multiset(items) == old(multiset(items)) + multiset{task}
      ensures timerWaiter == old(timerWaiter)
      ensures signal == AddSignal(old(Head()), task.startAfterTime, timerWaiter)
      ensures Head() == Some(if BecomesHead(old(Head()), task.startAfterTime) then task.startAfterTime
                             else old(Head()).value)
    {
      var head := Head();
      items := items + [task];
      assert items[|items| - 1] == task;
      if head.Some? && head.value <= task.startAfterTime {
        ghost var i :| 0 <= i < |old(items)| && old(items)[i].startAfterTime == head.value;
        assert items[i] == old(items)[i];
      }
      // `priorityQueue.peek() == repeaterTask`, by the heap's sift-up rule
      var isNewHead := BecomesHead(head, task.startAfterTime);
      if isNewHead {
        if timerWaiter.None? {
          signal := SignalIdle;
        } else {
          signal := SignalTimer;
        }
      } else {
        signal := NoSignal;
      }
    }

    /** `clearTimerWaiter`. */
    method ClearTimerWaiter(caller: ThreadId)
      modifies this`timerWaiter
      ensures timerWaiter == Released(old(timerWaiter), caller)
    {
      if timerWaiter == Some(caller) {
        timerWaiter := None;
      }
    }

    /**
     * `clearTimerWaiterAndWakeupOneIdle`, run when the wait is interrupted:
     * a caller holding the role gives it up and wakes one idle worker to take
     * it over; any other caller changes and signals nothing. The step then
     * returns null, which is not represented.
     */
    method Interrupted(caller: ThreadId) returns (signal: Signal)
      modifies this`timerWaiter
      ensures timerWaiter == Released(old(timerWaiter), caller)
      ensures signal == (if old(timerWaiter) == Some(caller) then SignalIdle else NoSignal)
    {
      if timerWaiter != Some(caller) {
        return NoSignal;
      }
      timerWaiter := None;
      signal := SignalIdle;
    }

    /**
     * One pass of the `awaitNextTask` loop by thread `caller` at clock reading
     * `now`. It follows Decide; when the head is due it removes and returns a
     * task of minimum launch time, releases the caller's role and wakes one
     * idle worker; otherwise it changes only `timerWaiter`, as WaiterAfter says.
     */
    method AwaitStep(caller: ThreadId, now: int) returns (step: Step, signal: Signal)
      modifies this
      ensures timerWaiter == WaiterAfter(old(Head()), old(timerWaiter), caller, now)
      ensures step.Idle? <==> Decide(old(Head()), old(timerWaiter), caller, now).ParkIdle?
      ensures step.Timer? <==> Decide(old(Head()), old(timerWaiter), caller, now).ParkTimer?
      ensures step.Timer? ==> step.nanos == Decide(old(Head()), old(timerWaiter), caller, now).nanos
      ensures step.Deliver? <==> Decide(old(Head()), old(timerWaiter), caller, now).TakeHead?
      ensures signal == (if step.Deliver? then SignalIdle else NoSignal)
      ensures step.Deliver? ==> step.task in old(items)
      ensures step.Deliver? ==> forall t :: t in old(items) ==> step.task.startAfterTime <= t.startAfterTime
      ensures step.Deliver? ==> multiset(items) == old(multiset(items)) - multiset{step.task}
      ensures !step.Deliver? ==> items == old(items)
    {
      if items == [] {
        ClearTimerWaiter(caller);
        return Idle, NoSignal;
      }
      var k := Ordering.ArgMin(Times(items));
      var head := items[k];
      assert Times(items)[k] == head.startAfterTime;
      assert Head() == Some(head.startAfterTime);
      var timeUntilNextRun := head.TimeUntilNextRun(now);
      if timeUntilNextRun <= 0 {
        assert items == items[..k] + [head] + items[k + 1..];
        items := items[..k] + items[k + 1..];
        ClearTimerWaiter(caller);
        return Deliver(head), SignalIdle;
      }
      if timerWaiter.Some? && timerWaiter.value != caller {
        return Idle, NoSignal;
      }
      timerWaiter := Some(caller);
      return Timer(timeUntilNextRun), NoSignal;
    }
  }
}
