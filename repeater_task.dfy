/**
 * `RepeaterTaskImpl`: one repeat request's running state. `repeatNumber`
 * counts execution attempts, `startAfterTime` is the next launch time on the
 * monotonic clock, and the task owns a `TaskFuture` for its outcome. The
 * clock reading is a parameter wherever the source reads the clock.
 */
module RepeaterTasks {
  import opened Wrappers
  import opened Completion
  import opened TaskFutures
  import Ordering

  /** Java `int`. */
  type Int32 = x: int | -0x8000_0000 <= x < 0x8000_0000

  /** The callback: given an occurrence index it returns normally (None) or throws. */
  type Callback = int -> Option<Throwable>

  /** The occurrence indices 0, 1, ..., n - 1, in the order they are handed out. */
  function Indices(n: nat): seq<int> {
    if n == 0 then [] else Indices(n - 1) + [n - 1]
  }

  lemma {:induction false} IndicesAre(n: nat)
    ensures |Indices(n)| == n
    ensures forall k :: 0 <= k < n ==> Indices(n)[k] == k
  {
    if n > 0 {
      IndicesAre(n - 1);
    }
  }

  /** The indices handed to the callback strictly increase. */
  lemma IndicesStrictlyIncrease(n: nat)
    ensures forall i, j :: 0 <= i < j < |Indices(n)| ==> Indices(n)[i] < Indices(n)[j]
  {
    IndicesAre(n);
  }

  /**
   * The clamp rule `max(prev + delay, now)`: never before the current clock
   * reading nor before one delay after the previous launch, and equal to one
   * of the two; with a non-negative delay it never moves backwards.
   */
  function NextLaunchTime(prev: int, delay: int, now: int): (r: int)
    ensures r >= now && r >= prev + delay
    ensures r == now || r == prev + delay
    ensures delay >= 0 ==> r >= prev
  {
    if prev + delay >= now then prev + delay else now
  }

  class RepeaterTask {
    const repeatCount: Int32
    const repeatDelayInNanos: int
    const callback: Callback
    const future: TaskFuture
    var repeatNumber: int
    var startAfterTime: int
    /** The indices passed to the callback so far, oldest first. */
    ghost var calls: seq<int>

    ghost predicate Valid()
      reads this, future
    {
      && 0 <= repeatNumber
      && calls == Indices(repeatNumber)
      && future.Valid()
    }

    /**
     * What every task held by the queue satisfies: an occurrence is left and
     * the future has not been signalled.
     */
    ghost predicate Ready()
      reads this, future
    {
      repeatNumber < repeatCount && !future.isFinished
    }

    /** A new task: no attempt made, launch time is the creation-time clock value. */
    constructor (repeatCount: Int32, repeatDelayInNanos: int, callback: Callback, now: int)
      ensures Valid()
      ensures this.repeatCount == repeatCount && this.repeatDelayInNanos == repeatDelayInNanos
      ensures this.callback == callback
      ensures repeatNumber == 0 && calls == [] && startAfterTime == now
      ensures fresh(future) && future.State() == Fresh
      ensures repeatCount >= 1 ==> Ready()
    {
      this.repeatCount := repeatCount;
      this.repeatDelayInNanos := repeatDelayInNanos;
      this.callback := callback;
      repeatNumber := 0;
      startAfterTime := now;
      future := new TaskFuture();
      calls := [];
    }

    /** `compareTo`: the sign orders the two tasks by launch time and by nothing else. */
    function CompareTo(other: RepeaterTask): (r: int)
      reads this, other
      ensures r < 0 <==> startAfterTime < other.startAfterTime
      ensures r == 0 <==> startAfterTime == other.startAfterTime
      ensures r > 0 <==> startAfterTime > other.startAfterTime
    {
      Ordering.Compare(startAfterTime, other.startAfterTime)
    }

    /**
     * `tryExecute`: the callback gets the current `repeatNumber`, which goes up
     * by one whether or not the callback throws; a throw is stored in the
     * future, a normal return leaves it alone.
     */
    method TryExecute()
      requires Valid()
      modifies this, future
      ensures Valid()
      ensures repeatNumber == old(repeatNumber) + 1
      ensures calls == old(calls) + [old(repeatNumber)]
      ensures startAfterTime == old(startAfterTime)
      ensures callback(old(repeatNumber)).None? ==> future.State() == old(future.State())
      ensures callback(old(repeatNumber)).Some? ==>
                future.State() == AfterError(old(future.State()), callback(old(repeatNumber)).value)
    {
      var index := repeatNumber;
      repeatNumber := repeatNumber + 1;
      calls := calls + [index];
      var outcome := callback(index);
      if outcome.Some? {
        future.SignalError(outcome.value);
      }
    }

    /** `hasError`: the future holds an error, so a finished `await` raises. */
    function HasError(): (b: bool)
      reads this, future
      requires Valid()
      ensures b <==> future.State().error.Some?
      ensures b ==> future.isFinished
    {
      future.HasError()
    }

    /** `signalComplete`: finish the future, keeping a stored error. */
    method SignalComplete()
      requires Valid()
      modifies future
      ensures Valid()
      ensures future.State() == AfterComplete(old(future.State()))
    {
      future.SignalComplete();
    }

    /** `timeUntilNextRun`: at most zero exactly when the task is due; otherwise the exact wait. */
    function TimeUntilNextRun(now: int): (r: int)
      reads this
      ensures r <= 0 <==> startAfterTime <= now
      ensures now + r == startAfterTime
    {
      startAfterTime - now
    }

    /** `calculateAndSetNextLaunchTime`: apply the clamp rule with the clock reading `now`. */
    method CalculateAndSetNextLaunchTime(now: int)
      modifies this`startAfterTime
      ensures startAfterTime == NextLaunchTime(old(startAfterTime), repeatDelayInNanos, now)
      ensures startAfterTime >= now
    {
      var nextLaunchTime := startAfterTime + repeatDelayInNanos;
      startAfterTime := if nextLaunchTime >= now then nextLaunchTime else now;
    }

    /** `hasNext`: fewer callback invocations so far than were requested. */
    function HasNext(): (b: bool)
      reads this, future
      requires Valid()
      ensures b <==> |calls| < repeatCount
    {
      IndicesAre(repeatNumber);
      repeatNumber < repeatCount
    }
  }
}
