/**
 * `RepeaterWorker`: one iteration of the worker loop. The worker takes the
 * task `awaitNextTask` handed out, runs it, and then drops it (its future
 * holds an error), reschedules and re-adds it (occurrences remain), or
 * completes it. `Lifetime` is the reference for what repeated iterations do
 * to one task from its first occurrence on.
 */
module Workers {
  import opened Wrappers
  import opened Completion
  import opened RepeaterTasks
  import opened TaskQueues

  /** The three branches after `tryExecute`. */
  datatype Disposition = Drop | Requeue | Finish

  function Dispose(hasError: bool, hasNext: bool): (d: Disposition)
    ensures d == Requeue <==> !hasError && hasNext
    ensures d == Finish <==> !hasError && !hasNext
  {
    if hasError then Drop else if hasNext then Requeue else Finish
  }

  /** How a task leaves the scheduler. */
  datatype TaskEnd = Failed(error: Throwable) | Finished

  /** The occurrence indices a task runs from index `n` on, and how it ends. */
  datatype Lifetime = Lifetime(ran: seq<int>, end: TaskEnd)

  /**
   * A task that never fails a stored error check before its first execution
   * (fresh future) runs occurrence `n`; a throw drops it with that error, and
   * otherwise it is requeued while `n + 1 < count` and completed after that.
   */
  function LifetimeFrom(callback: Callback, count: int, n: int): Lifetime
    requires 0 <= n < count
    decreases count - n
  {
    match Dispose(callback(n).Some?, n + 1 < count)
    case Drop => Lifetime([n], Failed(callback(n).value))
    case Finish => Lifetime([n], Finished)
    case Requeue =>
      var rest := LifetimeFrom(callback, count, n + 1);
      Lifetime([n] + rest.ran, rest.end)
  }

  /**
   * From index n the task runs n, n + 1, ... in order, at most `count - n`
   * occurrences; every occurrence but the last returned normally; it ends
   * failed with the error of the last one iff that one threw, and otherwise
   * finished after occurrence `count - 1`.
   */
  lemma {:induction false} LifetimeShape(callback: Callback, count: int, n: int)
    requires 0 <= n < count
    ensures 0 < |LifetimeFrom(callback, count, n).ran| <= count - n
    ensures forall i :: 0 <= i < |LifetimeFrom(callback, count, n).ran| ==>
              LifetimeFrom(callback, count, n).ran[i] == n + i
    ensures forall i :: 0 <= i < |LifetimeFrom(callback, count, n).ran| - 1 ==>
              callback(LifetimeFrom(callback, count, n).ran[i]).None?
    ensures var l := LifetimeFrom(callback, count, n);
            var last := n + |l.ran| - 1;
            && (l.end.Failed? <==> callback(last).Some?)
            && (l.end.Failed? ==> l.end.error == callback(last).value)
            && (l.end.Finished? ==> last == count - 1)
    decreases count - n
  {
    if callback(n).None? && n + 1 < count {
      LifetimeShape(callback, count, n + 1);
      var rest := LifetimeFrom(callback, count, n + 1);
      var l := LifetimeFrom(callback, count, n);
      assert l.ran == [n] + rest.ran;
      forall i | 0 <= i < |l.ran| - 1
        ensures callback(l.ran[i]).None?
      {
        if i > 0 {
          assert l.ran[i] == rest.ran[i - 1];
        }
      }
    }
  }

  /** A task whose first failing occurrence is k runs exactly 0..k and fails with that error. */
  lemma FirstFailureStops(callback: Callback, count: int, k: int)
    requires 0 <= k < count
    requires callback(k).Some?
    requires forall j :: 0 <= j < k ==> callback(j).None?
    ensures LifetimeFrom(callback, count, 0).ran == Indices(k + 1)
    ensures LifetimeFrom(callback, count, 0).end == Failed(callback(k).value)
  {
    LifetimeShape(callback, count, 0);
    IndicesAre(k + 1);
    var l := LifetimeFrom(callback, count, 0);
    var last := |l.ran| - 1;
    assert forall i :: 0 <= i < last ==> callback(i).None? by {
      forall i | 0 <= i < last
        ensures callback(i).None?
      {
        assert l.ran[i] == i;
      }
    }
    assert last == k;
    assert l.ran == Indices(k + 1);
  }

  /** A task none of whose occurrences throws runs exactly 0..count-1 and finishes. */
  lemma NoFailureRunsAll(callback: Callback, count: int)
    requires 0 < count
    requires forall j :: 0 <= j < count ==> callback(j).None?
    ensures LifetimeFrom(callback, count, 0).ran == Indices(count)
    ensures LifetimeFrom(callback, count, 0).end == Finished
  {
    LifetimeShape(callback, count, 0);
    IndicesAre(count);
    var l := LifetimeFrom(callback, count, 0);
    assert l.ran == Indices(count);
  }

  /** What one loop iteration did. */
  datatype Route =
    | Dropped                   // the callback threw: neither re-added nor completed
    | Rescheduled(signal: Signal)  // new launch time, re-added; what `addTask` signalled
    | Completed                 // no occurrences left: future completed
    | Stopped                   // interrupted: the loop ends

  /**
   * Lines 24-35, after `tryExecute`: drop a task whose future holds an
   * error, reschedule and re-add one with occurrences left, complete the rest.
   */
  method Dispatch(queue: RepeaterTaskQueue, job: RepeaterTask, now: int) returns (route: Route)
    requires job.Valid()
    requires job !in queue.items
    modifies queue`items, job`startAfterTime, job.future
    ensures job.Valid()
    ensures route != Stopped
    ensures route == Dropped <==> Dispose(job.HasError(), job.HasNext()) == Drop
    ensures route.Rescheduled? <==> Dispose(job.HasError(), job.HasNext()) == Requeue
    ensures route == Completed <==> Dispose(job.HasError(), job.HasNext()) == Finish
    ensures route.Rescheduled? ==>
              && job.startAfterTime == NextLaunchTime(old(job.startAfterTime), job.repeatDelayInNanos, now)
              && multiset(queue.items) == old(multiset(queue.items)) + multiset{job}
              && route.signal == AddSignal(old(queue.Head()), job.startAfterTime, queue.timerWaiter)
    ensures !route.Rescheduled? ==> queue.items == old(queue.items) && job.startAfterTime == old(job.startAfterTime)
    ensures route == Completed ==> job.future.State() == AfterComplete(old(job.future.State()))
    ensures route != Completed ==> job.future.State() == old(job.future.State())
  {
    if job.HasError() {
      return Dropped;
    }
    if job.HasNext() {
      job.CalculateAndSetNextLaunchTime(now);
      var signal := queue.AddTask(job);
      return Rescheduled(signal);
    }
    job.SignalComplete();
    return Completed;
  }

  /**
   * Lines 21-35: run `job` (held by this worker, so not in the queue) and
   * route it. On a Ready task this is the first step of LifetimeFrom at
   * index `repeatNumber`, and a requeued task is Ready again.
   */
  method Handle(queue: RepeaterTaskQueue, job: RepeaterTask, now: int) returns (route: Route)
    requires job.Valid()
    requires job !in queue.items
    modifies queue`items, job, job.future
    ensures job.Valid()
    ensures job.repeatNumber == old(job.repeatNumber) + 1
    ensures job.calls == old(job.calls) + [old(job.repeatNumber)]
    ensures route != Stopped
    ensures route == Dropped <==> Dispose(job.HasError(), job.HasNext()) == Drop
    ensures route.Rescheduled? <==> Dispose(job.HasError(), job.HasNext()) == Requeue
    ensures route == Completed <==> Dispose(job.HasError(), job.HasNext()) == Finish
    ensures route.Rescheduled? ==>
              && job.startAfterTime == NextLaunchTime(old(job.startAfterTime), job.repeatDelayInNanos, now)
              && multiset(queue.items) == old(multiset(queue.items)) + multiset{job}
              && route.signal == AddSignal(old(queue.Head()), job.startAfterTime, queue.timerWaiter)
    ensures !route.Rescheduled? ==> queue.items == old(queue.items) && job.startAfterTime == old(job.startAfterTime)
    ensures old(job.Ready()) ==> job.HasError() == job.callback(old(job.repeatNumber)).Some?
    ensures old(job.Ready()) ==> |job.calls| <= job.repeatCount
    ensures old(job.Ready()) && route.Rescheduled? ==> job.Ready()
    ensures old(job.Ready()) && route == Dropped ==>
              && job.callback(old(job.repeatNumber)).Some?
              && job.future.State() == Slot(true, Some(job.callback(old(job.repeatNumber)).value))
    ensures old(job.Ready()) && route == Completed ==> job.future.State() == Slot(true, None)
  {
    ghost var head := queue.Head();
    job.TryExecute();
    assert queue.Head() == head;
    IndicesAre(job.repeatNumber);
    route := Dispatch(queue, job, now);
  }

  /**
   * One iteration of `run`. `next` is what `awaitNextTask` handed out; None
   * stands for an interrupt during the wait, which ends the loop whether the
   * queue throws `InterruptedException` or returns null.
   */
  method RunOnce(queue: RepeaterTaskQueue, next: Option<RepeaterTask>, now: int) returns (route: Route)
    requires next.Some? ==> next.value.Valid() && next.value !in queue.items
    modifies queue`items, if next.Some? then {next.value, next.value.future} else {}
    ensures route == Stopped <==> next.None?
    ensures next.None? ==> queue.items == old(queue.items)
    ensures next.Some? ==>
              && next.value.Valid()
              && next.value.repeatNumber == old(next.value.repeatNumber) + 1
              && next.value.calls == old(next.value.calls) + [old(next.value.repeatNumber)]
    ensures next.Some? ==>
              && (route == Dropped <==> Dispose(next.value.HasError(), next.value.HasNext()) == Drop)
              && (route.Rescheduled? <==> Dispose(next.value.HasError(), next.value.HasNext()) == Requeue)
              && (route == Completed <==> Dispose(next.value.HasError(), next.value.HasNext()) == Finish)
    ensures next.Some? && route.Rescheduled? ==>
              && next.value.startAfterTime ==
                 NextLaunchTime(old(next.value.startAfterTime), next.value.repeatDelayInNanos, now)
              && multiset(queue.items) == old(multiset(queue.items)) + multiset{next.value}
              && route.signal == AddSignal(old(queue.Head()), next.value.startAfterTime, queue.timerWaiter)
    ensures next.Some? && !route.Rescheduled? ==>
              queue.items == old(queue.items) && next.value.startAfterTime == old(next.value.startAfterTime)
    ensures next.Some? && old(next.value.Ready()) ==>
              && next.value.HasError() == next.value.callback(old(next.value.repeatNumber)).Some?
              && |next.value.calls| <= next.value.repeatCount
              && (route.Rescheduled? ==> next.value.Ready())
              && (route == Dropped ==>
                    next.value.future.State() == Slot(true, Some(next.value.callback(old(next.value.repeatNumber)).value)))
              && (route == Completed ==> next.value.future.State() == Slot(true, None))
  {
    if next.None? {
      return Stopped;
    }
    route := Handle(queue, next.value, now);
  }

  /** A sequence that holds exactly one element, once, is that element alone. */
  lemma Lone<T>(s: seq<T>, x: T)
    requires multiset(s) == multiset{x}
    ensures s == [x]
  {
    assert |s| == |multiset(s)| == 1;
    assert s[0] in multiset(s);
  }

  /** Lines 17-19 with `job` alone in the queue and due at `now`: the pass delivers it. */
  method TakeAlone(queue: RepeaterTaskQueue, job: RepeaterTask, caller: ThreadId, now: int)
    requires multiset(queue.items) == multiset{job}
    requires job.startAfterTime <= now
    modifies queue
    ensures queue.items == []
  {
    Lone(queue.items, job);
    assert queue.Head() == Some(job.startAfterTime) by {
      assert queue.items[0] == job;
    }
    var step, _ := queue.AwaitStep(caller, now);
    assert step.task == job;
  }

  /** One step of LifetimeFrom at index n, by the route a pass takes there. */
  lemma LifetimeStep(callback: Callback, count: int, n: int, d: Disposition)
    requires 0 <= n < count
    requires d == Dispose(callback(n).Some?, n + 1 < count)
    ensures d == Requeue ==>
              && LifetimeFrom(callback, count, n).ran == [n] + LifetimeFrom(callback, count, n + 1).ran
              && LifetimeFrom(callback, count, n).end == LifetimeFrom(callback, count, n + 1).end
    ensures d == Drop ==> LifetimeFrom(callback, count, n) == Lifetime([n], Failed(callback(n).value))
    ensures d == Finish ==> LifetimeFrom(callback, count, n) == Lifetime([n], Finished)
  {
  }

  /**
   * One pass of lines 15-35 over a Ready `job` alone in the queue and due at
   * `now`: it runs occurrence n, and routes as Dispose says for that
   * occurrence's outcome and whether n + 1 occurrences leave any.
   */
  method ServeAlone(queue: RepeaterTaskQueue, job: RepeaterTask, caller: ThreadId, now: int)
    returns (route: Route)
    requires job.Valid() && job.Ready()
    requires multiset(queue.items) == multiset{job}
    requires job.startAfterTime <= now
    modifies queue, job, job.future
    ensures job.Valid()
    ensures job.repeatNumber == old(job.repeatNumber) + 1
    ensures job.calls == old(job.calls) + [old(job.repeatNumber)]
    ensures route != Stopped
    ensures route == Dropped <==>
              Dispose(job.callback(old(job.repeatNumber)).Some?, old(job.repeatNumber) + 1 < job.repeatCount) == Drop
    ensures route.Rescheduled? <==>
              Dispose(job.callback(old(job.repeatNumber)).Some?, old(job.repeatNumber) + 1 < job.repeatCount) == Requeue
    ensures route == Completed <==>
              Dispose(job.callback(old(job.repeatNumber)).Some?, old(job.repeatNumber) + 1 < job.repeatCount) == Finish
    ensures route.Rescheduled? ==> job.Ready() && multiset(queue.items) == multiset{job}
    ensures !route.Rescheduled? ==> queue.items == []
    ensures route == Dropped ==>
              job.future.State() == Slot(true, Some(job.callback(old(job.repeatNumber)).value))
    ensures route == Completed ==> job.future.State() == Slot(true, None)
  {
    TakeAlone(queue, job, caller, now);
    route := Handle(queue, job, now);
    IndicesAre(job.repeatNumber);
  }

  /** Occurrences `calls` so far, then the rest of the lifetime from n, make up `whole`. */
  ghost predicate OnTrack(callback: Callback, count: int, n: int, calls: seq<int>, whole: Lifetime)
  {
    0 <= n < count
    && calls + LifetimeFrom(callback, count, n).ran == whole.ran
    && LifetimeFrom(callback, count, n).end == whole.end
  }

  /** A task that left the scheduler as `route` says, with `calls` run, has lived out `whole`. */
  ghost predicate LivedOut(route: Route, calls: seq<int>, state: Slot, whole: Lifetime)
  {
    && calls == whole.ran
    && (route == Dropped <==> whole.end.Failed?)
    && (whole.end.Failed? ==> state == Slot(true, Some(whole.end.error)))
    && (whole.end.Finished? ==> state == Slot(true, None))
  }

  /**
   * Lines 15-35 for one task alone in the queue, served by the thread
   * `caller`: each pass waits until the task is due (the thread reads the
   * clock `lag(n)` after the launch time of occurrence n), takes it and
   * handles it at that reading, until it is dropped or completed. Over all
   * passes the task runs exactly what LifetimeFrom from index 0 lists and
   * its future ends as that lifetime's end says.
   */
  method RunAlone(queue: RepeaterTaskQueue, job: RepeaterTask, caller: ThreadId, lag: int -> nat)
    returns (route: Route)
    requires job.Valid() && job.Ready() && job.repeatNumber == 0
    requires multiset(queue.items) == multiset{job}
    modifies queue, job, job.future
    ensures route == Dropped || route == Completed
    ensures queue.items == []
    ensures job.calls == LifetimeFrom(job.callback, job.repeatCount, 0).ran
    ensures route == Dropped <==> LifetimeFrom(job.callback, job.repeatCount, 0).end.Failed?
    ensures LifetimeFrom(job.callback, job.repeatCount, 0).end.Failed? ==>
              job.future.State() == Slot(true, Some(LifetimeFrom(job.callback, job.repeatCount, 0).end.error))
    ensures LifetimeFrom(job.callback, job.repeatCount, 0).end.Finished? ==>
              job.future.State() == Slot(true, None)
  {
    ghost var callback, count := job.callback, job.repeatCount;
    ghost var whole := LifetimeFrom(callback, count, 0);
    route := Rescheduled(NoSignal);
    while route.Rescheduled?
      invariant job.Valid() && 0 <= job.repeatNumber <= count && route != Stopped
      invariant route.Rescheduled? ==> job.Ready() && multiset(queue.items) == multiset{job}
      invariant route.Rescheduled? ==> OnTrack(callback, count, job.repeatNumber, job.calls, whole)
      invariant !route.Rescheduled? ==> queue.items == [] && LivedOut(route, job.calls, job.future.State(), whole)
      decreases count - job.repeatNumber
    {
      ghost var n := job.repeatNumber;
      ghost var d := Dispose(callback(n).Some?, n + 1 < count);
      LifetimeStep(callback, count, n, d);
      route := ServeAlone(queue, job, caller, job.startAfterTime + lag(job.repeatNumber));
    }
  }
}
