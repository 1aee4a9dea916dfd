/**
 * `RepeatService`, the earlier single-class version: `repeat` expands one
 * request into one queue item per occurrence, all sharing one countdown
 * latch; a worker removes the head once it is strictly overdue and executes
 * it, appending one history record and counting the latch down once.
 */
module RepeatServices {
  import opened Wrappers
  import Ordering
  import opened RepeaterTasks

  /** `java.util.concurrent.CountDownLatch`, without the blocking `await`. */
  class CountDownLatch {
    var count: nat

    constructor (count: nat)
      ensures this.count == count
    {
      this.count := count;
    }

    /** One count down; at zero nothing happens. */
    method CountDown()
      modifies this
      ensures count == if old(count) > 0 then old(count) - 1 else 0
    {
      if count > 0 {
        count := count - 1;
      }
    }
  }

  datatype RepeatRequest = RepeatRequest(delayInMillis: Int32, repeatCount: Int32, username: string, message: string)

  datatype QueueItem = QueueItem(
    username: string,
    message: string,
    startAfterTime: int,
    repeatNumber: int,
    latch: CountDownLatch)

  datatype HistoryItem = HistoryItem(username: string, repeatNumber: int, message: string)

  /** Item i of a request: occurrence i, due i delays after `now`. */
  function ItemAt(req: RepeatRequest, now: int, latch: CountDownLatch, i: int): QueueItem {
    QueueItem(req.username, req.message, now + i * req.delayInMillis, i, latch)
  }

  /** The first n items a request expands into, in the order they are added. */
  function Expansion(req: RepeatRequest, now: int, latch: CountDownLatch, n: nat): seq<QueueItem> {
    if n == 0 then [] else Expansion(req, now, latch, n - 1) + [ItemAt(req, now, latch, n - 1)]
  }

  /**
   * n items: item i carries the request's user and message, occurrence number
   * i, launch time now + i * delay and the shared latch.
   */
  lemma {:induction false} ExpansionShape(req: RepeatRequest, now: int, latch: CountDownLatch, n: nat)
    ensures |Expansion(req, now, latch, n)| == n
    ensures forall i :: 0 <= i < n ==>
              var item := Expansion(req, now, latch, n)[i];
              && item.username == req.username && item.message == req.message
              && item.repeatNumber == i
              && item.startAfterTime == now + i * req.delayInMillis
              && item.latch == latch
  {
    if n > 0 {
      ExpansionShape(req, now, latch, n - 1);
    }
  }

  /** With a non-negative delay, later occurrences are never due earlier. */
  lemma ExpansionIsMonotone(req: RepeatRequest, now: int, latch: CountDownLatch, n: nat, i: int, j: int)
    requires req.delayInMillis >= 0
    requires 0 <= i <= j < n
    ensures |Expansion(req, now, latch, n)| == n
    ensures Expansion(req, now, latch, n)[i].startAfterTime <= Expansion(req, now, latch, n)[j].startAfterTime
  {
    ExpansionShape(req, now, latch, n);
    assert i * req.delayInMillis <= j * req.delayInMillis by {
      assert (j - i) * req.delayInMillis >= 0;
    }
  }

  function StartTimes(s: seq<QueueItem>): (r: seq<int>)
    ensures |r| == |s| && forall i :: 0 <= i < |s| ==> r[i] == s[i].startAfterTime
  {
    seq(|s|, i requires 0 <= i < |s| => s[i].startAfterTime)
  }

  /**
   * `x` may be what `peek` returns: an item of the queue with the smallest
   * launch time. Which of several such items the heap returns is not fixed.
   */
  predicate IsHead(s: seq<QueueItem>, x: QueueItem)
  {
    x in s && forall y :: y in s ==> x.startAfterTime <= y.startAfterTime
  }

  /** The only possible head: every other item is due strictly later. */
  predicate SoleHead(s: seq<QueueItem>, x: QueueItem)
  {
    IsHead(s, x) && forall y :: y in s && y != x ==> x.startAfterTime < y.startAfterTime
  }

  /** Two items due at the same time may each be the head: the model fixes no tie order. */
  lemma TiesAreOpen(a: QueueItem, b: QueueItem)
    requires a.startAfterTime == b.startAfterTime
    ensures IsHead([a, b], a) && IsHead([a, b], b)
    ensures a != b ==> !SoleHead([a, b], a) && !SoleHead([a, b], b)
  {
  }

  /** `peek` is null only on an empty queue: any other queue has a head. */
  lemma HeadExists(s: seq<QueueItem>)
    ensures s != [] <==> exists x :: x in s && IsHead(s, x)
  {
    if s != [] {
      var k := Ordering.ArgMin(StartTimes(s));
      assert IsHead(s, s[k]);
    }
  }

  /** What a worker waits on before looking at the head again. */
  datatype Wait =
    | WaitForItems                          // empty queue: `queueAddedItems.await()`
    | WaitFor(millis: int, head: QueueItem) // at most `millis`, then re-check `head`

  class RepeatService {
    /** The items of the priority queue; their order in the sequence carries no meaning. */
    var queue: seq<QueueItem>
    var history: seq<HistoryItem>

    constructor ()
      ensures queue == [] && history == []
    {
      queue := [];
      history := [];
    }

    /**
     * `repeat` at clock reading `now`: a count below one enqueues nothing;
     * otherwise a fresh latch set to the count, and the count's items append
     * to the queue. The returned latch is the one the caller then blocks on.
     */
    method Repeat(req: RepeatRequest, now: int) returns (latch: Option<CountDownLatch>)
      modifies this`queue
      ensures req.repeatCount < 1 ==> latch.None? && queue == old(queue)
      ensures req.repeatCount >= 1 ==>
                && latch.Some? && fresh(latch.value)
                && latch.value.count == req.repeatCount
                && queue == old(queue) + Expansion(req, now, latch.value, req.repeatCount)
    {
      if req.repeatCount < 1 {
        return None;
      }
      var countDownLatch := new CountDownLatch(req.repeatCount);
      var i := 0;
      while i < req.repeatCount
        invariant 0 <= i <= req.repeatCount
        invariant queue == old(queue) + Expansion(req, now, countDownLatch, i)
        invariant countDownLatch.count == req.repeatCount
      {
        var startAfterTime := now + i * req.delayInMillis;
        queue := queue + [QueueItem(req.username, req.message, startAfterTime, i, countDownLatch)];
        i := i + 1;
      }
      return Some(countDownLatch);
    }

    /** `getHistoryOfRequests`: a copy of the history, which stays as it is. */
    method GetHistoryOfRequests() returns (r: seq<HistoryItem>)
      ensures r == history
    {
      r := history;
    }

    /**
     * Lines 96-105 of `handleQueue`: what the worker waits on, given the head
     * at `now`; with equal launch times the head may be any of those items.
     */
    method PeekForWait(now: int) returns (w: Wait)
      ensures w == WaitForItems <==> queue == []
      ensures w.WaitFor? ==> IsHead(queue, w.head)
      ensures w.WaitFor? ==> w.millis >= 0 && w.millis >= w.head.startAfterTime - now
      ensures w.WaitFor? ==> w.millis == 0 || now + w.millis == w.head.startAfterTime
    {
      if queue == [] {
        return WaitForItems;
      }
      HeadExists(queue);
      var head :| head in queue && IsHead(queue, head);
      var delay := head.startAfterTime - now;
      return WaitFor(if delay >= 0 then delay else 0, head);
    }

    /** `executeTask`: one history record copied from the item, one count down of its latch. */
    method ExecuteTask(item: QueueItem)
      modifies this`history, item.latch
      ensures history == old(history) + [HistoryItem(item.username, item.repeatNumber, item.message)]
      ensures item.latch.count == if old(item.latch.count) > 0 then old(item.latch.count) - 1 else 0
    {
      history := history + [HistoryItem(item.username, item.repeatNumber, item.message)];
      item.latch.CountDown();
    }

    /**
     * Lines 107-112, after the wait: `observed` is removed and executed only
     * if it is still the head and the clock reading `now` is strictly past
     * its launch time; otherwise nothing changes. An item that is the only
     * possible head and overdue is always taken; one tied with others for the
     * smallest launch time is taken only if the heap returns it.
     */
    method TakeIfDue(observed: QueueItem, now: int) returns (taken: bool)
      modifies this, observed.latch
      ensures taken ==> IsHead(old(queue), observed) && now > observed.startAfterTime
      ensures SoleHead(old(queue), observed) && now > observed.startAfterTime ==> taken
      ensures taken ==> multiset(queue) == old(multiset(queue)) - multiset{observed}
      ensures taken ==> history == old(history) + [HistoryItem(observed.username, observed.repeatNumber, observed.message)]
      ensures taken ==> observed.latch.count == if old(observed.latch.count) > 0 then old(observed.latch.count) - 1 else 0
      ensures !taken ==> queue == old(queue) && history == old(history) && observed.latch.count == old(observed.latch.count)
    {
      if queue == [] {
        return false;
      }
      HeadExists(queue);
      var head :| head in queue && IsHead(queue, head);
      if head == observed && now > observed.startAfterTime {
        var k :| 0 <= k < |queue| && queue[k] == observed;
        assert queue == queue[..k] + [observed] + queue[k + 1..];
        queue := queue[..k] + queue[k + 1..];
        ExecuteTask(observed);
        return true;
      }
      return false;
    }
  }
}
