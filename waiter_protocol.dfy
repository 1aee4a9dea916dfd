/**
 * The designated-waiter protocol of `RepeaterTaskQueue` over any number of
 * threads. A world records the `timerWaiter` field and where each thread is
 * parked. A thread may take a queue step at any time (a wake-up by signal,
 * timeout or spuriously only lets it run the loop body again), so every trace
 * the real scheduler allows is a trace here. Invariant: a thread asleep on
 * `timerWait` is the designated waiter, so at most one thread sleeps on the
 * timer.
 */
module WaiterProtocol {
  import opened Wrappers
  import opened TaskQueues

  /** Where a thread is: running (outside the queue), parked on `idleWait`, or on `timerWait`. */
  datatype Status = Running | IdleParked | TimerParked(nanos: int)

  datatype World = World(waiter: Option<ThreadId>, status: map<ThreadId, Status>)

  /** The initial world: nobody designated, every thread running. */
  function Start(threads: set<ThreadId>): (w: World)
    ensures w.waiter.None?
    ensures w.status.Keys == threads
  {
    World(None, map t | t in threads :: Running)
  }

  predicate TimerSleeper(w: World, t: ThreadId) {
    t in w.status && w.status[t].TimerParked?
  }

  /** Every timer sleeper is the designated waiter. */
  predicate SingleSleeper(w: World) {
    forall t :: t in w.status && w.status[t].TimerParked? ==> w.waiter == Some(t)
  }

  function StatusAfter(d: Decision): Status {
    match d
    case ParkIdle => IdleParked
    case ParkTimer(n) => TimerParked(n)
    case TakeHead => Running
  }

  /**
   * Thread `caller` runs one pass of the `awaitNextTask` loop while the head
   * launch time is `head` and the clock reads `now`. Only the caller's own
   * status and the waiter field change, and the invariant is kept.
   */
  function QueueStep(w: World, caller: ThreadId, head: Option<int>, now: int): (w': World)
    ensures SingleSleeper(w) ==> SingleSleeper(w')
    ensures forall t :: t != caller && t in w.status ==> t in w'.status && w'.status[t] == w.status[t]
    ensures caller in w'.status
  {
    var d := Decide(head, w.waiter, caller, now);
    World(WaiterAfter(head, w.waiter, caller, now), w.status[caller := StatusAfter(d)])
  }

  /** The wait of thread `caller` is interrupted: it releases its role and leaves. */
  function InterruptStep(w: World, caller: ThreadId): (w': World)
    ensures SingleSleeper(w) ==> SingleSleeper(w')
    ensures w'.waiter != Some(caller)
  {
    World(Released(w.waiter, caller), w.status[caller := Running])
  }

  /** An event of a trace. `addTask` is absent: it leaves the waiter and every status alone. */
  datatype Event = Pass(caller: ThreadId, head: Option<int>, now: int) | Interrupt(caller: ThreadId)

  function Run(w: World, events: seq<Event>): World
    decreases |events|
  {
    if events == [] then w
    else
      var e := events[0];
      var next := match e
        case Pass(c, h, n) => QueueStep(w, c, h, n)
        case Interrupt(c) => InterruptStep(w, c);
      Run(next, events[1..])
  }

  /** The invariant holds after every trace from a world where it holds. */
  lemma {:induction false} RunKeepsSingleSleeper(w: World, events: seq<Event>)
    requires SingleSleeper(w)
    ensures SingleSleeper(Run(w, events))
    decreases |events|
  {
    if events != [] {
      var next := match events[0]
        case Pass(c, h, n) => QueueStep(w, c, h, n)
        case Interrupt(c) => InterruptStep(w, c);
      RunKeepsSingleSleeper(next, events[1..]);
    }
  }

  /** From the start, at any instant at most one thread sleeps on the timer. */
  lemma AtMostOneTimerSleeper(threads: set<ThreadId>, events: seq<Event>, t1: ThreadId, t2: ThreadId)
    requires TimerSleeper(Run(Start(threads), events), t1)
    requires TimerSleeper(Run(Start(threads), events), t2)
    ensures t1 == t2
  {
    RunKeepsSingleSleeper(Start(threads), events);
  }
}
