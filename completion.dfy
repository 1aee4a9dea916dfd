/**
 * The single-assignment completion slot that `TaskFuture` and
 * `RepeaterFutureImpl` both implement: a finished flag and an error slot.
 * The first signal finishes the slot; an error arriving after that is
 * discarded, and completing never erases a stored error.
 */
module Completion {
  import opened Wrappers

  /** The Java throwables, as far as a future distinguishes them. */
  datatype Throwable =
    | Unchecked(id: nat)                // some RuntimeException
    | Checked(id: nat)                  // an Exception that is not a RuntimeException
    | Fatal(id: nat)                    // an Error, or another Throwable that is no Exception
    | RuntimeWrapper(cause: Throwable)  // new RuntimeException(cause)

  predicate IsRuntime(t: Throwable) {
    t.Unchecked? || t.RuntimeWrapper?
  }

  /** The two fields of a future: `isFinished` and `error` (null is None). */
  datatype Slot = Slot(finished: bool, error: Option<Throwable>)

  /** A freshly constructed future: not finished, no error. */
  const Fresh: Slot := Slot(false, None)

  /** The slot invariant: an error is only ever stored together with finishing. */
  predicate Consistent(s: Slot) {
    s.error.Some? ==> s.finished
  }

  /** `signalComplete`: finish, keeping whatever error is stored. */
  function AfterComplete(s: Slot): (r: Slot)
    ensures r.finished
    ensures r.error == s.error
    ensures Consistent(r)
  {
    Slot(true, s.error)
  }

  /** `signalError`: on an unfinished slot store the error and finish; otherwise no change. */
  function AfterError(s: Slot, e: Throwable): (r: Slot)
    ensures r.finished
    ensures s.finished ==> r == s
    ensures !s.finished ==> r.error == Some(e)
    ensures Consistent(s) ==> Consistent(r)
  {
    if s.finished then s else Slot(true, Some(e))
  }

  /** A report a future can receive: `signalComplete` or `signalError`. */
  datatype Report = Complete | Fail(error: Throwable)

  function Apply(s: Slot, sig: Report): Slot {
    match sig
    case Complete => AfterComplete(s)
    case Fail(e) => AfterError(s, e)
  }

  /** The slot after a sequence of signals, in order. */
  function Replay(s: Slot, sigs: seq<Report>): Slot
    decreases |sigs|
  {
    if sigs == [] then s else Replay(Apply(s, sigs[0]), sigs[1..])
  }

  /** A finished slot is frozen: no later signal changes it. */
  lemma {:induction false} FinishedIsFrozen(s: Slot, sigs: seq<Report>)
    requires s.finished
    ensures Replay(s, sigs) == s
    decreases |sigs|
  {
    if sigs != [] {
      FinishedIsFrozen(Apply(s, sigs[0]), sigs[1..]);
    }
  }

  /**
   * First writer wins: from a fresh slot, the first signal alone decides the
   * result. An error followed by a completion still reports the error; a
   * completion followed by an error reports none.
   */
  lemma {:induction false} FirstSignalWins(sigs: seq<Report>)
    requires |sigs| > 0
    ensures Replay(Fresh, sigs).finished
    ensures Replay(Fresh, sigs).error == (if sigs[0].Fail? then Some(sigs[0].error) else None)
  {
    FinishedIsFrozen(Apply(Fresh, sigs[0]), sigs[1..]);
  }

  /** What a call of `await` does in a slot state. */
  datatype AwaitResult =
    | MustWait                    // not finished: the caller blocks on the lock
    | Returns                     // finished without error: returns normally
    | Throws(thrown: Throwable)   // finished with an error: raises `thrown`

  /** `TaskFuture.await`: every stored error is raised wrapped in a new RuntimeException. */
  function TaskAwait(s: Slot): (r: AwaitResult)
    ensures r.MustWait? <==> !s.finished
    ensures r.Returns? <==> s.finished && s.error.None?
    ensures r.Throws? <==> s.finished && s.error.Some?
    ensures r.Throws? ==> r.thrown.RuntimeWrapper? && r.thrown.cause == s.error.value
  {
    if !s.finished then MustWait
    else if s.error.Some? then Throws(RuntimeWrapper(s.error.value))
    else Returns
  }

  /**
   * `RepeaterFutureImpl.await`: a stored RuntimeException is raised as it is,
   * any other error wrapped in a new RuntimeException; the caller always sees
   * an unchecked exception that is, or carries, the stored one.
   */
  function RepeaterAwait(s: Slot): (r: AwaitResult)
    ensures r.MustWait? <==> !s.finished
    ensures r.Returns? <==> s.finished && s.error.None?
    ensures r.Throws? <==> s.finished && s.error.Some?
    ensures r.Throws? ==> IsRuntime(r.thrown)
    ensures r.Throws? && IsRuntime(s.error.value) ==> r.thrown == s.error.value
    ensures r.Throws? && !IsRuntime(s.error.value) ==> r.thrown == RuntimeWrapper(s.error.value)
  {
    if !s.finished then MustWait
    else if s.error.Some? then
      (if IsRuntime(s.error.value) then Throws(s.error.value) else Throws(RuntimeWrapper(s.error.value)))
    else Returns
  }

  /** Once finished, every later `await` of either kind, after any further signals, has the same outcome. */
  lemma {:induction false} AwaitIsStable(s: Slot, later: seq<Report>)
    requires s.finished
    ensures TaskAwait(Replay(s, later)) == TaskAwait(s)
    ensures RepeaterAwait(Replay(s, later)) == RepeaterAwait(s)
  {
    FinishedIsFrozen(s, later);
  }
}
