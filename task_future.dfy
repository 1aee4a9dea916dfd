/** `org.example.utils.TaskFuture`: the completion slot of a repeat task. */
module TaskFutures {
  import opened Wrappers
  import opened Completion

  class TaskFuture {
    var error: Option<Throwable>
    var isFinished: bool

    /** The abstract value of the two fields. */
    function State(): Slot
      reads this
    {
      Slot(isFinished, error)
    }

    ghost predicate Valid()
      reads this
    {
      Consistent(State())
    }

    constructor ()
      ensures Valid()
      ensures State() == Fresh
    {
      error := None;
      isFinished := false;
    }

    /** Finish; a stored error stays. (The `notifyAll` of waiters is not modelled.) */
    method SignalComplete()
      requires Valid()
      modifies this
      ensures Valid()
      ensures State() == AfterComplete(old(State()))
    {
      isFinished := true;
    }

    /** Store the error and finish, unless already finished. */
    method SignalError(throwable: Throwable)
      requires Valid()
      modifies this
      ensures Valid()
      ensures State() == AfterError(old(State()), throwable)
    {
      if isFinished {
        return;
      }
      error := Some(throwable);
      isFinished := true;
    }

    /** `hasError`: true exactly when a finished `await` raises. */
    function HasError(): (b: bool)
      reads this
      requires Valid()
      ensures b <==> TaskAwait(State()).Throws?
    {
      error.Some?
    }

    /** One evaluation of `await` under the lock: wait while unfinished, then raise or return. */
    method Await() returns (r: AwaitResult)
      ensures r == TaskAwait(State())
      ensures r.Throws? ==> r.thrown == RuntimeWrapper(error.value)
    {
      if !isFinished {
        return MustWait;
      }
      if error.Some? {
        return Throws(RuntimeWrapper(error.value));
      }
      return Returns;
    }
  }
}
