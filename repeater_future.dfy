/** `RepeaterFutureImpl`: the same slot, whose `await` rethrows unchecked errors as they are. */
module RepeaterFutures {
  import opened Wrappers
  import opened Completion

  class RepeaterFuture {
    var error: Option<Throwable>
    var isFinished: bool

    function State(): Slot
      reads this
    {
      Slot(isFinished, error)
    }

    ghost predicate Valid()
      reads this
    {
      Consistent(State())
    }

    constructor ()
      ensures Valid()
      ensures State() == Fresh
    {
      error := None;
      isFinished := false;
    }

    /** Finish; a stored error stays. */
    method SignalComplete()
      requires Valid()
      modifies this
      ensures Valid()
      ensures State() == AfterComplete(old(State()))
    {
      isFinished := true;
    }

    /** Store the error and finish, unless already finished (protection against overwriting). */
    method SignalError(throwable: Throwable)
      requires Valid()
      modifies this
      ensures Valid()
      ensures State() == AfterError(old(State()), throwable)
    {
      if isFinished {
        return;
      }
      error := Some(throwable);
      isFinished := true;
    }

    /** `hasError`: true exactly when a finished `await` raises. */
    function HasError(): (b: bool)
      reads this
      requires Valid()
      ensures b <==> RepeaterAwait(State()).Throws?
    {
      error.Some?
    }

    /** One evaluation of `await` under the lock. */
    method Await() returns (r: AwaitResult)
      ensures r == RepeaterAwait(State())
    {
      if !isFinished {
        return MustWait;
      }
      if error.Some? {
        if IsRuntime(error.value) {
          return Throws(error.value);
        }
        return Throws(RuntimeWrapper(error.value));
      }
      return Returns;
    }
  }
}
