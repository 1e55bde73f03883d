/**
 * A single-assignment completer: the first `complete` or `completeError` settles it, and
 * every later attempt is ignored. Awaiting a settled completer yields what settled it.
 */
module Async {
  import opened Wrappers

  /** What can be raised to an awaiting caller: the failure it was given, or the NPE of a null result. */
  datatype Throwable = NullPointerException | Exception(message: string)

  /** How a completer was settled. A value is `None` when the caller completed with a Kotlin null. */
  datatype Completion<T> = Value(result: Option<T>) | Error(exception: Throwable)

  /** What `await` does right away: resume with a value, resume with an exception, or wait. */
  datatype AwaitResult<T> = Returned(value: T) | Raised(exception: Throwable) | Pending

  /** The effect of one completion attempt on the settled state: only the first one counts. */
  function Settle<T>(state: Option<Completion<T>>, attempt: Completion<T>): (r: Option<Completion<T>>)
    ensures r.Some?
    ensures state.Some? ==> r == state
    ensures state.None? ==> r == Some(attempt)
  {
    if state.Some? then state else Some(attempt)
  }

  /** The settled state after a run of completion attempts, in order. */
  function SettleAll<T>(state: Option<Completion<T>>, attempts: seq<Completion<T>>): Option<Completion<T>>
    decreases |attempts|
  {
    if attempts == [] then state else SettleAll(Settle(state, attempts[0]), attempts[1..])
  }

  /** Once settled, no run of later attempts changes the state. */
  lemma {:induction false} SettledStaysSettled<T>(state: Option<Completion<T>>, attempts: seq<Completion<T>>)
    requires state.Some?
    ensures SettleAll(state, attempts) == state
    decreases |attempts|
  {
    if attempts != [] {
      SettledStaysSettled(Settle(state, attempts[0]), attempts[1..]);
    }
  }

  /** A fresh completer run through any attempts is settled by the first of them. */
  lemma FirstAttemptWins<T>(attempts: seq<Completion<T>>)
    ensures attempts == [] ==> SettleAll(None, attempts) == None
    ensures attempts != [] ==> SettleAll(None, attempts) == Some(attempts[0])
  {
    if attempts != [] {
      SettledStaysSettled(Some(attempts[0]), attempts[1..]);
    }
  }

  /** What `await` yields on a state: the exception, else the result, whose null raises an NPE. */
  function AwaitOf<T>(state: Option<Completion<T>>): AwaitResult<T>
  {
    match state
    case None => Pending
    case Some(Error(e)) => Raised(e)
    case Some(Value(None)) => Raised(NullPointerException)
    case Some(Value(Some(v))) => Returned(v)
  }

  class Completer<T> {
    var isCompleted: bool
    var result: Option<T>
    var exception: Option<Throwable>

    /** The fields hold at most one completion, and nothing before completion. */
    predicate Valid()
      reads this
    {
      (!isCompleted ==> result.None? && exception.None?) && (exception.Some? ==> result.None?)
    }

    /** The completion the fields record, if any. */
    function State(): Option<Completion<T>>
      reads this
    {
      if !isCompleted then None
      else if exception.Some? then Some(Error(exception.value))
      else Some(Value(result))
    }

    /** A new completer is not completed. */
    constructor ()
      ensures Valid() && !isCompleted && State() == None
    {
      isCompleted := false;
      result := None;
      exception := None;
    }

    /** complete(result): settles with the result unless already settled. */
    method Complete(r: Option<T>)
      requires Valid()
      modifies this
      ensures Valid() && isCompleted
      ensures State() == Settle(old(State()), Value(r))
      ensures old(isCompleted) ==> unchanged(this)
    {
      if isCompleted {
        return;
      }
      isCompleted := true;
      result := r;
    }

    /** completeError(exception): settles with the exception unless already settled. */
    method CompleteError(e: Throwable)
      requires Valid()
      modifies this
      ensures Valid() && isCompleted
      ensures State() == Settle(old(State()), Error(e))
      ensures old(isCompleted) ==> unchanged(this)
    {
      if isCompleted {
        return;
      }
      isCompleted := true;
      exception := Some(e);
    }

    /** The already-completed branch of await, and `Pending` where the polling thread would start. */
    method AwaitNow() returns (r: AwaitResult<T>)
      requires Valid()
      ensures r == AwaitOf(State())
      ensures r.Pending? <==> !isCompleted
    {
      if !isCompleted {
        return Pending;
      }
      if exception.Some? {
        r := Raised(exception.value);
      } else if result.Some? {
        r := Returned(result.value);
      } else {
        r := Raised(NullPointerException);
      }
    }
  }
}
