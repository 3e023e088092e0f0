/** Shared result types.

    Go reports failure in two ways: an `error` returned beside the value, and a
    panic (`log.Panicf` in `FailOnError`, a failed type assertion, an index out of
    range). Inside the agent's delivery goroutine an unrecovered panic ends the
    whole process, so it is kept apart from an ordinary error. */
module Outcomes {

  datatype Option<+T> = None | Some(value: T)

  /** The outcome of a Go call returning `(T, error)`: `Ok` is a nil error,
      `Fail` a non-nil error with its text, `Panic` a crash with its reason. */
  datatype Outcome<+T> = Ok(value: T) | Fail(error: string) | Panic(reason: string)
  {
    /** The same failure at another value type: a new error with the same
        text (`return nil, errors.New(...)` repeating the helper's message),
        or the panic passed on. */
    function Propagate<U>(): (r: Outcome<U>)
      requires !Ok?
      ensures r.Fail? == Fail? && r.Panic? == Panic?
      ensures Fail? ==> r.error == error
      ensures Panic? ==> r.reason == reason
    {
      if Fail? then Fail(error) else Panic(reason)
    }
  }
}
