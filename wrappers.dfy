/** Failure-carrying values shared by every module: a JavaScript `throw` becomes `Err`. */
module Wrappers {

  datatype Option<+T> = None | Some(value: T)

  /** A value or the message of the `Error` the source would throw. */
  datatype Result<+T> = Ok(value: T) | Err(error: string) {
    predicate IsFailure() { Err? }

    function PropagateFailure<U>(): Result<U>
      requires Err?
    {
      Err(error)
    }

    function Extract(): T
      requires Ok?
    {
      value
    }
  }

  /** Success or the message of the thrown `Error`, for operations that return nothing. */
  datatype Outcome = Pass | Fail(error: string) {
    predicate IsFailure() { Fail? }

    function PropagateFailure(): Outcome
      requires Fail?
    {
      this
    }
  }
}
