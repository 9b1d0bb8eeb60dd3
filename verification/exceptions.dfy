/**
 * The exceptions the importer can raise, and the failure-compatible wrappers
 * used to thread them through the model.  A Python function that either
 * returns a value or raises is modelled as a function returning `Result`.
 */
module Exceptions {

  /** The three kinds of exception the importer lets escape. */
  datatype Error =
    | KeyError(key: string)       // a dict lookup or `pop` of a missing key
    | ValueError(text: string)    // `int(...)` or `float(...)` of a string that is not a number
    | ApiException(status: int)   // a failed request to the catalog service

  datatype Option<+T> = None | Some(value: T)

  datatype Result<+T> = Ok(value: T) | Err(error: Error) {
    predicate IsFailure() {
      Err?
    }

    function PropagateFailure<U>(): Result<U>
      requires Err?
    {
      Err(error)
    }

    function Extract(): T
      requires Ok?
    {
      value
    }
  }

  /** Whether a statement ran to completion or raised. */
  datatype Outcome = Done | Raised(error: Error)
}
