/** Failure-carrying values used in place of Go's `(value, error)` returns.
    An error is represented by its text, the result of `err.Error()`. */
module Outcome {

  datatype Option<T> = None | Some(value: T)

  /** A call that yields a value or an error. */
  datatype Result<T> = Ok(value: T) | Err(error: string)

  /** A call that yields only an error or nothing. */
  datatype Status = Success | Failure(error: string)
}
