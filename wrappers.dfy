/** Failure-carrying values shared by every module: Go's `(T, error)` pairs
    and bare `error` returns, with the error text as a string. */
module Wrappers {

  datatype Option<+T> = None | Some(value: T)

  /** A Go `(T, error)` pair where exactly one side is meaningful. */
  datatype Result<+T> = Ok(value: T) | Err(error: string)

  /** A Go `error` return: `Pass` is nil. */
  datatype Outcome = Pass | Fail(error: string)
}
