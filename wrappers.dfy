/** Failure-carrying result types shared by the model. */
module Wrappers {

  /** A value that may be absent: a JSON field that is missing, or a nullable column. */
  datatype Option<+T> = None | Some(value: T)

  /** The outcome of an operation that either yields a value or throws. */
  datatype Result<+R, +E> = Ok(value: R) | Err(error: E)

  /** The outcome of an operation that yields nothing or throws. */
  datatype Outcome<+E> = Pass | Fail(error: E)
}
