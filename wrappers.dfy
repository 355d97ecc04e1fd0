/** Option and Result types standing in for C# null and thrown exceptions. */
module Wrappers {

  /** A value or C#'s null. */
  datatype Option<+T> = None | Some(value: T)

  /** Either a value or the exception an operation threw. */
  datatype Result<+T, +E> = Ok(value: T) | Err(error: E)

  /** Completion of an operation that returns nothing: normal or by an exception. */
  datatype Outcome<+E> = Pass | Fail(error: E)
}
