/** Failure-carrying values used wherever the C++ code throws or returns an optional. */
module Outcomes {

  /** A value that may be absent (std::optional, a null pointer). */
  datatype Option<T> = None | Some(value: T)

  /** A value or the message of the std::runtime_error that replaced it. */
  datatype Result<T> = Ok(value: T) | Err(msg: string)

  /** Completion of an operation that returns nothing, or the message it threw. */
  datatype Outcome = Pass | Fail(msg: string)
}
