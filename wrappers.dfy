/** Failure-carrying values used in place of C++ exceptions and null results. */
module Wrappers {

  datatype Option<+T> = None | Some(value: T)

  /** A value, or the exception the source would have thrown instead. */
  datatype Result<+R, +E> = Success(value: R) | Failure(error: E)

  /** Normal completion of a `void` operation, or the exception it threw. */
  datatype Outcome<+E> = Pass | Fail(error: E)
}
