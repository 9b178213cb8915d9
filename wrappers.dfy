/** Small failure-carrying datatypes shared by the other modules. */
module Wrappers {

  /** A value that may be absent: a `null` reference in the original code. */
  datatype Option<+T> = None | Some(value: T)

  /** Either a value or the error that prevented computing it (a thrown exception). */
  datatype Result<+R, +E> = Success(value: R) | Failure(error: E)

  /** Success with no value, or an error (a `void` operation that may throw). */
  datatype Outcome<+E> = Pass | Fail(error: E)
}
