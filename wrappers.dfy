/** Small failure-carrying datatypes shared by the other modules. */
module Wrappers {

  /** A value that may be absent: the result of a `.get()` that finds no row. */
  datatype Option<+T> = None | Some(value: T)

  /** A value or an error message: the result of an operation that may throw. */
  datatype Result<+T, +E> = Success(value: T) | Failure(error: E)
}
