/** Small failure-carrying datatypes shared by the other modules. */
module Wrappers {

  /** A value that may be absent, as Python's `None` or a missing dictionary key. */
  datatype Option<+T> = None | Some(value: T)

  /** The outcome of an operation that either returns a value or raises an exception. */
  datatype Result<+R, +E> = Success(value: R) | Failure(error: E)
}
