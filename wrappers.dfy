/** Failure-carrying values shared by the modules of this model: an optional
    value (the source's `null`), and the result of a call that may throw. */
module Wrappers {

  /** A value or its absence (`null`/`undefined` in the source). */
  datatype Option<+T> = None | Some(value: T)

  /** The outcome of a call that either returns a value or throws an error. */
  datatype Result<+R, +E> = Success(value: R) | Failure(error: E)

  /** The outcome of a call that returns nothing or throws an error. */
  datatype Outcome<+E> = Pass | Fail(error: E)
}
