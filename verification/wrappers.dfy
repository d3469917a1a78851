/** Failure-compatible wrappers: Python's `None` and raised exceptions. */
module Wrappers {

  /** A value that may be absent; `None` is Python's `None`, bound as SQL NULL. */
  datatype Option<+T> = None | Some(value: T)

  /** The outcome of a step that either produces a value or raises an error. */
  datatype Result<+R, +E> = Success(value: R) | Failure(error: E)
}
