/** Optional values and success-or-error results, shared by the other modules. */
module Wrappers {

  /** A value that may be absent; `None` stands for a Java `null` return. */
  datatype Option<+T> = None | Some(value: T)

  /** The outcome of an operation that either yields a value or raises an error. */
  datatype Result<+R, +E> = Success(value: R) | Failure(error: E)
}
