/** Option and Result, the two failure-carrying datatypes the cart model uses. */
module Wrappers {

  /** A value that may be absent: a missing storage entry, a `find` with no match. */
  datatype Option<+T> = None | Some(value: T)

  /** The outcome of an operation that can throw. */
  datatype Result<+R, +E> = Success(value: R) | Failure(error: E)
}
