/** Failure-carrying result types shared by the model.
  - Option<T>: a value that may be absent (a missing dictionary key, a not-found row)
  - Result<T, E>: a computation that either produces a value or raises an error
 */
module Wrappers {

  datatype Option<+T> = None | Some(value: T)

  datatype Result<+T, +E> = Success(value: T) | Failure(error: E)
}
