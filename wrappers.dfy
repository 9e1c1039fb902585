/** Failure-carrying values shared by every module of the model. */
module Wrappers {

  /** A value that may be missing; `None` also stands for JavaScript's NaN. */
  datatype Option<T> = None | Some(value: T)

  /** The outcome of a step that may throw. */
  datatype Result<T, E> = Success(value: T) | Failure(error: E)
}
