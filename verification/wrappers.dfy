/** Optional values and the outcome of an operation that can throw. */
module Wrappers {

  datatype Option<+T> = None | Some(value: T)

  /** Success, or the error an operation throws (a rejected promise in the source). */
  datatype Outcome<+E> = Pass | Fail(error: E)
}
