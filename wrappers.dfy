/** Option and Result, the two failure-compatible wrappers the model uses. */
module Wrappers {

  /** An optional value: `None` stands for JavaScript's `undefined` (an absent key, a hole). */
  datatype Option<+T> = None | Some(value: T)

  /** The outcome of an operation that JavaScript would abort by throwing. */
  datatype Result<+T, +E> = Success(value: T) | Failure(error: E) {

    predicate IsFailure() {
      Failure?
    }

    function PropagateFailure<U>(): Result<U, E>
      requires Failure?
    {
      Failure(error)
    }

    function Extract(): T
      requires Success?
    {
      value
    }
  }
}
