/** Failure-compatible wrappers shared by the bibox and fcoin models.
    `Option` stands for a Go pointer or interface that may be nil, and
    `Result` for a Go `(value, error)` pair in which exactly one side is used. */
module Wrappers {

  datatype Option<+T> = None | Some(value: T)

  datatype Result<+T, +E> = Success(value: T) | Failure(error: E) {

    predicate IsFailure() {
      Failure?
    }

    function PropagateFailure<U>(): Result<U, E>
      requires Failure?
    {
      Failure(error)
    }

    function Extract(): T
      requires Success?
    {
      value
    }
  }
}
