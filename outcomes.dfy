/** Failure-carrying wrappers used by every module of the model. */
module Outcomes {

  datatype Option<+T> = None | Some(value: T)

  /** The outcome of an operation of the tool that can throw: a value, or the error it throws. */
  datatype Result<+T, +E> = Success(value: T) | Failure(error: E) {
    predicate IsFailure() { Failure? }

    function PropagateFailure<U>(): Result<U, E>
      requires Failure?
    {
      Failure(error)
    }

    function Extract(): T
      requires Success?
    {
      value
    }
  }
}
