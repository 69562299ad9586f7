/** Option and Result, used for PHP's nullable values and thrown exceptions. */
module Wrappers {

  /** A nullable value: `None` stands for PHP's `null`. */
  datatype Option<+T> = None | Some(value: T) {

    /** The value, or `default` when there is none (PHP's `??`). */
    function GetOr(default: T): T {
      match this
      case Some(v) => v
      case None => default
    }
  }

  /** The outcome of a PHP call that either returns a value or throws. */
  datatype Result<+T, +E> = Success(value: T) | Failure(error: E) {

    predicate IsFailure() {
      Failure?
    }

    function PropagateFailure<U>(): Result<U, E>
      requires Failure?
    {
      Failure(error)
    }

    function Extract(): T
      requires Success?
    {
      value
    }
  }
}
