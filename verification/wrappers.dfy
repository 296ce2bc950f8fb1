/** The two wrapper types the handler model needs: a value that may be
    missing (an absent JavaScript field, a failed parse) and a computation
    that either yields a value or throws an error. */
module Wrappers {

  datatype Option<+T> = None | Some(value: T) {

    /** The wrapped value when there is one, else the fallback. */
    function GetOr(default: T): T {
      match this
      case Some(v) => v
      case None => default
    }
  }

  datatype Result<+R, +E> = Success(value: R) | Failure(error: E) {

    predicate IsFailure() {
      Failure?
    }

    function PropagateFailure<U>(): Result<U, E>
      requires Failure?
    {
      Failure(error)
    }

    function Extract(): R
      requires Success?
    {
      value
    }

    /** Rewrites the error of a Failure, keeping a Success as it is */
    function MapFailure<E2>(f: E -> E2): Result<R, E2> {
      match this
      case Success(v) => Success(v)
      case Failure(e) => Failure(f(e))
    }
  }
}
