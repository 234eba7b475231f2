/** Java's two ways of saying "maybe not": a nullable reference, and a call
    that may end in an `AppException`. */
module Wrappers {

  /** A reference that may be `null`. */
  datatype Option<+T> = None | Some(value: T) {

    /** Like `Optional.orElse`: the value when there is one, else `fallback`. */
    function OrElse(fallback: T): T {
      if Some? then value else fallback
    }
  }

  /** The outcome of a call: its value, or the error code it threw.
      `IsFailure`, `PropagateFailure` and `Extract` are the members Dafny's
      `:-` operator looks for, so a thrown error propagates to the caller. */
  datatype Result<+R, +E> = Success(value: R) | Failure(error: E) {

    predicate IsFailure() {
      Failure?
    }

    function PropagateFailure<U>(): Result<U, E>
      requires Failure?
    {
      Failure(error)
    }

    function Extract(): R
      requires Success?
    {
      value
    }
  }
}
