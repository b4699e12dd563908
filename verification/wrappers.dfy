/** Optional values and success/failure results, standing in for the source's
    null references and thrown exceptions. */
module Wrappers {

  /** `None` plays the part of a null reference. */
  datatype Option<+T> = None | Some(value: T) {

    /** Applies `f` to the value if there is one (the `?.` operator). */
    function Map<U>(f: T -> U): (r: Option<U>)
      ensures r.Some? <==> Some?
      ensures Some? ==> r.value == f(value)
    {
      match this
      case None => None
      case Some(v) => Some(f(v))
    }
  }

  /** `Failure` plays the part of an exception thrown out of an operation. */
  datatype Result<+R, +E> = Success(value: R) | Failure(error: E) {

    predicate IsFailure() {
      Failure?
    }

    function PropagateFailure<U>(): Result<U, E>
      requires Failure?
    {
      Failure(error)
    }

    function Extract(): R
      requires Success?
    {
      value
    }
  }
}
