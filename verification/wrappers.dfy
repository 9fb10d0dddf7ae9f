/** Optional values and success/failure results, the shapes the model uses for
    Swift optionals and for Combine publishers that either emit or fail. */
module Wrappers {

  /** A Swift optional: `nil` or a wrapped value. */
  datatype Option<+T> = None | Some(value: T) {

    /** The wrapped value, or `default` when there is none (Swift's `??`). */
    function GetOr(default: T): (r: T)
      ensures Some? ==> r == value
      ensures None? ==> r == default
    {
      match this
      case Some(v) => v
      case None => default
    }
  }

  /** The single outcome of a publisher that emits one value or fails with `E`. */
  datatype Result<+R, +E> = Success(value: R) | Failure(error: E)
}
