/** Optional values and call outcomes used by the order model. */
module Wrappers {

  /** A value that may be absent (a Java `Optional`, or a reference that may be null). */
  datatype Option<+T> = None | Some(value: T) {

    /** The value when present, `default` otherwise (`Optional.orElse`). */
    function GetOr(default: T): (r: T)
      ensures Some? ==> r == value
      ensures None? ==> r == default
    {
      match this
      case Some(v) => v
      case None => default
    }
  }

  /** The outcome of a Java call that either returns a value or throws. */
  datatype Result<+T, +E> = Success(value: T) | Failure(error: E)
}
