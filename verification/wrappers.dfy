/** Option and Result types shared by the storefront model. */
module Wrappers {

  /** A value that may be absent: a missing dictionary key, an unset field. */
  datatype Option<+T> = None | Some(value: T) {

    /** The value, or `default` when there is none (JavaScript's `x || d`, Python's `d.get(k, default)`). */
    function GetOr(default: T): T {
      match this
      case Some(v) => v
      case None => default
    }
  }

  /** Either a success value or a classified error the caller can branch on. */
  datatype Result<+R, +E> = Success(value: R) | Failure(error: E)
}
