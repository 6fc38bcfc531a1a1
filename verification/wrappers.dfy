/** Optional values and results used across the model. */
module Wrappers {

  /** A value that may be missing, as Python's `None` marks one. */
  datatype Option<+T> = None | Some(value: T) {

    /** The value held, else `default`. */
    function GetOr(default: T): T {
      match this
      case Some(v) => v
      case None => default
    }
  }

  /** A value or the reason it could not be computed. */
  datatype Result<+R, +E> = Ok(value: R) | Err(error: E)
}
