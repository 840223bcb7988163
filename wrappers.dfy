/** Optional values and error-carrying results, standing in for JavaScript's
    null/undefined and for thrown errors. */
module Wrappers {

  /** A value that may be absent (JavaScript null or undefined). */
  datatype Option<+T> = None | Some(value: T) {
    function GetOr(default: T): T {
      match this
      case Some(v) => v
      case None => default
    }
  }

  /** The outcome of an operation that either yields a value or throws an
      error carrying a message. */
  datatype Result<+T> = Ok(value: T) | Err(message: string)
}
