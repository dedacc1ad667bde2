/** Optional values and results with an error message, as used throughout the model. */
module Wrappers {

  /** A value that may be absent: a JavaScript property that is `undefined`. */
  datatype Option<+T> = None | Some(value: T) {

    /** The value, or `default` when absent: a destructuring default `{ x = d }`. */
    function GetOr(default: T): T {
      match this
      case Some(v) => v
      case None => default
    }
  }

  /** The outcome of an operation that either returns a value or throws an `Error` with a message. */
  datatype Result<+T> = Ok(value: T) | Err(message: string)
}
