/** Optional values and results with an error, as the services return them. */
module Wrappers {

  /** A value that may be absent: `null`, `undefined` or a missing key. */
  datatype Option<+T> = None | Some(value: T) {
    function GetOr(default: T): T
    {
      match this
      case Some(v) => v
      case None => default
    }
  }

  /** The outcome of an operation that can throw: `Err` stands for the thrown error. */
  datatype Result<+T, +E> = Ok(value: T) | Err(error: E)
}
