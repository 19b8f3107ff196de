/** Optional values and results with an error, as the route handlers use them:
    a field that may be absent from a request or a stored document, and a
    handler that either answers or raises an HTTP error. */
module Wrappers {

  datatype Option<+T> = None | Some(value: T) {

    /** The value if present, else `default` (Python's `d.get(key, default)`). */
    function GetOr(default: T): (r: T) {
      match this
      case Some(v) => v
      case None => default
    }
  }

  datatype Result<+T, +E> = Ok(value: T) | Err(error: E)
}
