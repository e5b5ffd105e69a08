/** Optional values (`T | undefined` in the server) and failing results (a thrown Error). */
module Wrappers {

  datatype Option<+T> = None | Some(value: T) {
    /** The `??` operator: the value, or `default` when absent. */
    function GetOr(default: T): T {
      match this
      case Some(v) => v
      case None => default
    }
  }

  /** An operation that either returns a value or throws an Error carrying `error`. */
  datatype Result<+T, +E> = Ok(value: T) | Err(error: E)
}
