/** Optional values: a missing query parameter, a row that was not found. */
module Wrappers {
  datatype Option<+T> = None | Some(value: T) {
    /** The value, or a default when it is missing (JavaScript's `??`). */
    function GetOr(default: T): T {
      match this
      case Some(v) => v
      case None => default
    }
  }
}
