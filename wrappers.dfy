/** Optional values, for the places where the Python code uses None. */
module Wrappers {

  datatype Option<+T> = None | Some(value: T) {

    /** The value inside Some, or a default for None. */
    function GetOr(default: T): T {
      match this
      case Some(v) => v
      case None => default
    }
  }
}
