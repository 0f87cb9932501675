/** Optional values: `None` stands for a JavaScript `undefined` (or absent) field. */
module Wrappers {

  datatype Option<+T> = None | Some(value: T) {

    /** The value, or `default` when it is absent (the source's `x == null ? d : x`). */
    function GetOr(default: T): T {
      match this
      case Some(v) => v
      case None => default
    }
  }
}
