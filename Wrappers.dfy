/** Optional values: a JavaScript value that may be absent (undefined, null or a failed parse). */
module Wrappers {

  datatype Option<+T> = None | Some(value: T) {

    /** The value if present, otherwise the default (the spread `{...defaults, ...saved}` per field). */
    function GetOr(default: T): T {
      match this
      case Some(v) => v
      case None => default
    }
  }
}
