/** Optional values: JavaScript's `undefined` (and a `null` returned on purpose) become `None`. */
module Wrappers {

  datatype Option<+T> = None | Some(value: T) {

    /** Returns the value held in `Some`, or `default` for `None`. */
    function GetOr(default: T): T {
      match this
      case Some(v) => v
      case None => default
    }
  }
}
