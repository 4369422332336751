/** Optional values: the model's reading of JavaScript's `null`/`undefined`/`''`
    for a field that may be unset. */
module Wrappers {

  datatype Option<+T> = None | Some(value: T) {

    /** The value, or `default` when unset (JavaScript's `x || default`
        for a field whose set values are all truthy). */
    function GetOr(default: T): T {
      match this
      case Some(v) => v
      case None => default
    }
  }
}
