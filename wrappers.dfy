/** Optional values. On the client side `None` also stands for a JSON field that is
    absent (JavaScript `undefined`); on the server side for SQL `NULL`. */
module Wrappers {

  datatype Option<+T> = None | Some(value: T) {

    /** The value, or `default` when there is none (Python's `dict.get(k, d)`). */
    function GetOr(default: T): T {
      match this
      case Some(v) => v
      case None => default
    }
  }
}
