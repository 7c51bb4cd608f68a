/** The Some/None datatype used for optional values: a JSON key that may be
    absent from a request body, a parse that may fail, a link that may be unset. */
module Wrappers {

  datatype Option<T> = None | Some(value: T) {

    /** The value held in Some, or `default` for None. */
    function GetOr(default: T): T {
      match this
      case Some(v) => v
      case None => default
    }
  }
}
