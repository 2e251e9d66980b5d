/** Go pointers and nil-able interface values are modelled as Option. */
module Wrappers {

  datatype Option<+T> = None | Some(value: T) {

    /** The value, or `default` when absent: Go's `pointer.From`, which yields the zero value for nil. */
    function GetOr(default: T): T {
      match this
      case Some(v) => v
      case None => default
    }
  }
}
