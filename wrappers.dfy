/** Option: a value that may be absent (a missing JSON key, an unset option, an unset POST field). */
module Wrappers {
  datatype Option<+T> = None | Some(value: T) {
    function GetOr(default: T): T {
      match this
      case Some(v) => v
      case None => default
    }
  }
}
