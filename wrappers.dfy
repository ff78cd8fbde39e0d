/** The absent-or-present value used wherever the JavaScript code reads an
    optional field or gets `undefined` back from a lookup. */
module Wrappers {

  datatype Option<+T> = None | Some(value: T) {

    /** The value if present, otherwise `default`. */
    function GetOr(default: T): T {
      match this
      case Some(v) => v
      case None => default
    }
  }
}
