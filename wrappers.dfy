/** The optional value used wherever the source has `T | undefined` or `T | null`. */
module Wrappers {

  datatype Option<+T> = None | Some(value: T) {

    /** `x ?? d`, `x || d` for a value that is present or absent. */
    function GetOr(default: T): T {
      match this
      case Some(v) => v
      case None => default
    }
  }
}
