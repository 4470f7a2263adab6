/** Option stands for the TypeScript `T | undefined` and `T | null` results of the source. */
module Wrappers {

  datatype Option<+T> = None | Some(value: T) {

    /** Returns the value or a default, as `x ?? d` does for a missing value. */
    function GetOr(default: T): T {
      match this
      case Some(v) => v
      case None => default
    }
  }
}
