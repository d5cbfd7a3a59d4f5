/** The nullable values of the original program: `null` (or `undefined`) is None. */
module Wrappers {

  datatype Option<+T> = None | Some(value: T) {

    /** `x ?? d`: the value, or `d` when it is null. */
    function GetOr(default: T): T {
      if Some? then value else default
    }
  }
}
