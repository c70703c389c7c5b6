/** Option, the absent-or-present value used throughout the model. */
module Wrappers {

  datatype Option<+T> = None | Some(value: T) {

    /** `x || default` for an optional setting: the present value, else `default`. */
    function GetOr(default: T): T {
      match this
      case Some(v) => v
      case None => default
    }
  }
}
