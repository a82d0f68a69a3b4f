/** The optional value used for JavaScript's `null`/`undefined` fields. */
module Wrappers {

  datatype Option<+T> = None | Some(value: T) {

    /** `x ?? d`: the value when present, otherwise the default. */
    function GetOr(default: T): T {
      match this
      case Some(v) => v
      case None => default
    }

    /** `x ?? y` where `y` may itself be missing. */
    function OrOption(other: Option<T>): Option<T> {
      if this.Some? then this else other
    }
  }
}
