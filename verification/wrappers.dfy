/** Swift's `Optional`, written as the usual Some/None datatype. */
module Wrappers {

  datatype Option<+T> = None | Some(value: T) {

    /** The `??` operator: the wrapped value, or `default` when there is none. */
    function GetOr(default: T): T {
      match this
      case Some(v) => v
      case None => default
    }
  }
}
