/** The absent-value marker used throughout the model: JavaScript's `null` and
    `undefined` are both `None`. */
module Wrappers {

  datatype Option<+T> = None | Some(value: T) {

    /** The `??` operator: the value if present, otherwise the default. */
    function GetOr(default: T): T {
      match this
      case Some(v) => v
      case None => default
    }

    /** The `??` operator between two nullable values. */
    function OrElse(other: Option<T>): Option<T> {
      if this.Some? then this else other
    }
  }
}
