/** The optional value used throughout the model for Python's `None` and
    JavaScript's `null`/`undefined`. */
module Wrappers {

  datatype Option<T> = None | Some(value: T) {

    /** The contained value, or `default` when there is none
        (JavaScript's `x || default` for a value that is present only when truthy). */
    function GetOr(default: T): T
    {
      match this
      case Some(v) => v
      case None => default
    }
  }
}
