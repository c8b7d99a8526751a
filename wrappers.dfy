/** The optional-value datatype used throughout the model for JavaScript `null`
    / Python `None` and for keys a dictionary may lack. */
module Wrappers {

  datatype Option<+T> = None | Some(value: T) {

    /** The wrapped value, or `default` when there is none. */
    function GetOr(default: T): T {
      match this
      case Some(v) => v
      case None => default
    }
  }
}
