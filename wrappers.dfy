/** A value that may be JavaScript `null`, and how a promise settles
    (resolved, or rejected with a reason). */
module Wrappers {

  datatype Option<+T> = None | Some(value: T) {
    /** The value, or `default` when there is none. */
    function GetOr(default: T): T {
      match this
      case Some(v) => v
      case None => default
    }
  }

  /** How a promise settles: resolved, or rejected with a reason. */
  datatype Outcome<+E> = Pass | Fail(error: E)
}
