/** The optional-value datatype shared by every module of the model. */
module Wrappers {

  /** Python's `None`-or-value and TypeScript's `undefined`-or-value. */
  datatype Option<+T> = None | Some(value: T) {

    /** The value, or `default` when there is none. */
    function GetOr(default: T): T {
      match this
      case Some(v) => v
      case None => default
    }
  }
}
