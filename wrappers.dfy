/** The optional-value type used by every other module of the model. */
module Wrappers {

  /** `T | null` / `T | undefined` in the game's sources. */
  datatype Option<+T> = None | Some(value: T) {

    /** The held value, or `default` when there is none. */
    function GetOr(default: T): T {
      match this
      case Some(v) => v
      case None => default
    }
  }
}
