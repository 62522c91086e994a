/** Python's `None`-or-value, as used throughout the bot. */
module Wrappers {

  datatype Option<+T> = None | Some(value: T) {
    function GetOr(default: T): T {
      match this
      case Some(v) => v
      case None => default
    }
  }

  /** A collaborator call that either produced a value or failed with a reason
      (an external service's `success(value)` / `failure(reason)`). */
  datatype Reply<+T> = Ok(value: T) | Err(reason: string)
}
