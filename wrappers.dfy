/** Optional values: `None` stands for JavaScript's `undefined` wherever the
    model needs to tell an absent value from a present one. */
module Wrappers {

  datatype Option<+T> = None | Some(value: T) {

    /** The value, or `default` when there is none. */
    function GetOr(default: T): T {
      match this
      case Some(v) => v
      case None => default
    }
  }
}
