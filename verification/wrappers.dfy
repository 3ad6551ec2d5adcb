/** Optional values: a field that is absent, or present with a value. */
module Wrappers {

  /** `None` stands for a key that is missing or holds JSON null. */
  datatype Option<+T> = None | Some(value: T) {

    /** The carried value, or `default` when there is none. */
    function GetOr(default: T): T {
      match this
      case Some(v) => v
      case None => default
    }
  }
}
