/** Optional values: the model's stand-in for the JavaScript `null` / `undefined`
    results the monitor returns or reads. */
module Wrappers {

  datatype Option<+T> = None | Some(value: T) {

    /** The wrapped value, or `default` when there is none. */
    function GetOr(default: T): T {
      match this
      case Some(v) => v
      case None => default
    }
  }
}
