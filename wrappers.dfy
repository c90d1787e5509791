/** Optional values: a field the source reads with `.get(key, default)`,
    a font size python-pptx reports as `None`, a cap that may be absent. */
module Wrappers {

  datatype Option<+T> = None | Some(value: T) {

    /** The value, or `default` when absent. */
    function GetOr(default: T): T {
      match this
      case Some(v) => v
      case None => default
    }
  }
}
