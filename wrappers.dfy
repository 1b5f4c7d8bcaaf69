/** The Option type used for values that may be missing: a query argument that
    was not given, an environment variable that is unset, a body that does not
    parse as JSON. */
module Wrappers {

  datatype Option<+T> = None | Some(value: T) {

    /** The encapsulated value, or `default` when there is none (Python's `d.get(k, default)`). */
    function GetOr(default: T): T {
      match this
      case Some(v) => v
      case None => default
    }
  }
}
