/** Optional values, as returned by the harness's lookups and rewrite rules. */
module Wrappers {

  datatype Option<+T> = None | Some(value: T) {

    /** The wrapped value, or `default` when there is none (`optional::value_or`). */
    function GetOr(default: T): T {
      match this
      case Some(v) => v
      case None => default
    }

    /** This value if present, otherwise `other`: the first rule of a chain that succeeds. */
    function Or(other: Option<T>): Option<T> {
      if Some? then this else other
    }
  }
}
