/** An optional value: a query-string parameter, a schema field or a JavaScript
    property that may be absent. */
module Wrappers {

  datatype Option<T> = None | Some(value: T) {

    /** The value, or `default` when absent. */
    function GetOr(default: T): T {
      match this
      case Some(v) => v
      case None => default
    }
  }

  /** A value, or the reason there is none. */
  datatype Result<T, E> = Ok(value: T) | Err(error: E)
}
