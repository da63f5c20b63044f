/** Option and Result values shared by the models of the snippets. */
module Wrappers {

  /** A value that may be absent (a JavaScript `undefined`). */
  datatype Option<+T> = None | Some(value: T) {
    /** The value, or the given default when absent (a JavaScript default parameter). */
    function GetOr(default: T): (r: T)
      ensures Some? ==> r == value
      ensures None? ==> r == default
    {
      match this
      case Some(v) => v
      case None => default
    }
  }

  /** A returned value, or the error a JavaScript `throw` raises instead. */
  datatype Result<+T, +E> = Ok(value: T) | Err(error: E)
}
