/** Option and Result values for the model's absent keys and error paths. */
module Wrappers {

  /** A JSON key that may be absent from a payload. */
  datatype Option<+T> = None | Some(value: T) {

    /** The value if present, else `default` (Python's `dict.get(key, default)`). */
    function GetOr(default: T): (r: T)
      ensures Some? ==> r == value
      ensures None? ==> r == default
    {
      match this
      case Some(v) => v
      case None => default
    }
  }

  /** Either a value or the error the source raises instead. */
  datatype Result<+R, +E> = Ok(value: R) | Err(error: E)
}
