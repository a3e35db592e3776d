/** Optional values and results, for the source's `undefined`/`null` and its error paths. */
module Wrappers {

  /** `None` stands for a JavaScript `undefined` or `null`, `Some(v)` for a present value. */
  datatype Option<+T> = None | Some(value: T) {

    /** The value, or `default` when absent (JavaScript's `x ?? default`). */
    function GetOr(default: T): T {
      match this
      case Some(v) => v
      case None => default
    }
  }

  datatype Result<+T, +E> = Ok(value: T) | Err(error: E)
}
