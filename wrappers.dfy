/** Optional values and error-carrying results, shared by both front ends. */
module Wrappers {

  /** A value that may be absent: a missing form field, a parse that raised. */
  datatype Option<T> = None | Some(value: T) {

    /** The value, or `default` when absent (Python's `dict.get(key, default)`). */
    function GetOr(default: T): T {
      if Some? then value else default
    }
  }

  /** The outcome of a step that either produces a value or stops with an error. */
  datatype Result<T, E> = Ok(value: T) | Err(error: E)
}
