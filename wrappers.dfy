/** Failure-carrying result types shared by the validation engine and the importer. */
module Wrappers {

  /** An optional value: a key that may be absent from a parsed document. */
  datatype Option<+T> = None | Some(value: T) {
    /** The value, or `default` when absent (Python's `dict.get(key, default)`). */
    function GetOr(default: T): T {
      match this
      case Some(v) => v
      case None => default
    }
  }

  /** The outcome of an operation that either produces a value or raises an error. */
  datatype Result<+T, +E> = Ok(value: T) | Err(error: E)

  /** The outcome of a check that either passes or stops with a fatal error. */
  datatype Outcome<+E> = Pass | Fail(error: E)
}
