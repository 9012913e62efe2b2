/** Wrappers for the optional fields of the program's records and for the
    errors it throws. */
module Wrappers {

  /** An optional value: `None` stands for a JavaScript property that is
      absent (`undefined`). */
  datatype Option<+T> = None | Some(value: T) {
    /** The value, or `default` when absent (the `??` / spread-default idiom). */
    function GetOr(default: T): T {
      match this
      case Some(v) => v
      case None => default
    }
  }

  /** The outcome of a check that either passes or throws an error message. */
  datatype Outcome = Pass | Fail(error: string)

  /** A computed value, or the message of the error thrown instead. */
  datatype Result<+R> = Success(value: R) | Failure(error: string)
}
