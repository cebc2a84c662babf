/** Failure-compatible wrappers shared by the whole model. */
module Wrappers {

  /** A value that may be absent: JavaScript's `undefined`/`null` or an empty form field. */
  datatype Option<+T> = None | Some(value: T) {

    /** Returns the value, or `default` when absent (the `x || default` idiom for non-empty values). */
    function GetOr(default: T): T {
      match this
      case Some(v) => v
      case None => default
    }
  }

  /** What a fallible callback reports: it returned normally, or it threw with a message. */
  datatype Outcome = Ok | Err(message: string)
}
