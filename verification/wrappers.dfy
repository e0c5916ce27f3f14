/** Failure-compatible option and result types shared by the other modules. */
module Wrappers {

  /** An optional value: `None` stands for JavaScript's `undefined`/`null`. */
  datatype Option<+T> = None | Some(value: T) {

    /** The value, or `default` when absent (the `??` operator). */
    function GetOr(default: T): T {
      match this
      case Some(v) => v
      case None => default
    }
  }

  /** Either a value or an error (a rejected promise, a thrown exception). */
  datatype Result<+R, +E> = Success(value: R) | Failure(error: E)
}
