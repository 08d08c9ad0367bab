/** Failure-compatible result types used across the model. */
module Wrappers {

  /** An optional value: `None` where the program has nothing to report. */
  datatype Option<+T> = None | Some(value: T)

  /** A value or the error the program raises instead of returning one. */
  datatype Result<+R, +E> = Success(value: R) | Failure(error: E) {
    predicate IsFailure() {
      Failure?
    }
  }
}
