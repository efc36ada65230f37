/** Optional, result and outcome values: Swift's optionals, `Result` and `throws`. */
module Wrappers {

  /** Swift's `Optional`: `nil` is None. */
  datatype Option<+T> = None | Some(value: T)

  /** Swift's `Result<Success, Failure>`, and the outcome of a throwing call that returns a value. */
  datatype Result<+R, +E> = Success(value: R) | Failure(error: E)

  /** The outcome of a throwing call that returns nothing (`async throws`). */
  datatype Outcome<+E> = Pass | Fail(error: E)
}
