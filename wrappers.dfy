/** Optional values and success/failure results, standing for Swift's `Optional`
    and for the `throws` of the configuration parsers. */
module Wrappers {

  datatype Option<+T> = None | Some(value: T)

  /** The value of a throwing initializer: either what it built or what it threw. */
  datatype Result<+R, +E> = Success(value: R) | Failure(error: E)

  /** The outcome of a throwing `Void` function. */
  datatype Outcome<+E> = Pass | Fail(error: E)
}
