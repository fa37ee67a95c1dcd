/** Option and Result, used for pandas' NaN and for the places where the
    analysis raises instead of returning. */
module Wrappers {

  /** `None` stands for a NaN / undefined cell. */
  datatype Option<+T> = None | Some(value: T)

  /** `Failure` stands for an exception that propagates to the caller. */
  datatype Result<+T, +E> = Success(value: T) | Failure(error: E)
}
