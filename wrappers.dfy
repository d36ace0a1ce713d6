/** Option and Result, the two failure-carrying shapes the storage layer returns. */
module Wrappers {

  datatype Option<+T> = None | Some(value: T)

  /** `anyhow::Result`: a value or an error. */
  datatype Result<+T, +E> = Success(value: T) | Failure(error: E)

  /** `anyhow::Result<()>`: success without a value, or an error. */
  datatype Outcome<+E> = Pass | Fail(error: E)
}
