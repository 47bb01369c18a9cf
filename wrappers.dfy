/** Success/failure wrapper for the outcome of a remote query. */
module Wrappers {

  /** Either the value a query produced, or the error it failed with. */
  datatype Result<+R, +E> = Success(value: R) | Failure(error: E)
}
