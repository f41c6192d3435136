/** Option and Result values for the pipeline's missing fields and error returns. */
module Wrappers {

  /** A value that may be missing: a pandas NaN / Python None becomes None. */
  datatype Option<+T> = None | Some(value: T) {

    /** The wrapped value, or `default` when it is missing. */
    function GetOr(default: T): T {
      match this
      case Some(v) => v
      case None => default
    }
  }

  /** The outcome of an operation that the source lets raise. */
  datatype Result<+R, +E> = Success(value: R) | Failure(error: E)
}
