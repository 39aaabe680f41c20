/** Option and Result types used by the ledger model. */
module Wrappers {

  /** A value that may be absent: a Redis field that was never written, or a lookup that found nothing. */
  datatype Option<+T> = None | Some(value: T) {

    /** The wrapped value, or `default` when absent. */
    function GetOr(default: T): T {
      match this
      case Some(v) => v
      case None => default
    }
  }

  /** The outcome of a handler call: the new state, or the exception the handler raises. */
  datatype Result<+R, +E> = Success(value: R) | Failure(error: E)
}
