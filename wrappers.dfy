/** The optional-value and result wrappers shared by every module of the budget ledger model. */
module Wrappers {

  /** An optional value: a missing request field, a lookup that found nothing. */
  datatype Option<+T> = None | Some(value: T) {
    function GetOr(default: T): T {
      match this
      case Some(v) => v
      case None => default
    }
  }

  /** The outcome of a request: a value, or the error the HTTP layer reports. */
  datatype Result<+T, +E> = Success(value: T) | Failure(error: E)
}
