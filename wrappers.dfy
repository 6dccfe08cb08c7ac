/** Option and Result types, and the errors the handlers raise. */
module Wrappers {

  datatype Option<+T> = None | Some(value: T) {
    /** The value, or `default` when there is none (Python's `d.get(k, default)`). */
    function GetOr(default: T): T {
      match this
      case Some(v) => v
      case None => default
    }
  }

  /**
   * The failures of the modelled code: an `HTTPException` with its status code
   * and detail text, a plain `ValueError`, or an exception raised by a call into
   * the hosted backend that the handler lets propagate.
   */
  datatype Error =
    | HttpError(status: nat, detail: string)
    | ValueError(message: string)
    | Upstream(message: string)

  datatype Result<+T> = Ok(value: T) | Err(error: Error) {
    predicate IsFailure() { Err? }

    function PropagateFailure<U>(): Result<U>
      requires Err?
    {
      Err(error)
    }

    function Extract(): T
      requires Ok?
    {
      value
    }
  }

  const BAD_REQUEST: nat := 400
  const UNAUTHORIZED: nat := 401
  const NOT_FOUND: nat := 404
  const CONFLICT: nat := 409
  const UNPROCESSABLE: nat := 422
  const SERVER_ERROR: nat := 500

  /** True when `r` failed with an `HTTPException` carrying `code`. */
  predicate FailsWith<T>(r: Result<T>, code: nat) {
    r.Err? && r.error.HttpError? && r.error.status == code
  }
}
