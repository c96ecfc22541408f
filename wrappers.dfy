/** Optional values and handler outcomes shared by every module. */
module Wrappers {

  datatype Option<+T> = None | Some(value: T)

  /** The HTTP errors the handlers raise, named by what they mean. */
  datatype Error =
    | BadRequest       // 400: a domain precondition failed
    | Unauthorized     // 401: token missing, invalid or expired; unknown user
    | Forbidden        // 403: valid token, role not allowed
    | NotFound         // 404: referenced row absent
    | ValidationError  // 422: request body rejected by its schema
    | InternalError    // 500: exception not mapped to an HTTP error

  /** Outcome of a handler: its response value or the error it raises. */
  datatype Result<+T> = Ok(value: T) | Err(error: Error) {

    predicate IsFailure() {
      Err?
    }

    function PropagateFailure<U>(): Result<U>
      requires Err?
    {
      Err(error)
    }

    function Extract(): T
      requires Ok?
    {
      value
    }
  }
}
