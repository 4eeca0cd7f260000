/** Small result types shared by every module of the model. */
module Wrappers {

  /** A value that may be absent: JavaScript's `undefined`/`null` or a missing field. */
  datatype Option<+T> = None | Some(value: T) {
    function GetOr(default: T): T {
      match this
      case Some(v) => v
      case None => default
    }
  }

  /** The HTTP error classes the server answers with. */
  datatype Status =
    | BadRequest    // 400: a required field is missing or malformed
    | Unauthorized  // 401: credentials do not match
    | NotFound      // 404: identifier, record or profile does not resolve
    | ServerError   // 500: the store refused the write (schema validation)

  /** Outcome of one request handler. */
  datatype Reply<+T> = Ok(value: T) | Fail(status: Status)
}
