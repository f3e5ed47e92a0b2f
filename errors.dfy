/** The typed errors every operation of the core raises, with the HTTP status each one carries. */
module Errors {

  datatype Error =
    | NotFound            // error/notfound.error.js, 404
    | BadRequest(reason: string)  // error/badrequest.error.js, 400
    | Unauthorized        // error/unauthrorized.error.js: despite its name, answers 403
    | Forbidden           // error/forbidden.error.js, 403
    | Unauthenticated     // error/authentication.error.js, 401
    | Validation          // a schema validator rejected the document on save (answered 400)
    | UploadFailed        // the storage gateway rejected an upload; the error propagates (answered 500)
    | Duplicate           // a unique index refused the write (MongoDB error 11000, answered 409)

  function StatusCode(e: Error): (code: nat)
    ensures 400 <= code <= 500
    ensures code == 403 <==> e.Unauthorized? || e.Forbidden?
    ensures code == 400 <==> e.BadRequest? || e.Validation?
    ensures code == 409 <==> e.Duplicate?
  {
    match e
    case NotFound => 404
    case BadRequest(_) => 400
    case Unauthorized => 403
    case Forbidden => 403
    case Unauthenticated => 401
    case Validation => 400
    case UploadFailed => 500
    case Duplicate => 409
  }

  datatype Result<T> = Ok(value: T) | Err(error: Error)
}
