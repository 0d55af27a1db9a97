/** What a request handler answers with: success with an HTTP status, or a
    failure carrying the status the client sees, a classification, and the
    message of the Error the handler throws. */
module Responses {

  datatype Option<+T> = None | Some(value: T)

  datatype ErrorKind =
    | ValidationError   // a required field is missing, empty or too short
    | NotFound          // the post, comment or account does not exist
    | BadCredentials    // wrong password or wrong reset code
    | CodeExpired       // the reset code is past its expiry
    | ServiceFailed     // an external service (upload, e-mail verifier, mail transport) failed
    | Unhandled         // a JavaScript TypeError or ReferenceError escaped the handler

  datatype HttpError = HttpError(status: nat, kind: ErrorKind, message: string)

  /** A handler's answer when it also produces a value. */
  datatype Result<+T> = Ok(value: T) | Err(error: HttpError)

  /** A handler's answer when its effect is a change of state. */
  datatype Outcome = Done(status: nat) | Failed(error: HttpError)
}
