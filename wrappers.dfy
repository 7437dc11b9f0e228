/** Option and HTTP-style outcomes shared by every module of the model. */
module Wrappers {

  datatype Option<+T> = None | Some(value: T) {
    function GetOr(default: T): T {
      match this
      case Some(v) => v
      case None => default
    }
  }

  /** The message every server route answers with status 500. */
  const InternalError := "Internal server error"

  /** What a route handler answers: a success status with a body, or an error status with the
      message the handler puts under `error`. */
  datatype Outcome<+T> = Success(status: int, value: T) | Failure(status: int, message: string)

  /** An integer request value: missing, text JavaScript reads as NaN (or, where the server
      receives it, as no whole number), or a number. */
  datatype IntParam = Missing | NotANumber | Number(value: int)

  /** An entry of a 400 reply's `details`: the field and the validator's message. */
  datatype FieldError = FieldError(field: string, message: string)

  /** The message of every 400 reply that carries validator `details`. */
  const ValidationFailed := "Validation failed"
}
