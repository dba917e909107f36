/** Values shared by every part of the model: optional values, the HTTP
    errors the handlers raise, and results that carry either. */
module Common {

  datatype Option<+T> = None | Some(value: T)

  /** An HTTP error as raised by a handler: a status code and its detail text. */
  datatype HttpError = HttpError(status: int, detail: string)

  /** The outcome of a handler or validator: a value, or the HTTP error raised instead. */
  datatype Result<+T> = Ok(value: T) | Err(error: HttpError)

  const BadRequest := 400
  const Forbidden := 403
  const NotFound := 404
  const Conflict := 409
  const UnprocessableEntity := 422
  const InternalServerError := 500

  /** What the framework answers when a handler raises an exception that is
      not an HTTP error. */
  const UnhandledError := HttpError(InternalServerError, "Internal Server Error")

}
