/**
 * The error plumbing: `validate(schema)` turns a parse result into either
 * the cleaned body or a 400 error, and `errorHandler` turns any error that
 * reaches it into a status code and a JSON payload.
 */
module Middleware {
  import opened Wrappers
  import opened Zod

  /**
   * An error handed to `next(err)`: its `statusCode` when one was set, its
   * message, and the validation details when attached. `details` stands for
   * the formatted issues.
   */
  datatype AppError = AppError(statusCode: Option<int>, message: string, details: Option<seq<Issue>>)

  /** The routes' `boom(message, statusCode)`. */
  function Boom(message: string, statusCode: int): AppError {
    AppError(Some(statusCode), message, None)
  }

  /** An exception that carries nothing but its message (a failed transform, a driver error). */
  function Plain(message: string): AppError {
    AppError(None, message, None)
  }

  /** What a middleware step hands on: the request continues with a body, or goes to the error handler. */
  datatype Next<T> = Continue(body: T) | Raise(error: AppError)

  const ValidationFailed: string := "Validation failed"

  /**
   * `validate(schema)` once the schema has run: a success replaces the body
   * with the parsed data; collected issues become a 400 error carrying them;
   * an exception thrown inside the schema reaches the handler unchanged.
   */
  function Validate<T>(result: Parse<T>): (n: Next<T>)
    ensures n.Continue? <==> result.Parsed?
    ensures n.Continue? ==> n.body == result.value
    ensures result.Failed? ==> n == Raise(AppError(Some(400), ValidationFailed, Some(result.issues)))
    ensures result.Thrown? ==> n == Raise(Plain(result.message))
  {
    match result
    case Parsed(v) => Continue(v)
    case Failed(xs) => Raise(AppError(Some(400), ValidationFailed, Some(xs)))
    case Thrown(m) => Raise(Plain(m))
  }

  /** What a route answers: a status with a body, or an error handed to the error handler. */
  datatype Outcome<T> = Answer(status: int, body: T) | Fail(error: AppError)

  /** The JSON body of an error response: `error`, and `details` only when the error carried some. */
  datatype Payload = Payload(error: string, details: Option<seq<Issue>>)

  datatype Response = Response(status: int, payload: Payload)

  const ServerError: string := "Server error"

  /**
   * `errorHandler`: the status is the error's `statusCode` when it is set and
   * not 0 (`err.statusCode || 500`), otherwise 500; the payload's `error` is
   * the message, or "Server error" when the message is empty.
   */
  function ErrorHandler(err: AppError): (r: Response)
    ensures err.statusCode.Some? && err.statusCode.value != 0 ==> r.status == err.statusCode.value
    ensures err.statusCode.None? || err.statusCode == Some(0) ==> r.status == 500
    ensures err.message != "" ==> r.payload.error == err.message
    ensures err.message == "" ==> r.payload.error == ServerError
    ensures r.payload.details == err.details
  {
    var status := if err.statusCode.Some? && err.statusCode.value != 0 then err.statusCode.value else 500;
    Response(status, Payload(if err.message == "" then ServerError else err.message, err.details))
  }

  /** Every error response has a set, non-zero status and a non-empty `error` text. */
  lemma ErrorResponseWellFormed(err: AppError)
    ensures ErrorHandler(err).status != 0
    ensures ErrorHandler(err).payload.error != ""
  {
  }

  /** A request body that fails its schema is answered 400 "Validation failed", with the issues as details. */
  lemma ValidationFailureResponse<T>(result: Parse<T>)
    requires result.Failed?
    ensures Validate(result).Raise?
    ensures ErrorHandler(Validate(result).error) == Response(400, Payload(ValidationFailed, Some(result.issues)))
  {
  }

  /** An exception thrown by a schema is answered 500 with its message and no details. */
  lemma SchemaExceptionResponse<T>(result: Parse<T>)
    requires result.Thrown? && result.message != ""
    ensures Validate(result).Raise?
    ensures ErrorHandler(Validate(result).error) == Response(500, Payload(result.message, None))
  {
  }

  /** A route's `boom` with a non-zero status is answered with exactly that status and message. */
  lemma BoomResponse(message: string, statusCode: int)
    requires message != "" && statusCode != 0
    ensures ErrorHandler(Boom(message, statusCode)) == Response(statusCode, Payload(message, None))
  {
  }
}
