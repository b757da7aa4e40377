/**
 * The central error responder: every error a handler passes on, or that
 * escapes it, becomes a JSON reply with `success: false`.
 */
module Errors {
  import opened Wrappers
  import opened Js

  /** An error object: its `name`, its `message` and an optional `statusCode`. */
  datatype JsError = JsError(name: string, message: string, statusCode: JsNumber)

  /** `new ErrorHandler(message, statusCode)`: an `Error` carrying a status code. */
  function ErrorHandler(message: string, statusCode: int): JsError
  {
    JsError("Error", message, Some(statusCode))
  }

  /** `new Error(message)`: a plain error without a status code. */
  function PlainError(message: string): JsError
  {
    JsError("Error", message, None)
  }

  /** The HTTP status and JSON body `{ success, message }` written back. */
  datatype Reply = Reply(status: int, success: bool, message: string)

  /** What a handler does: answer itself, or pass an error on to the responder. */
  datatype Outcome = Done(status: int, body: string) | Fail(error: JsError)

  const CastErrorName := "CastError"
  const InvalidIdMessage := "Invalid ID"
  const DefaultStatus := 500
  const DefaultMessage := "Internal Server Error"

  /**
   * `errorMiddleware`: a malformed-id error from the store is always 400
   * "Invalid ID"; any other error keeps its own status and message when
   * they are truthy and falls back to 500 "Internal Server Error".
   */
  function ErrorResponse(err: JsError): (r: Reply)
    ensures !r.success
    ensures err.name == CastErrorName ==> r.status == 400 && r.message == InvalidIdMessage
    ensures err.name != CastErrorName ==>
      && (NumberTruthy(err.statusCode) ==> r.status == err.statusCode.value)
      && (!NumberTruthy(err.statusCode) ==> r.status == DefaultStatus)
      && (err.message != "" ==> r.message == err.message)
      && (err.message == "" ==> r.message == DefaultMessage)
  {
    var statusCode := if NumberTruthy(err.statusCode) then err.statusCode.value else DefaultStatus;
    var message := if err.message != "" then err.message else DefaultMessage;
    if err.name == CastErrorName then
      Reply(400, false, InvalidIdMessage)
    else
      Reply(statusCode, false, message)
  }

  /** The reply a client finally sees for a handler's outcome: its own answer, or the responder's. */
  function Respond(outcome: Outcome): (r: Reply)
    ensures r.success <==> outcome.Done?
    ensures outcome.Fail? ==> r.status == ErrorResponse(outcome.error).status
  {
    match outcome
    case Done(status, body) => Reply(status, true, body)
    case Fail(err) => ErrorResponse(err)
  }

  /** A CastError is 400 "Invalid ID" whatever status code it carries. */
  lemma CastErrorIgnoresStatus(message: string, code1: JsNumber, code2: JsNumber)
    ensures ErrorResponse(JsError(CastErrorName, message, code1)) == ErrorResponse(JsError(CastErrorName, message, code2))
    ensures ErrorResponse(JsError(CastErrorName, message, code1)).status == 400
  {
  }

  /** An error raised by a handler with a non-empty message and a non-zero code reaches the client unchanged. */
  lemma HandlerErrorPassesThrough(message: string, code: int)
    requires message != "" && code != 0
    ensures Respond(Fail(ErrorHandler(message, code))) == Reply(code, false, message)
  {
  }

  /** A plain `Error` escaping a handler becomes a 500 carrying its message. */
  lemma PlainErrorIsServerError(message: string)
    requires message != ""
    ensures Respond(Fail(PlainError(message))) == Reply(500, false, message)
  {
  }
}
