/** The two error middlewares: `notFound` for requests no route matched, and
    `errorHandler`, which turns any thrown error into the JSON response. */
module ErrorMiddleware {
  import opened Common

  /** A thrown JavaScript error: its `name`, the `kind` Mongoose cast errors
      carry, its `message` and its `stack`. */
  datatype JsError = JsError(name: string, kind: Option<string>, message: string, stack: string)

  /** The response: its status and the JSON body `{ message, stack }`. */
  datatype ErrorResponse = ErrorResponse(status: int, message: string, stack: Option<string>)

  const ResourceNotFound: string := "Resource not found"

  /** The error a handler throws with `throw new Error(message)`. */
  function Thrown(e: HttpError, stack: string): (err: JsError)
    ensures err.name == "Error" && err.kind.None? && err.message == e.message
  {
    JsError("Error", None, e.message, stack)
  }

  /** Whether the error is a failed cast of an id. */
  predicate IsCastError(err: JsError)
  {
    err.name == "CastError" || err.kind == Some("ObjectId")
  }

  /** `errorHandler`: `statusCode` is the response status when the error
      arrives, `production` whether `NODE_ENV` is 'production'. */
  function ErrorHandler(statusCode: int, err: JsError, production: bool): (r: ErrorResponse)
    ensures r.stack.None? <==> production
  {
    var status := if statusCode == 200 then 500 else statusCode;
    var message := err.message;
    var stack := if production then None else Some(err.stack);
    if IsCastError(err) then ErrorResponse(404, ResourceNotFound, stack)
    else ErrorResponse(status, message, stack)
  }

  /** An error response never carries the success status. */
  lemma ErrorResponseNever200(statusCode: int, err: JsError, production: bool)
    ensures ErrorHandler(statusCode, err, production).status != 200
  {
  }

  /** A cast error answers 404 'Resource not found' whatever status and message it came with. */
  lemma CastErrorOverrides(statusCode: int, err: JsError, production: bool)
    requires IsCastError(err)
    ensures ErrorHandler(statusCode, err, production).status == 404
    ensures ErrorHandler(statusCode, err, production).message == ResourceNotFound
  {
  }

  /** Any other error keeps its message and the status the handler set, or 500
      when the handler set none; only the stack depends on the environment. */
  lemma OtherErrorsPassThrough(statusCode: int, err: JsError, production: bool)
    requires !IsCastError(err)
    ensures ErrorHandler(statusCode, err, production).message == err.message
    ensures ErrorHandler(statusCode, err, production).status == if statusCode == 200 then 500 else statusCode
    ensures ErrorHandler(statusCode, err, false).stack == Some(err.stack)
  {
  }

  /** Every error a handler of the model throws reaches the client with its own
      status and message, or with 500 when it was thrown with the status still 200. */
  lemma HandlerErrorResponse(e: HttpError, stack: string, production: bool)
    ensures var r := ErrorHandler(e.status, Thrown(e, stack), production);
            r.message == e.message && r.status == (if e.status == 200 then 500 else e.status)
  {
  }

  /** `notFound`: the status is set to 400 and the error passed on. */
  function NotFound(originalUrl: string, stack: string): (r: (int, JsError))
    ensures r.0 == 400 && r.1.name == "Error" && r.1.kind.None?
  {
    (400, JsError("Error", None, "Not Found - " + originalUrl, stack))
  }

  /** An unknown route therefore answers 400, not 404 or 500, with the URL in the message. */
  lemma UnknownRouteAnswers400(originalUrl: string, stack: string, production: bool)
    ensures var (status, err) := NotFound(originalUrl, stack);
            ErrorHandler(status, err, production) ==
              ErrorResponse(400, "Not Found - " + originalUrl, if production then None else Some(stack))
  {
  }
}
