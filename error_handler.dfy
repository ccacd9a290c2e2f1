/**
 * The global error handler of the utilities: it starts from the error's own
 * status and message (with defaults), lets the error's name override them,
 * and lets the message "Rate limit exceeded" override everything.
 */
module ErrorHandler {
  import opened Wrappers
  import opened Text

  /**
   * A thrown value as the handler reads it. `statusCode` and `message` may
   * be missing; a status of 0 and an empty message are falsy like a missing one.
   */
  datatype JsError = JsError(name: string, message: Option<string>, statusCode: Option<int>, stack: Option<string>)

  /** What the body's stack key holds: `null`, nothing (the key is dropped), or the stack text. */
  datatype StackField = Null | Omitted | Stack(text: string)

  datatype Reply = Reply(status: int, success: bool, message: string, error: StackField)

  const RateLimitMessage: string := "Rate limit exceeded"

  /** `err.statusCode || 500`. */
  function DefaultStatus(err: JsError): (s: int)
    ensures err.statusCode.Some? && err.statusCode.value != 0 ==> s == err.statusCode.value
    ensures err.statusCode.None? || err.statusCode.value == 0 ==> s == 500
  {
    if err.statusCode.Some? && err.statusCode.value != 0 then err.statusCode.value else 500
  }

  /** `err.message || 'Internal Server Error'`. */
  function DefaultMessage(err: JsError): (m: string)
    ensures Truthy(err.message) ==> m == err.message.value
    ensures !Truthy(err.message) ==> m == "Internal Server Error"
    ensures m != ""
  {
    if Truthy(err.message) then err.message.value else "Internal Server Error"
  }

  /** The stack when it exists; JSON drops an `undefined` stack. */
  function StackOf(err: JsError): StackField {
    if err.stack.Some? then Stack(err.stack.value) else Omitted
  }

  /** `errorHandler(err, req, res, next)` with `NODE_ENV` given as `env`. */
  function Handle(err: JsError, env: Option<string>): (r: Reply)
    ensures !r.success
    ensures err.message == Some(RateLimitMessage) ==> r.status == 429 && r.message == "Too many requests, please try again later"
    ensures err.message != Some(RateLimitMessage) ==>
      r.status == (if err.name in {"ValidationError", "CastError"} then 400 else if err.name == "UnauthorizedError" then 401 else DefaultStatus(err))
    ensures err.message != Some(RateLimitMessage) && err.name == "ValidationError" ==> r.message == "Invalid data provided"
    ensures err.message != Some(RateLimitMessage) && err.name == "CastError" ==> r.message == "Resource not found"
    ensures err.message != Some(RateLimitMessage) && err.name == "UnauthorizedError" ==>
      r.message == "Invalid or missing authentication token"
    ensures err.message != Some(RateLimitMessage) && err.name !in {"ValidationError", "CastError", "UnauthorizedError"} ==>
      r.message == DefaultMessage(err)
    ensures env == Some("production") ==> r.error == Null
    ensures env != Some("production") ==> r.error == StackOf(err)
  {
    var status := DefaultStatus(err);
    var message := DefaultMessage(err);
    var (status, message) := if err.name == "ValidationError" then (400, "Invalid data provided") else (status, message);
    var (status, message) := if err.name == "CastError" then (400, "Resource not found") else (status, message);
    var (status, message) := if err.name == "UnauthorizedError" then (401, "Invalid or missing authentication token") else (status, message);
    var (status, message) := if err.message == Some(RateLimitMessage) then (429, "Too many requests, please try again later") else (status, message);
    Reply(status, false, message, if env == Some("production") then Null else StackOf(err))
  }

  /** The reply never has an empty message, and a known error name never gets the 500 default. */
  lemma HandledMessageNonEmpty(err: JsError, env: Option<string>)
    ensures Handle(err, env).message != ""
    ensures err.name in {"ValidationError", "CastError", "UnauthorizedError"} ==> Handle(err, env).status in {400, 401, 429}
  {
  }
}
