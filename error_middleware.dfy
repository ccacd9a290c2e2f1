/**
 * The error middleware of the API: the error's own status and message with
 * defaults, both echoed in the body, and the stack only in development.
 */
module ErrorMiddleware {
  import opened Wrappers
  import opened ErrorHandler

  datatype Body = Body(success: bool, statusCode: int, message: string, stack: StackField)

  datatype Response = Response(status: int, body: Body)

  /** `errorHandler(err, req, res, next)` with `NODE_ENV` given as `env`. */
  function Respond(err: JsError, env: Option<string>): (r: Response)
    ensures !r.body.success
    ensures r.status == r.body.statusCode == DefaultStatus(err)
    ensures r.body.message == DefaultMessage(err)
    ensures env == Some("development") ==> r.body.stack == StackOf(err)
    ensures env != Some("development") ==> r.body.stack == Omitted
  {
    var status := DefaultStatus(err);
    Response(status, Body(false, status, DefaultMessage(err),
                          if env == Some("development") then StackOf(err) else Omitted))
  }

  /** An error that no name or message rule singles out gets the same status and message from both handlers. */
  lemma HandlersAgreeOnPlainErrors(err: JsError, env: Option<string>)
    requires err.name !in {"ValidationError", "CastError", "UnauthorizedError"}
    requires err.message != Some(RateLimitMessage)
    ensures Respond(err, env).status == Handle(err, env).status
    ensures Respond(err, env).body.message == Handle(err, env).message
  {
  }

  /** A rate-limit error is 429 from one handler and its own status (500 by default) from the other. */
  lemma HandlersDisagreeOnRateLimit(name: string, env: Option<string>)
    ensures Handle(JsError(name, Some(RateLimitMessage), None, None), env).status == 429
    ensures Respond(JsError(name, Some(RateLimitMessage), None, None), env).status == 500
  {
  }

  /**
   * Neither handler exposes the stack in production, but with `NODE_ENV`
   * unset the utilities' handler sends it and this one does not.
   */
  lemma StackExposure(err: JsError)
    ensures Handle(err, Some("production")).error == Null && Respond(err, Some("production")).body.stack == Omitted
    ensures err.stack.Some? ==> Handle(err, None).error == Stack(err.stack.value) && Respond(err, None).body.stack == Omitted
  {
  }
}
