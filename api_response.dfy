/**
 * The response envelope builders. Arguments are JavaScript values; a
 * parameter left `undefined` takes its default, while any other value
 * (`null` included) is echoed into the envelope unchanged.
 */
module Responses {
  import opened Wrappers

  /** A JavaScript value as it can reach a builder. */
  datatype Json =
    | Undefined
    | Null
    | Bool(b: bool)
    | Num(n: real)
    | Str(s: string)
    | Arr(items: seq<Json>)
    | Obj(fields: map<string, Json>)

  /**
   * A built envelope: `status`, `message` and `statusCode` always, and each
   * of `data`, `error`, `errors` only when the builder writes that key.
   */
  datatype Envelope = Envelope(
    status: string, message: Json, statusCode: Json,
    data: Option<Json>, error: Option<Json>, errors: Option<Json>)

  /** A default parameter: the default replaces `undefined` and nothing else. */
  function OrDefault(arg: Json, default: Json): (v: Json)
    ensures !arg.Undefined? ==> v == arg
    ensures arg.Undefined? ==> v == default
  {
    if arg.Undefined? then default else arg
  }

  /** `ApiResponse(data = {}, message = "Request successful", statusCode = 200)`. */
  function ApiResponse(data: Json := Undefined, message: Json := Undefined, statusCode: Json := Undefined): (r: Envelope)
    ensures r.status == "success"
    ensures r.data == Some(OrDefault(data, Obj(map[])))
    ensures r.message == OrDefault(message, Str("Request successful"))
    ensures r.statusCode == OrDefault(statusCode, Num(200.0))
    ensures r.error.None? && r.errors.None?
  {
    Envelope("success", OrDefault(message, Str("Request successful")), OrDefault(statusCode, Num(200.0)),
             Some(OrDefault(data, Obj(map[]))), None, None)
  }

  /** `errorResponse(message = "An error occurred", statusCode = 400, error = null)`. */
  function ErrorResponse(message: Json := Undefined, statusCode: Json := Undefined, error: Json := Undefined): (r: Envelope)
    ensures r.status == "error"
    ensures r.message == OrDefault(message, Str("An error occurred"))
    ensures r.statusCode == OrDefault(statusCode, Num(400.0))
    ensures r.error == Some(OrDefault(error, Null))
    ensures r.data.None? && r.errors.None?
  {
    Envelope("error", OrDefault(message, Str("An error occurred")), OrDefault(statusCode, Num(400.0)),
             None, Some(OrDefault(error, Null)), None)
  }

  /** `validationErrorResponse(errors, statusCode = 422)`: the message is fixed; `errors` has no default. */
  function ValidationErrorResponse(errors: Json, statusCode: Json := Undefined): (r: Envelope)
    ensures r.status == "error" && r.message == Str("Validation failed")
    ensures r.statusCode == OrDefault(statusCode, Num(422.0))
    ensures r.errors == Some(errors)
    ensures r.data.None? && r.error.None?
  {
    Envelope("error", Str("Validation failed"), OrDefault(statusCode, Num(422.0)), None, None, Some(errors))
  }

  /** `notFoundResponse(message = "Resource not found", statusCode = 404)`. */
  function NotFoundResponse(message: Json := Undefined, statusCode: Json := Undefined): (r: Envelope)
    ensures r.status == "error"
    ensures r.message == OrDefault(message, Str("Resource not found"))
    ensures r.statusCode == OrDefault(statusCode, Num(404.0))
    ensures r.data.None? && r.error.None? && r.errors.None?
  {
    Envelope("error", OrDefault(message, Str("Resource not found")), OrDefault(statusCode, Num(404.0)), None, None, None)
  }

  /** `serverErrorResponse(message = "Internal server error", statusCode = 500)`. */
  function ServerErrorResponse(message: Json := Undefined, statusCode: Json := Undefined): (r: Envelope)
    ensures r.status == "error"
    ensures r.message == OrDefault(message, Str("Internal server error"))
    ensures r.statusCode == OrDefault(statusCode, Num(500.0))
    ensures r.data.None? && r.error.None? && r.errors.None?
  {
    Envelope("error", OrDefault(message, Str("Internal server error")), OrDefault(statusCode, Num(500.0)), None, None, None)
  }

  /**
   * `ApiError(message = "An error occurred", statusCode = 400, error = null)`:
   * a separate definition with the same parameters, defaults and keys as
   * `errorResponse`, so it builds the same envelope.
   */
  function ApiError(message: Json := Undefined, statusCode: Json := Undefined, error: Json := Undefined): (r: Envelope)
    ensures r.status == "error"
    ensures r.message == OrDefault(message, Str("An error occurred"))
    ensures r.statusCode == OrDefault(statusCode, Num(400.0))
    ensures r.error == Some(OrDefault(error, Null))
    ensures r.data.None? && r.errors.None?
  {
    ErrorResponse(message, statusCode, error)
  }

  /** Only the success builder marks an envelope "success", and only it carries `data`. */
  lemma OnlyApiResponseHasData(a: Json, b: Json, c: Json)
    ensures ApiResponse(a, b, c).data.Some?
    ensures ErrorResponse(a, b, c).data.None? && ValidationErrorResponse(a, b).data.None?
    ensures NotFoundResponse(a, b).data.None? && ServerErrorResponse(a, b).data.None? && ApiError(a, b, c).data.None?
    ensures ErrorResponse(a, b, c).status == ValidationErrorResponse(a, b).status == NotFoundResponse(a, b).status == ServerErrorResponse(a, b).status == "error"
  {
  }

  /** Passing the defaults explicitly builds the same envelope as leaving them out. */
  lemma DefaultsAreTheDocumentedValues()
    ensures ApiResponse() == ApiResponse(Obj(map[]), Str("Request successful"), Num(200.0))
    ensures NotFoundResponse() == NotFoundResponse(Str("Resource not found"), Num(404.0))
    ensures ServerErrorResponse() == ServerErrorResponse(Str("Internal server error"), Num(500.0))
    ensures ValidationErrorResponse(Undefined) == ValidationErrorResponse(Undefined, Num(422.0))
  {
  }

  /** `null` is not `undefined`: an explicit `null` message is kept, not replaced by the default. */
  lemma NullIsNotDefaulted()
    ensures ErrorResponse(Null).message == Null
    ensures ApiResponse(Null).data == Some(Null)
  {
  }
}
