/** The transport-agnostic request and response shapes, the domain errors
    that travel in a 400 response, and the status codes of the four
    response helpers (`badRequest`, `unauthorized`, `serverError`, `ok`). */
module Http {
  import opened JsValues

  /** Errors a validator returns as a value (never throws). */
  datatype Error =
    | MissingParamError(paramName: string)
    | InvalidParamError(paramName: string)
    | OtherError(message: string)

  datatype HttpRequest = HttpRequest(body: Value)

  /** One constructor per response helper. */
  datatype HttpResponse =
    | BadRequest(error: Error)
    | Unauthorized
    | ServerError(cause: Fault)
    | Ok(body: Value)

  /** Status codes with their RFC 9110 meanings: 400 Bad Request
      (section 15.5.1), 401 Unauthorized (section 15.5.2), 500 Internal
      Server Error (section 15.6.1), 200 OK (section 15.3.1). */
  function StatusCode(r: HttpResponse): int
  {
    match r
    case BadRequest(_) => 400
    case Unauthorized => 401
    case ServerError(_) => 500
    case Ok(_) => 200
  }

  /** Each response kind has its own status code: the status alone tells
      which of the four outcomes happened. */
  lemma StatusCodeIdentifiesKind(r1: HttpResponse, r2: HttpResponse)
    ensures StatusCode(r1) == StatusCode(r2) <==>
      (r1.BadRequest? && r2.BadRequest?) || (r1.Unauthorized? && r2.Unauthorized?) ||
      (r1.ServerError? && r2.ServerError?) || (r1.Ok? && r2.Ok?)
  {
  }
}
