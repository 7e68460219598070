/** The frontend's error hierarchy (`AppError` and its three subclasses) and
    `handleApiError`, which turns anything thrown in a route into a JSON
    response. A thrown value is either one of these errors, a plain `Error`
    carrying the optional fields the provider SDKs attach (`status`,
    `response.status`, `code`, `fileSize`), or a value that is not an `Error`. */
module AppErrors {
  import opened Common

  datatype Kind = Base | Validation | Authentication | ExternalService(service: string)

  datatype AppError = AppError(kind: Kind, message: string, statusCode: int, code: Option<string>)

  /** The `code` property of a plain error: SDKs use both numbers and strings. */
  datatype ErrorCode = NoCode | NumCode(n: int) | StrCode(s: string)

  datatype Thrown =
    | App(err: AppError)
    | Plain(message: string, status: Option<int>, responseStatus: Option<int>, code: ErrorCode, fileSize: Option<int>)
    | NotAnError

  /** `new AppError(message, statusCode = 500, code)` */
  function NewAppError(message: string, statusCode: Option<int>, code: Option<string>): (e: AppError)
    ensures e.kind == Base && e.message == message && e.code == code
    ensures statusCode.None? ==> e.statusCode == 500
    ensures statusCode.Some? ==> e.statusCode == statusCode.value
  {
    AppError(Base, message, if statusCode.Some? then statusCode.value else 500, code)
  }

  function NewValidationError(message: string): (e: AppError)
    ensures e.kind == Validation && e.message == message
    ensures e.statusCode == 400 && e.code == Some("VALIDATION_ERROR")
  {
    AppError(Validation, message, 400, Some("VALIDATION_ERROR"))
  }

  /** The message defaults to 'Authentication failed' when none is passed. */
  function NewAuthenticationError(message: Option<string>): (e: AppError)
    ensures e.kind == Authentication
    ensures e.statusCode == 401 && e.code == Some("AUTHENTICATION_ERROR")
    ensures message.Some? ==> e.message == message.value
    ensures message.None? ==> e.message == "Authentication failed"
  {
    AppError(Authentication, if message.Some? then message.value else "Authentication failed",
             401, Some("AUTHENTICATION_ERROR"))
  }

  function NewExternalServiceError(service: string, message: string): (e: AppError)
    ensures e.kind == ExternalService(service)
    ensures e.statusCode == 502 && e.code == Some("EXTERNAL_SERVICE_ERROR")
    ensures e.message == "[" + service + "] " + message
  {
    AppError(ExternalService(service), "[" + service + "] " + message, 502, Some("EXTERNAL_SERVICE_ERROR"))
  }

  /** The JSON error body `{ error, code }` and the HTTP status. */
  datatype ErrorResponse = ErrorResponse(status: int, error: string, code: Option<string>)

  const UnexpectedError := "An unexpected error occurred"

  function HandleApiError(t: Thrown): (r: ErrorResponse)
    ensures t.App? ==> r == ErrorResponse(t.err.statusCode, t.err.message, t.err.code)
    ensures t.Plain? ==> r.status == 500 && r.code == Some("INTERNAL_ERROR")
    ensures t.Plain? ==> r.error == (if t.message != "" then t.message else UnexpectedError)
    ensures t.NotAnError? ==> r == ErrorResponse(500, UnexpectedError, Some("UNKNOWN_ERROR"))
  {
    match t
    case App(e) => ErrorResponse(e.statusCode, e.message, e.code)
    case Plain(message, _, _, _, _) =>
      ErrorResponse(500, if message != "" then message else UnexpectedError, Some("INTERNAL_ERROR"))
    case NotAnError => ErrorResponse(500, UnexpectedError, Some("UNKNOWN_ERROR"))
  }

  /** Each subclass reaches the client with its own status and code; anything
      that is not an `AppError` is a 500. */
  lemma HandledStatuses(t: Thrown)
    ensures t.App? && t.err.kind.Validation? && t.err == NewValidationError(t.err.message) ==>
      HandleApiError(t).status == 400 && HandleApiError(t).code == Some("VALIDATION_ERROR")
    ensures !t.App? ==> HandleApiError(t).status == 500 && HandleApiError(t).error != ""
    ensures forall m :: HandleApiError(App(NewAuthenticationError(m))).status == 401
    ensures forall s, m :: HandleApiError(App(NewExternalServiceError(s, m))).status == 502
  {
  }

  /** `error?.message?.includes(x)`: a thrown value that is not an Error has no message. */
  predicate MessageContains(t: Thrown, x: string) {
    match t
    case App(e) => Contains(e.message, x)
    case Plain(m, _, _, _, _) => Contains(m, x)
    case NotAnError => false
  }

  predicate IsValidationError(t: Thrown) { t.App? && t.err.kind.Validation? }
  predicate IsAuthenticationError(t: Thrown) { t.App? && t.err.kind.Authentication? }
  predicate IsExternalServiceError(t: Thrown) { t.App? && t.err.kind.ExternalService? }
}
