/** The Python core's `APIError` hierarchy: each exception fixes an HTTP
    status and a machine-readable error code. */
module PyExceptions {
  import opened Common

  datatype ExceptionClass =
    | APIErrorClass | ValidationErrorClass | ServiceUnavailableErrorClass
    | MemoryErrorClass | ExternalAPIErrorClass | AuthenticationErrorClass

  /** `self.__class__.__name__` */
  function ClassName(c: ExceptionClass): string {
    match c
    case APIErrorClass => "APIError"
    case ValidationErrorClass => "ValidationError"
    case ServiceUnavailableErrorClass => "ServiceUnavailableError"
    case MemoryErrorClass => "MemoryError"
    case ExternalAPIErrorClass => "ExternalAPIError"
    case AuthenticationErrorClass => "AuthenticationError"
  }

  /** The attributes every exception has, plus the one extra attribute some
      subclasses keep (`service_name`, `operation`, `api_name`). */
  datatype APIError = APIError(
    cls: ExceptionClass, message: string, statusCode: int, errorCode: string, extra: Option<string>)

  /** `APIError.__init__(message, status_code=500, error_code=None)` as run for
      class `cls`: a missing or empty code falls back to the class name. */
  function Init(cls: ExceptionClass, message: string, statusCode: Option<int>, errorCode: Option<string>): (e: APIError)
    ensures e.cls == cls && e.message == message && e.extra == None
    ensures e.statusCode == (if statusCode.Some? then statusCode.value else 500)
    ensures Truthy(errorCode) ==> e.errorCode == errorCode.value
    ensures !Truthy(errorCode) ==> e.errorCode == ClassName(cls)
  {
    APIError(cls, message, if statusCode.Some? then statusCode.value else 500,
             OrElse(errorCode, ClassName(cls)), None)
  }

  function NewValidationError(message: string): (e: APIError)
    ensures e.cls == ValidationErrorClass && e.message == message
    ensures e.statusCode == 400 && e.errorCode == "VALIDATION_ERROR"
  {
    Init(ValidationErrorClass, message, Some(400), Some("VALIDATION_ERROR"))
  }

  /** A missing or empty message becomes "Service '<name>' is currently unavailable". */
  function NewServiceUnavailableError(serviceName: string, message: Option<string>): (e: APIError)
    ensures e.cls == ServiceUnavailableErrorClass && e.extra == Some(serviceName)
    ensures e.statusCode == 503 && e.errorCode == "SERVICE_UNAVAILABLE"
    ensures Truthy(message) ==> e.message == message.value
    ensures !Truthy(message) ==> e.message == "Service '" + serviceName + "' is currently unavailable"
  {
    var msg := OrElse(message, "Service '" + serviceName + "' is currently unavailable");
    Init(ServiceUnavailableErrorClass, msg, Some(503), Some("SERVICE_UNAVAILABLE")).(extra := Some(serviceName))
  }

  function NewMemoryError(message: string, operation: Option<string>): (e: APIError)
    ensures e.cls == MemoryErrorClass && e.message == message && e.extra == operation
    ensures e.statusCode == 500 && e.errorCode == "MEMORY_ERROR"
  {
    Init(MemoryErrorClass, message, Some(500), Some("MEMORY_ERROR")).(extra := operation)
  }

  /** The status defaults to 502 and the message is prefixed with "[api] ". */
  function NewExternalAPIError(apiName: string, message: string, statusCode: Option<int>): (e: APIError)
    ensures e.cls == ExternalAPIErrorClass && e.extra == Some(apiName)
    ensures e.message == "[" + apiName + "] " + message
    ensures e.errorCode == "EXTERNAL_API_ERROR"
    ensures e.statusCode == (if statusCode.Some? then statusCode.value else 502)
  {
    var status := if statusCode.Some? then statusCode.value else 502;
    Init(ExternalAPIErrorClass, "[" + apiName + "] " + message, Some(status), Some("EXTERNAL_API_ERROR"))
      .(extra := Some(apiName))
  }

  function NewAuthenticationError(message: Option<string>): (e: APIError)
    ensures e.cls == AuthenticationErrorClass
    ensures e.statusCode == 401 && e.errorCode == "AUTHENTICATION_ERROR"
    ensures e.message == (if message.Some? then message.value else "Authentication required")
  {
    Init(AuthenticationErrorClass, if message.Some? then message.value else "Authentication required",
         Some(401), Some("AUTHENTICATION_ERROR"))
  }

  /** Every subclass's error code is fixed: it never falls back to a class name. */
  lemma SubclassCodesAreFixed(m: string, n: string, o: Option<string>, s: Option<int>)
    ensures NewValidationError(m).errorCode != ClassName(ValidationErrorClass)
    ensures NewServiceUnavailableError(n, o).errorCode != ClassName(ServiceUnavailableErrorClass)
    ensures NewMemoryError(m, o).errorCode != ClassName(MemoryErrorClass)
    ensures NewExternalAPIError(n, m, s).errorCode != ClassName(ExternalAPIErrorClass)
    ensures NewAuthenticationError(o).errorCode != ClassName(AuthenticationErrorClass)
  {
  }
}
