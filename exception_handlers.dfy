/**
 * The backend's error taxonomy and the handlers that turn an exception into
 * the uniform error envelope (backend/jamflow/api/exception_handlers.py).
 * Status numbers are those of section 15 of RFC 9110, plus 429 from
 * section 4 of RFC 6585.
 */
module ExceptionHandlers {
  import opened Wrappers
  import St = Storage

  /** `ApplicationError` and its eleven direct subclasses. */
  datatype AppErrorKind =
    | ApplicationBase
    | Validation
    | Authentication
    | Authorization
    | ResourceNotFound
    | BusinessLogic
    | DataIntegrity
    | RateLimit
    | Database
    | ExternalService
    | Storage
    | Configuration

  /** The `ErrorCode` enum. */
  datatype ErrorCode =
    | ValidationErrorCode
    | Unauthorized
    | Forbidden
    | NotFound
    | BusinessRuleViolation
    | Conflict
    | RateLimited
    | InternalError

  const BAD_REQUEST := 400
  const UNAUTHORIZED := 401
  const FORBIDDEN := 403
  const NOT_FOUND := 404
  const CONFLICT := 409
  const UNPROCESSABLE_ENTITY := 422
  const TOO_MANY_REQUESTS := 429
  const INTERNAL_SERVER_ERROR := 500

  /** The serialised value of each code. */
  function CodeName(code: ErrorCode): (name: string)
    ensures name != ""
  {
    match code
    case ValidationErrorCode => "VALIDATION_ERROR"
    case Unauthorized => "UNAUTHORIZED"
    case Forbidden => "FORBIDDEN"
    case NotFound => "NOT_FOUND"
    case BusinessRuleViolation => "BUSINESS_RULE_VIOLATION"
    case Conflict => "CONFLICT"
    case RateLimited => "RATE_LIMITED"
    case InternalError => "INTERNAL_ERROR"
  }

  /** The status each code stands for; `ErrorCodeFor` is its inverse. */
  function StatusOf(code: ErrorCode): int
  {
    match code
    case ValidationErrorCode => BAD_REQUEST
    case Unauthorized => UNAUTHORIZED
    case Forbidden => FORBIDDEN
    case NotFound => NOT_FOUND
    case BusinessRuleViolation => UNPROCESSABLE_ENTITY
    case Conflict => CONFLICT
    case RateLimited => TOO_MANY_REQUESTS
    case InternalError => INTERNAL_SERVER_ERROR
  }

  /**
   * `get_http_status`: a lookup in the class-to-status table; the base class
   * is not in the table, which the source reports as a `KeyError` (`None` here).
   */
  function HttpStatus(kind: AppErrorKind): (r: Option<int>)
    ensures r.None? <==> kind == ApplicationBase
    ensures r.Some? ==> 400 <= r.value <= 599
    ensures r.Some? ==> ErrorCodeFor(r.value).Some?
  {
    match kind
    case ApplicationBase => None
    case Validation => Some(BAD_REQUEST)
    case Authentication => Some(UNAUTHORIZED)
    case Authorization => Some(FORBIDDEN)
    case ResourceNotFound => Some(NOT_FOUND)
    case BusinessLogic => Some(UNPROCESSABLE_ENTITY)
    case DataIntegrity => Some(CONFLICT)
    case RateLimit => Some(TOO_MANY_REQUESTS)
    case Database => Some(INTERNAL_SERVER_ERROR)
    case ExternalService => Some(INTERNAL_SERVER_ERROR)
    case Storage => Some(INTERNAL_SERVER_ERROR)
    case Configuration => Some(INTERNAL_SERVER_ERROR)
  }

  /** `get_error_code`: a lookup in the status-to-code table; `None` stands for the `KeyError`. */
  function ErrorCodeFor(status: int): (r: Option<ErrorCode>)
    ensures r.Some? ==> StatusOf(r.value) == status
  {
    if status == BAD_REQUEST then Some(ValidationErrorCode)
    else if status == UNAUTHORIZED then Some(Unauthorized)
    else if status == FORBIDDEN then Some(Forbidden)
    else if status == NOT_FOUND then Some(NotFound)
    else if status == UNPROCESSABLE_ENTITY then Some(BusinessRuleViolation)
    else if status == CONFLICT then Some(Conflict)
    else if status == TOO_MANY_REQUESTS then Some(RateLimited)
    else if status == INTERNAL_SERVER_ERROR then Some(InternalError)
    else None
  }

  /** The two tables agree: each code is found exactly at its own status. */
  lemma ErrorCodeInverse(status: int, code: ErrorCode)
    ensures ErrorCodeFor(status) == Some(code) <==> StatusOf(code) == status
  {
    match code
    case ValidationErrorCode =>
    case Unauthorized =>
    case Forbidden =>
    case NotFound =>
    case BusinessRuleViolation =>
    case Conflict =>
    case RateLimited =>
    case InternalError =>
  }

  /** Every direct subclass has a status, and every such status has a code. */
  lemma EverySubclassHasCode(kind: AppErrorKind)
    requires kind != ApplicationBase
    ensures HttpStatus(kind).Some? && ErrorCodeFor(HttpStatus(kind).value).Some?
  {
  }

  /** The four infrastructure failures all become 500 / INTERNAL_ERROR; no other class does. */
  lemma InternalFailures(kind: AppErrorKind)
    ensures HttpStatus(kind) == Some(INTERNAL_SERVER_ERROR)
      <==> kind in {Database, ExternalService, Storage, Configuration}
    ensures HttpStatus(kind) == Some(INTERNAL_SERVER_ERROR) ==> ErrorCodeFor(INTERNAL_SERVER_ERROR) == Some(InternalError)
  {
  }

  /** `ErrorDetailDto`: a field of `None` is left out of the serialised body. */
  datatype ErrorDetail = ErrorDetail(message: string, field: Option<string>)

  /** `ApiErrorDto`; the timestamp is the clock reading passed in. */
  datatype ApiError = ApiError(code: ErrorCode, details: seq<ErrorDetail>, timestamp: string)

  datatype Response = Response(status: int, body: ApiError)

  /** A response whose machine code is the one the table gives for its status. */
  predicate Consistent(r: Response) {
    ErrorCodeFor(r.status) == Some(r.body.code)
  }

  const APPLICATION_LOG := "Unhandled application exception"
  const EXTERNAL_LOG := "Unhandled external exception"

  /** A handler's response and the error event it logs, if any. */
  datatype Handled = Handled(response: Response, logged: Option<string>)

  /**
   * `application_exception_handler`: the status comes from the class, the code
   * from the status, and the body carries the exception's message as its only
   * detail; 500s are logged. The base class has no status, so the handler
   * itself fails (`None`).
   */
  function ApplicationHandler(kind: AppErrorKind, message: string, now: string): (r: Option<Handled>)
    ensures r.None? <==> kind == ApplicationBase
    ensures r.Some? ==> Some(r.value.response.status) == HttpStatus(kind) && Consistent(r.value.response)
    ensures r.Some? ==> r.value.response.body.details == [ErrorDetail(message, None)]
    ensures r.Some? ==> (r.value.logged.Some? <==> r.value.response.status == INTERNAL_SERVER_ERROR)
  {
    match HttpStatus(kind)
    case None => None
    case Some(status) =>
      match ErrorCodeFor(status)
      case None => None
      case Some(code) =>
        var logged := if status == INTERNAL_SERVER_ERROR then Some(APPLICATION_LOG) else None;
        Some(Handled(Response(status, ApiError(code, [ErrorDetail(message, None)], now)), logged))
  }

  /**
   * One element of a request error's location: a field name, or a position
   * (the index of a list item, or the character offset of a JSON decode error).
   */
  datatype LocItem = Name(name: string) | Index(index: int)

  /** One entry of `RequestValidationError.errors()`: an optional message and a location path. */
  datatype RequestError = RequestError(msg: Option<string>, loc: seq<LocItem>)

  const DEFAULT_VALIDATION_MESSAGE := "Validation error"

  /** The error's location ends in a position, which `ErrorDetailDto.field: str | None` refuses. */
  predicate EndsInIndex(e: RequestError)
  {
    e.loc != [] && e.loc[|e.loc| - 1].Index?
  }

  /** Some error of a request-validation failure has a location that ends in a position. */
  predicate HasPositionField(errors: seq<RequestError>)
  {
    exists i :: 0 <= i < |errors| && EndsInIndex(errors[i])
  }

  /**
   * The detail built for one request error: its message or the default, and
   * the last location element as the field. `None` when that element is a
   * position: pydantic does not turn an `int` into a `str`, so building the
   * `ErrorDetailDto` raises.
   */
  function DetailOf(e: RequestError): (d: Option<ErrorDetail>)
    ensures d.None? <==> EndsInIndex(e)
    ensures d.Some? ==> (d.value.field.Some? <==> e.loc != [])
    ensures d.Some? && d.value.field.Some? ==> e.loc[|e.loc| - 1] == Name(d.value.field.value)
    ensures d.Some? && e.msg.None? ==> d.value.message == DEFAULT_VALIDATION_MESSAGE
    ensures d.Some? && e.msg.Some? ==> d.value.message == e.msg.value
  {
    var message := if e.msg.Some? then e.msg.value else DEFAULT_VALIDATION_MESSAGE;
    if e.loc == [] then Some(ErrorDetail(message, None))
    else match e.loc[|e.loc| - 1]
      case Name(field) => Some(ErrorDetail(message, Some(field)))
      case Index(_) => None
  }

  /**
   * The details of a request-validation failure, one per error, in order;
   * `None` when building any one of them raises.
   */
  function ValidationDetails(errors: seq<RequestError>): (ds: Option<seq<ErrorDetail>>)
    ensures ds.None? <==> HasPositionField(errors)
    ensures ds.Some? ==> |ds.value| == |errors|
    ensures ds.Some? ==> forall i :: 0 <= i < |errors| ==> DetailOf(errors[i]) == Some(ds.value[i])
  {
    if errors == [] then Some([])
    else
      var front := errors[..|errors| - 1];
      var last := errors[|errors| - 1];
      assert forall i :: 0 <= i < |front| ==> front[i] == errors[i];
      match (ValidationDetails(front), DetailOf(last))
      case (Some(ds), Some(d)) => Some(ds + [d])
      case _ => None
  }

  /**
   * The loop of `fast_api_validation_exception_handler` that appends one
   * detail per error, stopping at the first one whose construction raises.
   */
  method BuildValidationDetails(errors: seq<RequestError>) returns (details: Option<seq<ErrorDetail>>)
    ensures details == ValidationDetails(errors)
  {
    var built := [];
    var i := 0;
    while i < |errors|
      invariant 0 <= i <= |errors|
      invariant ValidationDetails(errors[..i]) == Some(built)
    {
      var d := DetailOf(errors[i]);
      if d.None? {
        return None;
      }
      assert errors[..i + 1][..i] == errors[..i];
      built := built + [d.value];
      i := i + 1;
    }
    assert errors[..i] == errors;
    details := Some(built);
  }

  /**
   * The response of a request-validation failure: 400 / VALIDATION_ERROR,
   * one detail per error; `None` when building a detail raises.
   */
  function ValidationResponse(errors: seq<RequestError>, now: string): (r: Option<Response>)
    ensures r.None? <==> HasPositionField(errors)
    ensures r.Some? ==> r.value.status == BAD_REQUEST && r.value.body.code == ValidationErrorCode && Consistent(r.value)
    ensures r.Some? ==> Some(r.value.body.details) == ValidationDetails(errors)
  {
    match ValidationDetails(errors)
    case Some(details) => Some(Response(BAD_REQUEST, ApiError(ValidationErrorCode, details, now)))
    case None => None
  }

  /**
   * `fast_api_validation_exception_handler`: 400 / VALIDATION_ERROR with the
   * built details, unless some location ends in a position, where the
   * handler itself raises (`None`).
   */
  method ValidationHandler(errors: seq<RequestError>, now: string) returns (r: Option<Response>)
    ensures r.None? <==> HasPositionField(errors)
    ensures r.Some? ==> r.value.status == BAD_REQUEST && r.value.body.code == ValidationErrorCode && Consistent(r.value)
    ensures r.Some? ==> |r.value.body.details| == |errors|
    ensures r.Some? ==> forall i :: 0 <= i < |errors| ==> DetailOf(errors[i]) == Some(r.value.body.details[i])
    ensures r == ValidationResponse(errors, now)
  {
    var details := BuildValidationDetails(errors);
    if details.None? {
      return None;
    }
    r := Some(Response(BAD_REQUEST, ApiError(ValidationErrorCode, details.value, now)));
  }

  /**
   * `fast_api_http_exception_handler`: the status is kept, the code looked up,
   * and the detail text becomes the only message; a status outside the table
   * makes the handler fail (`None`).
   */
  function HttpExceptionHandler(status: int, detail: string, now: string): (r: Option<Response>)
    ensures r.Some? <==> ErrorCodeFor(status).Some?
    ensures r.Some? ==> r.value.status == status && Consistent(r.value)
    ensures r.Some? ==> r.value.body.details == [ErrorDetail(detail, None)]
  {
    match ErrorCodeFor(status)
    case None => None
    case Some(code) => Some(Response(status, ApiError(code, [ErrorDetail(detail, None)], now)))
  }

  const INTERNAL_MESSAGE := "Internal server error"
  const ENDPOINT_NOT_FOUND_MESSAGE := "Endpoint not found"

  /** `external_exception_handler`: whatever the exception, 500 / INTERNAL_ERROR with one fixed message, logged. */
  function ExternalHandler(now: string): (h: Handled)
    ensures h.response.status == INTERNAL_SERVER_ERROR && Consistent(h.response)
    ensures h.response.body.code == InternalError
    ensures h.response.body.details == [ErrorDetail(INTERNAL_MESSAGE, None)]
    ensures h.logged == Some(EXTERNAL_LOG)
  {
    Handled(Response(INTERNAL_SERVER_ERROR, ApiError(InternalError, [ErrorDetail(INTERNAL_MESSAGE, None)], now)), Some(EXTERNAL_LOG))
  }

  /** `http_404_handler`: always 404 / NOT_FOUND with one fixed message. */
  function NotFoundHandler(now: string): (r: Response)
    ensures r.status == NOT_FOUND && r.body.code == NotFound && Consistent(r)
    ensures r.body.details == [ErrorDetail(ENDPOINT_NOT_FOUND_MESSAGE, None)]
  {
    Response(NOT_FOUND, ApiError(NotFound, [ErrorDetail(ENDPOINT_NOT_FOUND_MESSAGE, None)], now))
  }

  /** What a route can raise. */
  datatype Raised =
    | AppError(kind: AppErrorKind, message: string)
    | HttpError(status: int, detail: string)
    | RequestValidation(errors: seq<RequestError>)
    | OtherException

  /**
   * The handler registration of the app factory.  An HTTP error with status
   * 404 goes to the handler registered for that status, which Starlette
   * consults before the class handlers; other HTTP errors go to the HTTP
   * handler; request-validation failures to the validation handler;
   * application errors to the application handler; everything else to the
   * external handler, which also answers for a handler that raises (a
   * `KeyError` in the application or HTTP handler, a pydantic error in the
   * validation handler).
   */
  function Handle(e: Raised, now: string): (h: Handled)
    ensures Consistent(h.response)
    ensures e.AppError? && e.kind == ApplicationBase ==> h == ExternalHandler(now)
    ensures e.OtherException? ==> h == ExternalHandler(now)
    ensures e.HttpError? && e.status == NOT_FOUND ==> h == Handled(NotFoundHandler(now), None)
    ensures e.HttpError? && e.status != NOT_FOUND ==>
      (ErrorCodeFor(e.status).Some? <==> h.logged.None?)
      && (ErrorCodeFor(e.status).Some? ==> h.response.status == e.status && h.response.body.details == [ErrorDetail(e.detail, None)])
    ensures e.RequestValidation? && !HasPositionField(e.errors) ==>
      h.response.status == BAD_REQUEST && Some(h.response.body.details) == ValidationDetails(e.errors) && h.logged.None?
    ensures e.RequestValidation? && HasPositionField(e.errors) ==> h == ExternalHandler(now)
  {
    match e
    case AppError(kind, message) =>
      (match ApplicationHandler(kind, message, now)
       case Some(handled) => handled
       case None => ExternalHandler(now))
    case HttpError(status, detail) =>
      if status == NOT_FOUND then Handled(NotFoundHandler(now), None)
      else
        (match HttpExceptionHandler(status, detail, now)
         case Some(r) => Handled(r, None)
         case None => ExternalHandler(now))
    case RequestValidation(errors) =>
      (match ValidationResponse(errors, now)
       case Some(r) => Handled(r, None)
       case None => ExternalHandler(now))
    case OtherException => ExternalHandler(now)
  }

  /**
   * A request whose JSON body does not parse: FastAPI reports the error at
   * `("body", <offset>)`, so the validation handler raises and the client
   * gets the external handler's 500 instead of a 400.
   */
  lemma MalformedJsonBodyIsInternalError(message: string, offset: int, now: string)
    ensures Handle(RequestValidation([RequestError(Some(message), [Name("body"), Index(offset)])]), now) == ExternalHandler(now)
    ensures ValidationResponse([RequestError(Some(message), [Name("body"), Index(offset)])], now).None?
  {
    var errors := [RequestError(Some(message), [Name("body"), Index(offset)])];
    assert EndsInIndex(errors[0]);
  }

  /**
   * What a failed storage operation raises, as written: `StorageError` takes
   * only a message (it inherits `ApplicationError.__init__`), so building one
   * with `context=` raises `TypeError` in its place; a provider error that is
   * not caught is not an `ApplicationError` either.
   */
  function RaisedByStorageAsWritten(f: St.StorageFailure): (e: Raised)
    ensures !e.AppError?
  {
    OtherException
  }

  /** What a failed storage operation raises once `StorageError` accepts its context. */
  function RaisedByStorage(f: St.StorageFailure): (e: Raised)
    ensures f.StorageError? <==> e.AppError?
    ensures f.StorageError? ==> e == AppError(Storage, f.message)
    ensures f.Unwrapped? <==> e == OtherException
  {
    match f
    case StorageError(message, _) => AppError(Storage, message)
    case Unwrapped(_) => OtherException
  }

  /**
   * As written, every storage failure reaches the client as the external
   * handler's generic "Internal server error", never with its own message.
   */
  lemma StorageFailureAsWrittenIsGeneric(message: string, base: St.Context, cause: St.ProviderError, now: string)
    requires message != INTERNAL_MESSAGE
    ensures var h := Handle(RaisedByStorageAsWritten(St.Wrapped(message, base, cause)), now);
      h == ExternalHandler(now) && h.response.body.details != [ErrorDetail(message, None)]
  {
  }

  /**
   * A wrapped storage failure reaches the application handler: 500 /
   * INTERNAL_ERROR carrying the operation's own message, logged.
   */
  lemma StorageFailureKeepsMessage(message: string, base: St.Context, cause: St.ProviderError, now: string)
    ensures var h := Handle(RaisedByStorage(St.Wrapped(message, base, cause)), now);
      h.response.status == INTERNAL_SERVER_ERROR && h.response.body.code == InternalError
      && h.response.body.details == [ErrorDetail(message, None)]
      && h.logged == Some(APPLICATION_LOG)
  {
  }

  /**
   * Outside the HTTP-exception path a 500 response is always logged, and an
   * application error whose class is in the table reaches the client with its
   * own message.
   */
  lemma HandledFiveHundredsAreLogged(e: Raised, now: string)
    ensures !e.HttpError? && Handle(e, now).response.status == INTERNAL_SERVER_ERROR ==> Handle(e, now).logged.Some?
    ensures e.AppError? && e.kind != ApplicationBase
      ==> Handle(e, now).response.body.details == [ErrorDetail(e.message, None)]
  {
  }
}
