/**
 * User-facing error messages (frontend/src/lib/errorUtils.ts): application errors
 * by class, anything else from a trimmed string, `statusText` or `message`.
 */
module ErrorUtils {
  import opened Strings
  import opened JsValues

  const UNKNOWN_ERROR := "Unknown error"

  /** The text shared by client errors and external service errors. */
  const SERVER_TROUBLE := "Something went wrong on our end. Please try again later."
  /** The text of a plain application error. */
  const GENERIC_TROUBLE := "Sorry, something went wrong."

  /** The texts of the classes that have one of their own. */
  const VALIDATION_TEXT := "Please correct the errors in the form."
  const CONFIGURATION_TEXT := "Something isn't set up correctly."
  const NETWORK_TEXT := "We're having trouble connecting. Please check your internet."
  const AUTHENTICATION_TEXT := "Please log in to continue."
  const PERMISSION_TEXT := "You don't have permission to do that."
  const NOT_FOUND_TEXT := "Sorry, we couldn't find what you were looking for."
  const CONFLICT_TEXT := "This item already exists or conflicts with existing data."

  /** `getApplicationErrorMessage`: one fixed text per class; ClientError and ExternalServiceError share one. */
  function ApplicationErrorMessage(cls: ErrorClass): (m: string)
    ensures cls == ClientError || cls == ExternalServiceError ==> m == SERVER_TROUBLE
    ensures cls == ApplicationErrorClass ==> m == GENERIC_TROUBLE
  {
    match cls
    case ValidationError => VALIDATION_TEXT
    case ConfigurationError => CONFIGURATION_TEXT
    case NetworkError => NETWORK_TEXT
    case AuthenticationError => AUTHENTICATION_TEXT
    case PermissionError => PERMISSION_TEXT
    case NotFoundError => NOT_FOUND_TEXT
    case ConflictError => CONFLICT_TEXT
    case ClientError => SERVER_TROUBLE
    case ExternalServiceError => SERVER_TROUBLE
    case ApplicationErrorClass => GENERIC_TROUBLE
  }

  /** The two classes whose text is `SERVER_TROUBLE`. */
  predicate SharesServerText(cls: ErrorClass)
  {
    cls == ClientError || cls == ExternalServiceError
  }

  /**
   * Two classes get the same text exactly when they are the same class or
   * both share `SERVER_TROUBLE`: every other class, the plain application
   * error included, has a text of its own.
   */
  lemma ApplicationErrorMessagesDistinct(a: ErrorClass, b: ErrorClass)
    ensures ApplicationErrorMessage(a) == ApplicationErrorMessage(b) <==> a == b || (SharesServerText(a) && SharesServerText(b))
  {
    if ApplicationErrorMessage(a) == ApplicationErrorMessage(b) {
      MessageLength(a);
      MessageLength(b);
      TextLengthShared(a, b);
    }
  }

  /** Only the two classes that share `SERVER_TROUBLE` share a length. */
  lemma TextLengthShared(a: ErrorClass, b: ErrorClass)
    requires TextLength(a) == TextLength(b)
    ensures a == b || (SharesServerText(a) && SharesServerText(b))
  {
  }

  /** The length of each class's text. */
  function TextLength(cls: ErrorClass): nat
  {
    match cls
    case ValidationError => 38
    case ConfigurationError => 33
    case NetworkError => 60
    case AuthenticationError => 26
    case PermissionError => 37
    case NotFoundError => 50
    case ConflictError => 57
    case ClientError => 56
    case ExternalServiceError => 56
    case ApplicationErrorClass => 28
  }

  lemma MessageLength(cls: ErrorClass)
    ensures |ApplicationErrorMessage(cls)| == TextLength(cls)
  {
    match cls
    case ValidationError =>
    case ConfigurationError =>
    case NetworkError =>
    case AuthenticationError =>
    case PermissionError =>
    case NotFoundError =>
    case ConflictError =>
    case ClientError =>
    case ExternalServiceError =>
    case ApplicationErrorClass =>
  }

  /** A property that counts: a string that is not blank once trimmed. */
  predicate Usable(p: Prim) {
    p.Str? && Trim(p.s) != ""
  }

  /** `getFallbackErrorMessage`. An application error instance is an object whose `message` is its text. */
  function FallbackErrorMessage(error: JsValue): (m: string)
    ensures m != "" && Trim(m) == m
  {
    UnknownErrorIsTrimmed();
    match error
    case Primitive(p) =>
      if Usable(p) then TrimIdempotent(p.s); Trim(p.s) else UNKNOWN_ERROR
    case PlainObject(statusText, message) => ObjectMessage(statusText, message)
    case AppError(_, message, _) => ObjectMessage(Undefined, Str(message))
  }

  /** The object branch: a usable `statusText`, else a usable `message`, else the default. */
  function ObjectMessage(statusText: Prim, message: Prim): (m: string)
    ensures m != "" && Trim(m) == m
    ensures Usable(statusText) ==> m == Trim(statusText.s)
    ensures !Usable(statusText) && Usable(message) ==> m == Trim(message.s)
    ensures !Usable(statusText) && !Usable(message) ==> m == UNKNOWN_ERROR
  {
    UnknownErrorIsTrimmed();
    if Usable(statusText) then TrimIdempotent(statusText.s); Trim(statusText.s)
    else if Usable(message) then TrimIdempotent(message.s); Trim(message.s)
    else UNKNOWN_ERROR
  }

  lemma UnknownErrorIsTrimmed()
    ensures Trim(UNKNOWN_ERROR) == UNKNOWN_ERROR
  {
    TrimOfTrimmed(UNKNOWN_ERROR);
  }

  /** `getErrorMessage`: application errors by class, everything else by the fallback. */
  function GetErrorMessage(error: JsValue): (m: string)
    ensures error.AppError? ==> m == ApplicationErrorMessage(error.cls)
    ensures !error.AppError? ==> m == FallbackErrorMessage(error)
  {
    if error.AppError? then ApplicationErrorMessage(error.cls) else FallbackErrorMessage(error)
  }

  /** Fallback cases: a non-blank string gives its trimmed self; nothing usable gives the default. */
  lemma FallbackCases(s: string, other: Prim)
    ensures !AllWhitespace(s) ==> FallbackErrorMessage(Primitive(Str(s))) == Trim(s)
    ensures AllWhitespace(s) ==> FallbackErrorMessage(Primitive(Str(s))) == UNKNOWN_ERROR
    ensures !other.Str? ==> FallbackErrorMessage(Primitive(other)) == UNKNOWN_ERROR
    ensures !other.Str? ==> FallbackErrorMessage(PlainObject(other, other)) == UNKNOWN_ERROR
  {
    FallbackOfString(s);
  }

  lemma FallbackOfString(s: string)
    ensures FallbackErrorMessage(Primitive(Str(s))) == if AllWhitespace(s) then UNKNOWN_ERROR else Trim(s)
  {
    TrimEmptyIff(s);
  }

  /** A usable `statusText` wins over any `message`; a non-string `statusText` is skipped. */
  lemma StatusTextWins(statusText: string, message: Prim, nonString: Prim)
    requires !AllWhitespace(statusText)
    requires !nonString.Str?
    ensures FallbackErrorMessage(PlainObject(Str(statusText), message)) == Trim(statusText)
    ensures FallbackErrorMessage(PlainObject(nonString, message)) ==
      if Usable(message) then Trim(message.s) else UNKNOWN_ERROR
  {
    TrimEmptyIff(statusText);
  }
}
