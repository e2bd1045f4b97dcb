/**
 * The JavaScript values the frontend's error helpers inspect: primitives, plain
 * objects with optional `statusText`/`message` properties, and instances of the
 * application's error classes.
 */
module JsValues {

  /** A JavaScript primitive; numbers are exact reals (no NaN or infinities are inspected). */
  datatype Prim = Undefined | Null | Bool(b: bool) | Number(n: real) | Str(s: string)

  /** The client-side error classes, each a direct subclass of ApplicationError. */
  datatype ErrorClass =
    | ApplicationErrorClass
    | NetworkError
    | ValidationError
    | NotFoundError
    | ClientError
    | AuthenticationError
    | PermissionError
    | ConflictError
    | ExternalServiceError
    | ConfigurationError

  /** Per-field validation messages carried by a ValidationError. */
  type FieldDetails = map<string, seq<string>>

  datatype JsValue =
    | Primitive(p: Prim)
    | PlainObject(statusText: Prim, message: Prim)
    | AppError(cls: ErrorClass, errorMessage: string, details: FieldDetails)
}
