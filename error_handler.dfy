/**
 * Mapping of failed HTTP requests to client error classes
 * (frontend/src/api/errorHandler.ts): transport failures, status codes, and the
 * grouping of the server's validation details by form field.
 */
module ErrorHandler {
  import opened Wrappers
  import opened JsValues
  import ErrorUtils

  /** One entry of the server's error envelope: a message and the field it is about, if any. */
  datatype ApiDetail = ApiDetail(message: string, field: Option<string>)

  /** What a request can fail with: not an axios error, an axios error without a response, or an HTTP error response. */
  datatype RequestFailure =
    | NonAxios(cause: JsValue)
    | NoResponse(code: Option<string>)
    | WithResponse(status: int, details: seq<ApiDetail>)

  const NON_FIELD := "nonField"

  /** `apiToInternalFieldMap` lookup: the three known server fields are renamed, others keep their name. */
  function InternalField(field: string): (key: string)
    ensures field == "title" ==> key == "title"
    ensures field == "recorded_date" ==> key == "recordedDate"
    ensures field == "upload_file" ==> key == "file"
    ensures field !in {"title", "recorded_date", "upload_file"} ==> key == field
  {
    if field == "recorded_date" then "recordedDate"
    else if field == "upload_file" then "file"
    else field
  }

  /** The key a detail is filed under: `nonField` when the field is missing or "", else the mapped field. */
  function KeyOf(d: ApiDetail): (key: string)
    ensures d.field.None? || d.field.value == "" ==> key == NON_FIELD
    ensures d.field.Some? && d.field.value != "" ==> key == InternalField(d.field.value)
  {
    if d.field.None? || d.field.value == "" then NON_FIELD else InternalField(d.field.value)
  }

  /** Appends one message to the list under `key`, creating the list if needed. */
  function Push(m: FieldDetails, key: string, message: string): (r: FieldDetails)
    ensures r.Keys == m.Keys + {key}
    ensures r[key] == (if key in m then m[key] else []) + [message]
    ensures forall k :: k in m && k != key ==> r[k] == m[k]
  {
    m[key := (if key in m then m[key] else []) + [message]]
  }

  /** The dictionary `mapValidationErrorDetails` has built after the given details, in order. */
  function Grouped(ds: seq<ApiDetail>): FieldDetails
  {
    if ds == [] then map[] else
      var last := ds[|ds| - 1];
      Push(Grouped(ds[..|ds| - 1]), KeyOf(last), last.message)
  }

  /** The messages filed under `key`, in input order: the reference the grouping is checked against. */
  function MessagesFor(ds: seq<ApiDetail>, key: string): (msgs: seq<string>)
    ensures |msgs| <= |ds|
  {
    if ds == [] then [] else
      var last := ds[|ds| - 1];
      MessagesFor(ds[..|ds| - 1], key) + (if KeyOf(last) == key then [last.message] else [])
  }

  /**
   * The grouping is the per-key filter of the input: a key is present exactly when some
   * detail is filed under it, and its list holds those details' messages in input order.
   */
  lemma {:induction false} GroupedIsFilter(ds: seq<ApiDetail>, key: string)
    ensures key in Grouped(ds) <==> MessagesFor(ds, key) != []
    ensures key in Grouped(ds) ==> Grouped(ds)[key] == MessagesFor(ds, key)
  {
    if ds != [] {
      GroupedIsFilter(ds[..|ds| - 1], key);
    }
  }

  /** Every detail's message is filed under its key, and no list holds more messages than there were details. */
  lemma {:induction false} EveryDetailFiled(ds: seq<ApiDetail>, i: nat)
    requires i < |ds|
    ensures KeyOf(ds[i]) in Grouped(ds)
    ensures ds[i].message in Grouped(ds)[KeyOf(ds[i])]
    ensures |Grouped(ds)[KeyOf(ds[i])]| <= |ds|
  {
    MessageInFilter(ds, i);
    GroupedIsFilter(ds, KeyOf(ds[i]));
  }

  lemma {:induction false} MessageInFilter(ds: seq<ApiDetail>, i: nat)
    requires i < |ds|
    ensures ds[i].message in MessagesFor(ds, KeyOf(ds[i]))
  {
    if i < |ds| - 1 {
      MessageInFilter(ds[..|ds| - 1], i);
    }
  }

  /** A key no detail maps to is absent; in particular details without a field only ever land in `nonField`. */
  lemma {:induction false} OnlyMappedKeys(ds: seq<ApiDetail>, key: string)
    requires forall i :: 0 <= i < |ds| ==> KeyOf(ds[i]) != key
    ensures key !in Grouped(ds)
  {
    if ds != [] {
      OnlyMappedKeys(ds[..|ds| - 1], key);
    }
  }

  /** `mapValidationErrorDetails`: the for-loop pushing each message onto its key's list. */
  method MapValidationErrorDetails(ds: seq<ApiDetail>) returns (details: FieldDetails)
    ensures details == Grouped(ds)
    ensures forall key :: key in details ==> details[key] == MessagesFor(ds, key) && details[key] != []
  {
    details := map[];
    var i := 0;
    while i < |ds|
      invariant 0 <= i <= |ds|
      invariant details == Grouped(ds[..i])
    {
      GroupedStep(ds, i);
      details := FileDetail(details, ds[i]);
      i := i + 1;
    }
    assert ds[..|ds|] == ds;
    GroupedListsAreFilters(ds);
  }

  /**
   * The body of the loop in `mapValidationErrorDetails`: a detail without a field goes
   * under `nonField`, any other under its mapped field; a missing list starts empty.
   */
  method FileDetail(details: FieldDetails, d: ApiDetail) returns (r: FieldDetails)
    ensures r == Push(details, KeyOf(d), d.message)
  {
    if d.field.None? || d.field.value == "" {
      var list := if NON_FIELD in details then details[NON_FIELD] else [];
      return details[NON_FIELD := list + [d.message]];
    }
    var key := InternalField(d.field.value);
    var list := if key in details then details[key] else [];
    r := details[key := list + [d.message]];
  }

  /** One more detail pushes its message under its key. */
  lemma GroupedStep(ds: seq<ApiDetail>, i: nat)
    requires i < |ds|
    ensures Grouped(ds[..i + 1]) == Push(Grouped(ds[..i]), KeyOf(ds[i]), ds[i].message)
  {
    assert ds[..i + 1][..i] == ds[..i];
  }

  lemma GroupedListsAreFilters(ds: seq<ApiDetail>)
    ensures forall key :: key in Grouped(ds) ==> Grouped(ds)[key] == MessagesFor(ds, key) && Grouped(ds)[key] != []
  {
    forall key | key in Grouped(ds)
      ensures Grouped(ds)[key] == MessagesFor(ds, key) && Grouped(ds)[key] != []
    {
      GroupedIsFilter(ds, key);
    }
  }

  /** `mapAxiosError`: the client error class and message for a failed request. */
  function MapAxiosError(failure: RequestFailure): (e: JsValue)
    ensures e.AppError?
    ensures failure.NonAxios? ==> e == AppError(ApplicationErrorClass, "Received non axios error", map[])
    ensures failure.NoResponse? ==> e.cls == NetworkError
    ensures failure.WithResponse? && failure.status in {400, 422} ==>
      e == AppError(ValidationError, "Validation failed", Grouped(failure.details))
    ensures failure.WithResponse? && 400 <= failure.status < 500 && failure.status !in {400, 401, 403, 404, 405, 409, 422} ==>
      e == AppError(ClientError, "Unexpected client error", map[])
    ensures failure.WithResponse? && failure.status >= 500 ==>
      e == AppError(ExternalServiceError, "Unexpected server error", map[])
    ensures failure.WithResponse? && failure.status < 400 ==>
      e == AppError(ApplicationErrorClass, "Unable to map error from request", map[])
  {
    match failure
    case NonAxios(_) => AppError(ApplicationErrorClass, "Received non axios error", map[])
    case NoResponse(code) =>
      if code == Some("ECONNABORTED") || code == Some("ETIMEDOUT") then AppError(NetworkError, "Request timed out", map[])
      else if code == Some("ERR_NETWORK") then AppError(NetworkError, "Network connection failed", map[])
      else AppError(NetworkError, "Unable to connect to server", map[])
    case WithResponse(status, details) =>
      if status == 400 || status == 422 then AppError(ValidationError, "Validation failed", Grouped(details))
      else if status == 401 then AppError(AuthenticationError, "Authentication required", map[])
      else if status == 403 then AppError(PermissionError, "Access forbidden", map[])
      else if status == 404 then AppError(NotFoundError, "Resource not found", map[])
      else if status == 405 then AppError(ClientError, "Method not allowed", map[])
      else if status == 409 then AppError(ConflictError, "Resource conflict", map[])
      else if 400 <= status < 500 then AppError(ClientError, "Unexpected client error", map[])
      else if status >= 500 then AppError(ExternalServiceError, "Unexpected server error", map[])
      else AppError(ApplicationErrorClass, "Unable to map error from request", map[])
  }

  /** Transport failures without a response: timeouts, a lost network, and everything else. */
  lemma NoResponseMessages(code: Option<string>)
    ensures code in {Some("ECONNABORTED"), Some("ETIMEDOUT")} ==>
      MapAxiosError(NoResponse(code)) == AppError(NetworkError, "Request timed out", map[])
    ensures code == Some("ERR_NETWORK") ==>
      MapAxiosError(NoResponse(code)) == AppError(NetworkError, "Network connection failed", map[])
    ensures code !in {Some("ECONNABORTED"), Some("ETIMEDOUT"), Some("ERR_NETWORK")} ==>
      MapAxiosError(NoResponse(code)) == AppError(NetworkError, "Unable to connect to server", map[])
  {
  }

  /** The fixed statuses and the class each gets; an HTTP failure is a NetworkError only when there is no response. */
  lemma FixedStatuses(details: seq<ApiDetail>)
    ensures MapAxiosError(WithResponse(401, details)).cls == AuthenticationError
    ensures MapAxiosError(WithResponse(403, details)).cls == PermissionError
    ensures MapAxiosError(WithResponse(404, details)).cls == NotFoundError
    ensures MapAxiosError(WithResponse(405, details)) == AppError(ClientError, "Method not allowed", map[])
    ensures MapAxiosError(WithResponse(409, details)).cls == ConflictError
    ensures forall status: int :: MapAxiosError(WithResponse(status, details)).cls != NetworkError
  {
  }

  /** `getUserFriendlyErrorMessage`: the class-based text for application errors, the generic text otherwise. */
  function UserFriendlyErrorMessage(error: JsValue): (m: string)
    ensures !error.AppError? ==> m == "Sorry, something went wrong."
    ensures error.AppError? && error.cls == ValidationError ==> m == "Please correct the errors in the form."
  {
    if !error.AppError? then "Sorry, something went wrong."
    else match error.cls
      case ValidationError => "Please correct the errors in the form."
      case ConfigurationError => "Something isn't set up correctly."
      case NetworkError => "We're having trouble connecting. Please check your internet."
      case AuthenticationError => "Please log in to continue."
      case PermissionError => "You don't have permission to do that."
      case NotFoundError => "Sorry, we couldn't find what you were looking for."
      case ConflictError => "This item already exists or conflicts with existing data."
      case ClientError => "Something went wrong on our end. Please try again later."
      case ExternalServiceError => "Something went wrong on our end. Please try again later."
      case ApplicationErrorClass => "Sorry, something went wrong."
  }

  /** For application errors the user-friendly text is the one errorUtils gives; for anything else it is the generic text. */
  lemma UserFriendlyAgreesWithErrorUtils(error: JsValue)
    ensures error.AppError? ==> UserFriendlyErrorMessage(error) == ErrorUtils.GetErrorMessage(error)
    ensures !error.AppError? ==> UserFriendlyErrorMessage(error) == ErrorUtils.ApplicationErrorMessage(ApplicationErrorClass)
  {
  }

  /** Every mapped request failure has a user-friendly text other than the generic one, unless it is unmappable. */
  lemma MappedFailuresHaveSpecificText(failure: RequestFailure)
    requires !failure.NonAxios?
    requires failure.WithResponse? ==> failure.status >= 400
    ensures UserFriendlyErrorMessage(MapAxiosError(failure)) != "Sorry, something went wrong."
  {
  }
}
