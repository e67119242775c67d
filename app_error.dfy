/** The application's single error type: a closed code taxonomy plus optional status, payload and cause. */
module AppErrors {
  import opened Options
  import JsValue
  import Transport

  /** The ten error codes. */
  datatype ErrorCode =
    | NetworkError
    | Timeout
    | ServerError
    | Unauthorized
    | Forbidden
    | TokenExpired
    | ValidationError
    | NotFound
    | Conflict
    | Unknown

  /**
   * The string value each enum member carries at run time. The rest of the model
   * works with `ErrorCode` itself (the `toJSON` record included); these functions and
   * `CodeTextRoundTrip` only document that the ten run-time values are distinct.
   */
  function CodeText(c: ErrorCode): string
  {
    match c
    case NetworkError => "NETWORK_ERROR"
    case Timeout => "TIMEOUT"
    case ServerError => "SERVER_ERROR"
    case Unauthorized => "UNAUTHORIZED"
    case Forbidden => "FORBIDDEN"
    case TokenExpired => "TOKEN_EXPIRED"
    case ValidationError => "VALIDATION_ERROR"
    case NotFound => "NOT_FOUND"
    case Conflict => "CONFLICT"
    case Unknown => "UNKNOWN"
  }

  /** The enum member whose string value is `s`, if any. */
  function CodeOfText(s: string): (r: Option<ErrorCode>)
    ensures r.Some? ==> CodeText(r.value) == s
  {
    if s == "NETWORK_ERROR" then Some(NetworkError)
    else if s == "TIMEOUT" then Some(Timeout)
    else if s == "SERVER_ERROR" then Some(ServerError)
    else if s == "UNAUTHORIZED" then Some(Unauthorized)
    else if s == "FORBIDDEN" then Some(Forbidden)
    else if s == "TOKEN_EXPIRED" then Some(TokenExpired)
    else if s == "VALIDATION_ERROR" then Some(ValidationError)
    else if s == "NOT_FOUND" then Some(NotFound)
    else if s == "CONFLICT" then Some(Conflict)
    else if s == "UNKNOWN" then Some(Unknown)
    else None
  }

  /** Every code's string value reads back as that code, so the string values are pairwise distinct. */
  lemma CodeTextRoundTrip(c: ErrorCode)
    ensures CodeOfText(CodeText(c)) == Some(c)
  {
  }

  /** The `Error` object an `AppError` was made from: an HTTP client failure or a plain `Error`. */
  datatype Cause = AxiosCause(failure: Transport.AxiosFailure) | PlainCause(message: string)

  /** The `name` every `AppError` carries. */
  const AppErrorName: string := "AppError"

  /** An `AppError`; `data == Undefined` stands for an absent payload. */
  datatype AppError = AppError(
    message: string,
    code: ErrorCode,
    statusCode: Option<int>,
    data: JsValue.Value,
    originalError: Option<Cause>)
  {
    /** `isNetworkError()`. */
    predicate IsNetworkError() { code == NetworkError || code == Timeout }

    /** `isServerError()`. */
    predicate IsServerError() { code == ServerError }

    /** `isAuthError()`. */
    predicate IsAuthError() { code == Unauthorized || code == Forbidden }

    /** `isValidationError()`. */
    predicate IsValidationError() { code == ValidationError }

    /** `isRetryable()`: transport failures, and server errors reported as 503 or 504. */
    predicate IsRetryable()
    {
      code == NetworkError || code == Timeout
      || (code == ServerError && (statusCode == Some(503) || statusCode == Some(504)))
    }
  }

  /** The constructor's third argument. */
  datatype ErrorOptions = ErrorOptions(statusCode: Option<int>, data: JsValue.Value, originalError: Option<Cause>)

  /**
   * `new AppError(message, code?, options?)`: the code defaults to `Unknown`,
   * and each optional field is copied from `options` (absent when `options` is).
   */
  function NewAppError(message: string, code: Option<ErrorCode>, options: Option<ErrorOptions>): (e: AppError)
    ensures e.message == message
    ensures code.None? ==> e.code == Unknown
    ensures code.Some? ==> e.code == code.value
    ensures options.None? ==> e.statusCode.None? && e.data == JsValue.Undefined && e.originalError.None?
    ensures options.Some? ==> e.statusCode == options.value.statusCode && e.data == options.value.data
                              && e.originalError == options.value.originalError
  {
    match options
    case None => AppError(message, code.GetOr(Unknown), None, JsValue.Undefined, None)
    case Some(o) => AppError(message, code.GetOr(Unknown), o.statusCode, o.data, o.originalError)
  }

  /** What `toJSON()` returns. */
  datatype ErrorJson = ErrorJson(
    name: string,
    message: string,
    code: ErrorCode,
    statusCode: Option<int>,
    data: JsValue.Value)

  /** `toJSON()`: every field but the original error, under the fixed name. */
  function ToJson(e: AppError): (j: ErrorJson)
    ensures j.name == AppErrorName
  {
    ErrorJson(AppErrorName, e.message, e.code, e.statusCode, e.data)
  }

  /** `AppError.fromJSON(json)`: a fresh error from the record; the record's `name` is not read. */
  function FromJson(j: ErrorJson): (e: AppError)
    ensures e.originalError.None?
  {
    NewAppError(j.message, Some(j.code), Some(ErrorOptions(j.statusCode, j.data, None)))
  }

  /** Serialising and reading back keeps message, code, status and payload and drops only the cause. */
  lemma JsonRoundTrip(e: AppError)
    ensures FromJson(ToJson(e)) == e.(originalError := None)
  {
  }

  /** Reading a record and serialising it again gives the record back, with its name normalised. */
  lemma JsonRoundTripBack(j: ErrorJson)
    ensures ToJson(FromJson(j)) == j.(name := AppErrorName)
  {
  }

  /** Each category predicate holds for exactly its codes; retryability also looks at the status. */
  lemma CategoryCodes(e: AppError)
    ensures e.IsNetworkError() <==> e.code in {NetworkError, Timeout}
    ensures e.IsServerError() <==> e.code == ServerError
    ensures e.IsAuthError() <==> e.code in {Unauthorized, Forbidden}
    ensures !e.(code := TokenExpired).IsAuthError()
    ensures e.IsValidationError() <==> e.code == ValidationError
    ensures e.IsRetryable() <==> e.code in {NetworkError, Timeout}
                                 || (e.code == ServerError && e.statusCode in {Some(503), Some(504)})
  {
  }

  /** Retryable errors are network or server errors; a server error is retryable exactly for 503 and 504. */
  lemma RetryableClassified(e: AppError)
    ensures e.IsRetryable() ==> e.IsNetworkError() || e.IsServerError()
    ensures e.IsNetworkError() ==> e.IsRetryable()
    ensures e.IsServerError() ==> (e.IsRetryable() <==> e.statusCode in {Some(503), Some(504)})
  {
  }

  /** The four categories are pairwise disjoint, and `TokenExpired`, `NotFound`, `Conflict` and `Unknown` belong to none. */
  lemma CategoriesDisjoint(e: AppError)
    ensures !(e.IsNetworkError() && e.IsServerError())
    ensures !(e.IsNetworkError() && e.IsAuthError())
    ensures !(e.IsNetworkError() && e.IsValidationError())
    ensures !(e.IsServerError() && e.IsAuthError())
    ensures !(e.IsServerError() && e.IsValidationError())
    ensures !(e.IsAuthError() && e.IsValidationError())
    ensures e.code in {TokenExpired, NotFound, Conflict, Unknown} ==>
              !e.IsNetworkError() && !e.IsServerError() && !e.IsAuthError()
              && !e.IsValidationError() && !e.IsRetryable()
  {
  }

  /** A value something may throw: an `AppError`, an HTTP client failure, any other `Error`, or a non-Error value. */
  datatype Thrown =
    | ThrownAppError(appError: AppError)
    | ThrownAxios(failure: Transport.AxiosFailure)
    | ThrownError(message: string)
    | ThrownValue(value: JsValue.Value)

  /** `isAppError(x)`: `x instanceof AppError`. */
  predicate IsAppError(t: Thrown)
  {
    t.ThrownAppError?
  }

  /** Only a thrown `AppError` is recognised as one; client failures, other errors and plain values are not. */
  lemma IsAppErrorKinds(e: AppError, f: Transport.AxiosFailure, m: string, v: JsValue.Value)
    ensures IsAppError(ThrownAppError(e))
    ensures !IsAppError(ThrownAxios(f)) && !IsAppError(ThrownError(m)) && !IsAppError(ThrownValue(v))
  {
  }
}
