/**
 * Classification of failures into `AppError`s: an HTTP client failure by whether an
 * answer arrived and by its HTTP status (the status codes of section 15 of RFC 9110),
 * anything else by what kind of value was thrown.
 */
module ErrorMapper {
  import opened Options
  import JsValue
  import Text
  import Transport
  import opened AppErrors

  /** No answer arrived because the request timed out: code "ECONNABORTED", or "timeout" in the message. */
  predicate IsTimeoutSignal(f: Transport.AxiosFailure)
  {
    f.code == Some("ECONNABORTED") || Text.Includes(f.message, "timeout")
  }

  /** The timeout sign is the client code "ECONNABORTED" or an occurrence of "timeout" anywhere in the message. */
  lemma TimeoutSignalCases(f: Transport.AxiosFailure)
    ensures IsTimeoutSignal(f) <==>
              f.code == Some("ECONNABORTED") || exists i :: Text.OccursAt(f.message, "timeout", i)
  {
  }

  /** The status switch: 400, 401, 403, 404 and the 5xx statuses 500, 502, 503, 504 are recognised. */
  function CodeForStatus(status: int): (c: ErrorCode)
    ensures c == ValidationError <==> status == 400
    ensures c == Unauthorized <==> status == 401
    ensures c == Forbidden <==> status == 403
    ensures c == NotFound <==> status == 404
    ensures c == ServerError <==> status in {500, 502, 503, 504}
    ensures c == Unknown <==> status !in {400, 401, 403, 404, 500, 502, 503, 504}
  {
    if status == 400 then ValidationError
    else if status == 401 then Unauthorized
    else if status == 403 then Forbidden
    else if status == 404 then NotFound
    else if status == 500 || status == 502 || status == 503 || status == 504 then ServerError
    else Unknown
  }

  /** Client-error codes come only from 4xx statuses and `ServerError` only from 5xx statuses. */
  lemma StatusClasses(status: int)
    ensures CodeForStatus(status) in {ValidationError, Unauthorized, Forbidden, NotFound} ==> 400 <= status <= 499
    ensures CodeForStatus(status) == ServerError ==> 500 <= status <= 599
    ensures CodeForStatus(status) !in {NetworkError, Timeout, TokenExpired, Conflict}
  {
  }

  /** The per-status default message some branches put behind `message || ...`. */
  function StatusFallback(code: ErrorCode): Option<string>
  {
    match code
    case Unauthorized => Some("Unauthorized. Please login.")
    case Forbidden => Some("Access forbidden.")
    case NotFound => Some("Resource not found.")
    case ServerError => Some("Server error. Please try again later.")
    case _ => None
  }

  /** `message || fallback` for the branch of `code`; the 400 and default branches have no fallback. */
  function WithFallback(message: string, code: ErrorCode): (m: string)
    ensures message != "" ==> m == message
    ensures message == "" ==> m == StatusFallback(code).GetOr("")
  {
    match StatusFallback(code)
    case None => message
    case Some(fb) => if message != "" then message else fb
  }

  /**
   * The message of an error that came with a response: the body's `message` when it is
   * a non-empty string, else the client's message when non-empty, else "An error occurred".
   */
  function ResponseMessage(data: JsValue.Value, clientMessage: string): (m: string)
    ensures m != ""
    ensures JsValue.Get(data, "message").Str? && JsValue.Get(data, "message").s != "" ==>
              m == JsValue.Get(data, "message").s
    ensures !(JsValue.Get(data, "message").Str? && JsValue.Get(data, "message").s != "") ==>
              m == (if clientMessage != "" then clientMessage else "An error occurred")
  {
    match JsValue.Get(data, "message")
    case Str(s) => if s != "" then s else if clientMessage != "" then clientMessage else "An error occurred"
    case _ => if clientMessage != "" then clientMessage else "An error occurred"
  }

  /** The per-status fallbacks never apply: the chosen message is already non-empty. */
  lemma FallbacksUnreachable(data: JsValue.Value, clientMessage: string, code: ErrorCode)
    ensures WithFallback(ResponseMessage(data, clientMessage), code) == ResponseMessage(data, clientMessage)
  {
  }

  /**
   * The message selection as the source writes it: `data?.message || error.message ||
   * 'An error occurred'` on untyped values, then the branch's `|| fallback`, then the
   * `Error` constructor's string conversion of whatever value was chosen.
   */
  function ResponseMessageAsWritten(data: JsValue.Value, clientMessage: string, code: ErrorCode): (m: string)
    ensures !JsValue.Truthy(JsValue.Get(data, "message")) || JsValue.Get(data, "message").Str? ==>
              m == WithFallback(ResponseMessage(data, clientMessage), code)
    ensures JsValue.Truthy(JsValue.Get(data, "message")) && !JsValue.Get(data, "message").Str? ==>
              m == JsValue.Text(JsValue.Get(data, "message"))
  {
    var raw := JsValue.Or(JsValue.Or(JsValue.Get(data, "message"), JsValue.Str(clientMessage)),
                          JsValue.Str("An error occurred"));
    var chosen := match StatusFallback(code)
                  case None => raw
                  case Some(fb) => JsValue.Or(raw, JsValue.Str(fb));
    JsValue.Text(chosen)
  }

  /** A body whose `message` is an empty array yields an `AppError` with an empty message. */
  lemma BlankMessageFromArrayBody()
    ensures ResponseMessageAsWritten(JsValue.Obj(map["message" := JsValue.Arr([])]),
                                     "Request failed with status code 400", ValidationError) == ""
    ensures ResponseMessage(JsValue.Obj(map["message" := JsValue.Arr([])]),
                            "Request failed with status code 400") == "Request failed with status code 400"
  {
    var data := JsValue.Obj(map["message" := JsValue.Arr([])]);
    assert JsValue.Get(data, "message") == JsValue.Arr([]);
    JsValue.EmptyArrayTruthyButBlank();
  }

  /** `mapAxiosError(error)`. */
  function MapAxiosError(f: Transport.AxiosFailure): (r: AppError)
    ensures r.originalError == Some(AxiosCause(f))
    ensures r.message != ""
    ensures f.response.None? ==> r.statusCode.None? && r.data == JsValue.Undefined
    ensures f.response.None? ==> r.message == (if IsTimeoutSignal(f) then "Request timeout. Please try again."
                                               else "Network error. Please check your connection.")
    ensures f.response.None? ==> (r.code == Timeout <==> IsTimeoutSignal(f))
    ensures f.response.None? ==> (r.code == NetworkError <==> !IsTimeoutSignal(f))
    ensures f.response.Some? ==> r.statusCode == Some(f.response.value.status)
                                 && r.data == f.response.value.data
                                 && r.code == CodeForStatus(f.response.value.status)
                                 && r.message == ResponseMessage(f.response.value.data, f.message)
  {
    match f.response
    case None =>
      var options := Some(ErrorOptions(None, JsValue.Undefined, Some(AxiosCause(f))));
      if IsTimeoutSignal(f) then NewAppError("Request timeout. Please try again.", Some(Timeout), options)
      else NewAppError("Network error. Please check your connection.", Some(NetworkError), options)
    case Some(Response(status, data)) =>
      var message := ResponseMessage(data, f.message);
      var code := CodeForStatus(status);
      NewAppError(WithFallback(message, code), Some(code),
                  Some(ErrorOptions(Some(status), data, Some(AxiosCause(f)))))
  }

  /** The classifier never produces `TokenExpired` or `Conflict`. */
  lemma ClassifierRange(f: Transport.AxiosFailure)
    ensures MapAxiosError(f).code in {Timeout, NetworkError, ValidationError, Unauthorized,
                                      Forbidden, NotFound, ServerError, Unknown}
  {
  }

  /** A classified client failure is retryable exactly when no answer arrived or the status was 503 or 504. */
  lemma MappedRetryable(f: Transport.AxiosFailure)
    ensures MapAxiosError(f).IsRetryable() <==>
              f.response.None? || f.response.value.status in {503, 504}
  {
  }

  /** A classified client failure is a network error exactly when no answer arrived. */
  lemma MappedNetworkError(f: Transport.AxiosFailure)
    ensures MapAxiosError(f).IsNetworkError() <==> f.response.None?
  {
  }

  /** A missing answer with "timeout" in the message is a timeout, without status. */
  lemma TimeoutMessageExample()
    ensures MapAxiosError(Transport.AxiosFailure(None, "timeout of 5000ms exceeded", None)).code == Timeout
    ensures MapAxiosError(Transport.AxiosFailure(None, "timeout of 5000ms exceeded", None)).statusCode == None
  {
    assert Text.OccursAt("timeout of 5000ms exceeded", "timeout", 0);
  }

  /** A missing answer with neither timeout sign is a network error. */
  lemma NetworkErrorExample()
    ensures MapAxiosError(Transport.AxiosFailure(Some("ERR_NETWORK"), "Network Error", None)).code == NetworkError
  {
    var m := "Network Error";
    assert forall k :: 0 <= k < |m| ==> m[k] != 'i';
    forall i | 0 <= i && i + 7 <= |m| ensures !Text.OccursAt(m, "timeout", i) {
      assert m[i..i + 7][1] == m[i + 1] != "timeout"[1];
    }
  }

  /** Status 404 gives `NotFound` with that status; the unrecognised 418 gives `Unknown`. */
  lemma StatusExamples(d: JsValue.Value)
    ensures MapAxiosError(Transport.AxiosFailure(None, "", Some(Transport.Response(404, d)))).code == NotFound
    ensures MapAxiosError(Transport.AxiosFailure(None, "", Some(Transport.Response(404, d)))).statusCode == Some(404)
    ensures MapAxiosError(Transport.AxiosFailure(None, "", Some(Transport.Response(418, d)))).code == Unknown
    ensures MapAxiosError(Transport.AxiosFailure(None, "", Some(Transport.Response(409, d)))).code == Unknown
  {
  }

  /** `mapError(error)`: dispatch on what was thrown. */
  function MapError(t: Thrown): (r: AppError)
    ensures t.ThrownAppError? ==> r == t.appError
    ensures t.ThrownAxios? ==> r == MapAxiosError(t.failure)
    ensures t.ThrownError? ==> r.code == Unknown && r.message == t.message
                               && r.originalError == Some(PlainCause(t.message))
                               && r.statusCode.None? && r.data == JsValue.Undefined
    ensures t.ThrownValue? ==> r.code == Unknown && r.message == "An unexpected error occurred"
                               && r.data == t.value && r.statusCode.None? && r.originalError.None?
  {
    match t
    case ThrownAppError(e) => e
    case ThrownAxios(f) => MapAxiosError(f)
    case ThrownError(m) => NewAppError(m, Some(Unknown), Some(ErrorOptions(None, JsValue.Undefined, Some(PlainCause(m)))))
    case ThrownValue(v) => NewAppError("An unexpected error occurred", Some(Unknown), Some(ErrorOptions(None, v, None)))
  }

  /** Mapping a mapped error again changes nothing. */
  lemma MapErrorIdempotent(t: Thrown)
    ensures MapError(ThrownAppError(MapError(t))) == MapError(t)
  {
  }
}
