/** The shape of a failure reported by the HTTP client (an `AxiosError`), as far as the error layer reads it. */
module Transport {
  import opened Options
  import JsValue

  /** The server's answer: HTTP status and the decoded body. */
  datatype Response = Response(status: int, data: JsValue.Value)

  /**
   * `code` is the client's error code string (for example "ECONNABORTED"),
   * `message` the error's message, and `response` is absent when no answer arrived.
   */
  datatype AxiosFailure = AxiosFailure(code: Option<string>, message: string, response: Option<Response>)
}
