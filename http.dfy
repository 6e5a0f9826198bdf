/** The response shapes the handler returns, all built by `json(code, obj)` except the preflight. */
module Http {
  import opened Results
  import opened JsValues

  /** What appendToSheet returns: `{ appended: true, range }`. */
  datatype SheetResult = SheetResult(appended: bool, range: string)

  /** What sendEmail returns: `{ messageId }`. */
  datatype MailResult = MailResult(messageId: string)

  /** The object serialised into a response body. */
  datatype Payload =
    | ErrorPayload(error: string)
    | OkPayload(ok: bool, sheet: SheetResult, email: MailResult)

  /** An HTTP response; `body` is absent for the preflight answer. */
  datatype Response = Response(statusCode: int, headers: map<string, string>, body: Option<Payload>)

  const JsonHeaders: map<string, string> :=
    map["Content-Type" := "application/json", "Access-Control-Allow-Origin" := "*"]

  const PreflightHeaders: map<string, string> :=
    map["Access-Control-Allow-Origin" := "*",
        "Access-Control-Allow-Headers" := "Content-Type",
        "Access-Control-Allow-Methods" := "POST, OPTIONS"]

  /** `json(code, obj)`: the given status and object, as JSON, readable from any origin. */
  function JsonResponse(code: int, obj: Payload): (r: Response)
    ensures r.statusCode == code && r.body == Some(obj)
    ensures r.headers.Keys == {"Content-Type", "Access-Control-Allow-Origin"}
    ensures r.headers["Content-Type"] == "application/json"
    ensures r.headers["Access-Control-Allow-Origin"] == "*"
  {
    Response(code, JsonHeaders, Some(obj))
  }

  /** The answer to a CORS preflight: 204, three CORS headers, no body. */
  function Preflight(): (r: Response)
    ensures r.statusCode == 204 && r.body.None?
    ensures r.headers.Keys == {"Access-Control-Allow-Origin", "Access-Control-Allow-Headers", "Access-Control-Allow-Methods"}
    ensures r.headers["Access-Control-Allow-Origin"] == "*"
    ensures r.headers["Access-Control-Allow-Headers"] == "Content-Type"
    ensures r.headers["Access-Control-Allow-Methods"] == "POST, OPTIONS"
  {
    Response(204, PreflightHeaders, None)
  }

  const InternalErrorText: string := "Error interno"

  /** `err.message || 'Error interno'`: never empty, and the error's own message whenever it has one. */
  function ErrorText(err: Thrown): (r: string)
    ensures r != ""
    ensures err.message.Some? && err.message.value != "" ==> r == err.message.value
    ensures err.message.None? || err.message.value == "" ==> r == InternalErrorText
  {
    match err.message
    case Some(m) => if m != "" then m else InternalErrorText
    case None => InternalErrorText
  }

  /** The 500 answer for a thrown error. */
  function InternalError(err: Thrown): Response {
    JsonResponse(500, ErrorPayload(ErrorText(err)))
  }
}
