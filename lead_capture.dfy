/**
 * The request handler: preflight and method dispatch, body parsing and
 * validation, then the spreadsheet append followed by the notification,
 * with every thrown error turned into a 500 answer.
 */
module LeadCapture {
  import opened Results
  import opened JsValues
  import opened Validation
  import opened Http
  import Sheets
  import Email

  /** The parts of the platform's event the handler reads. */
  datatype Event = Event(httpMethod: string, body: Option<string>)

  /** The two clock readings: the ISO timestamp of the row and the locale date of the message. */
  datatype Clock = Clock(iso: string, locale: string)

  /** One call into a downstream service. */
  datatype Call =
    | SheetsAppend(append: Sheets.AppendRequest)
    | MailSend(mail: Email.MailRequest)

  const MethodNotAllowed: string := "Method Not Allowed"

  /** `event.body || '{}'`: an absent or empty body is read as an empty object. */
  function BodyText(body: Option<string>): (r: string)
    ensures body.None? || body.value == "" ==> r == "{}"
    ensures body.Some? && body.value != "" ==> r == body.value
  {
    match body
    case None => "{}"
    case Some(s) => if s == "" then "{}" else s
  }

  /** The parsed body passes validation: an object-like value with every required field truthy. */
  predicate Accepted(v: Json) {
    !v.Null? && Missing(RequiredFields, v) == []
  }

  /**
   * exports.handler. `parse` stands for JSON.parse, `append` for the
   * spreadsheet call, `portNumber` for Number, `send` for the SMTP relay;
   * `calls` records, in order, every downstream call made.
   */
  method Handle(event: Event, env: Env, clock: Clock,
                parse: string -> Result<Json, Thrown>,
                append: Sheets.AppendRequest -> Outcome<Thrown>,
                portNumber: string -> Option<int>,
                send: Email.MailRequest -> Result<string, Thrown>)
    returns (resp: Response, ghost calls: seq<Call>)
    // dispatch
    ensures event.httpMethod == "OPTIONS" ==> resp == Preflight() && calls == []
    ensures event.httpMethod != "OPTIONS" && event.httpMethod != "POST" ==>
      resp == JsonResponse(405, ErrorPayload(MethodNotAllowed)) && calls == []
    // parsing and validation run before any downstream call
    ensures event.httpMethod == "POST" ==>
      match parse(BodyText(event.body))
      case Failure(e) => resp == InternalError(e) && calls == []
      case Success(v) =>
        (v.Null? ==> resp == InternalError(NullAccess("servicio")) && calls == []) &&
        (!v.Null? && Missing(RequiredFields, v) != [] ==>
          resp == JsonResponse(400, ErrorPayload(MissingMessage(Missing(RequiredFields, v)))) && calls == [])
    // the sink, then the notifier
    ensures event.httpMethod == "POST" && parse(BodyText(event.body)).Success? && Accepted(parse(BodyText(event.body)).value) ==>
      var v := parse(BodyText(event.body)).value;
      if !Sheets.Configured(env) then
        resp == InternalError(Thrown(Some(Sheets.ConfigMessage))) && calls == []
      else
        var sheetReq := Sheets.Request(v, env, clock.iso);
        |calls| >= 1 && calls[0] == SheetsAppend(sheetReq) &&
        if append(sheetReq).Fail? then
          resp == InternalError(append(sheetReq).error) && calls == [SheetsAppend(sheetReq)]
        else if !Email.Configured(env) then
          resp == InternalError(Thrown(Some(Email.ConfigMessage))) && calls == [SheetsAppend(sheetReq)]
        else if Email.HtmlFields(v).None? then
          resp == InternalError(ConversionError) && calls == [SheetsAppend(sheetReq)]
        else
          var mailReq := Email.Request(v, env, clock.locale, portNumber);
          calls == [SheetsAppend(sheetReq), MailSend(mailReq)] &&
          match send(mailReq)
          case Success(id) =>
            resp == JsonResponse(200, OkPayload(true, SheetResult(true, Sheets.SheetRange(env)), MailResult(id)))
          case Failure(e) => resp == InternalError(e)
    // the overall shape of a run
    ensures |calls| <= 2
    ensures forall i :: 0 <= i < |calls| && calls[i].MailSend? ==>
      i == 1 && calls[0].SheetsAppend? && append(calls[0].append).Pass?
    ensures forall i :: 0 <= i < |calls| && calls[i].SheetsAppend? ==> i == 0
    ensures resp.statusCode == 200 <==> |calls| == 2 && send(calls[1].mail).Success?
    ensures resp.statusCode != 204 ==> resp.headers == JsonHeaders && resp.body.Some?
    ensures resp.statusCode in {200, 204, 400, 405, 500}
    ensures resp.statusCode == 405 <==> event.httpMethod != "OPTIONS" && event.httpMethod != "POST"
    ensures resp.statusCode == 400 <==>
      event.httpMethod == "POST" && parse(BodyText(event.body)).Success? &&
      !parse(BodyText(event.body)).value.Null? && Missing(RequiredFields, parse(BodyText(event.body)).value) != []
    ensures resp.statusCode == 500 ==> resp.body.Some? && resp.body.value.ErrorPayload? && resp.body.value.error != ""
  {
    calls := [];
    if event.httpMethod == "OPTIONS" {
      resp := Preflight();
      return;
    }
    if event.httpMethod != "POST" {
      resp := JsonResponse(405, ErrorPayload(MethodNotAllowed));
      return;
    }
    var parsed := parse(BodyText(event.body));
    if parsed.Failure? {
      resp := InternalError(parsed.error);
      return;
    }
    var body := parsed.value;
    if body.Null? {
      // the first `body[k]` of the filter throws
      resp := InternalError(NullAccess(RequiredFields[0]));
      return;
    }
    var missing := Missing(RequiredFields, body);
    if |missing| > 0 {
      resp := JsonResponse(400, ErrorPayload(MissingMessage(missing)));
      return;
    }
    var sheetResult, sheetCalls := Sheets.AppendToSheet(body, env, clock.iso, append);
    calls := calls + seq(|sheetCalls|, i requires 0 <= i < |sheetCalls| => SheetsAppend(sheetCalls[i]));
    if sheetResult.Failure? {
      resp := InternalError(sheetResult.error);
      return;
    }
    var emailResult, mailCalls := Email.SendEmail(body, env, clock.locale, portNumber, send);
    calls := calls + seq(|mailCalls|, i requires 0 <= i < |mailCalls| => MailSend(mailCalls[i]));
    if emailResult.Failure? {
      resp := InternalError(emailResult.error);
      return;
    }
    resp := JsonResponse(200, OkPayload(true, sheetResult.value, emailResult.value));
  }
}
