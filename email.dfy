/**
 * sendEmail: the configuration guard, the transport's `secure` rule, the
 * subject line and the escaped field values, around one abstract send call.
 */
module Email {
  import opened Results
  import opened JsValues
  import opened HtmlEscape
  import opened Validation
  import opened Http

  const HostVar: string := "SMTP_HOST"
  const PortVar: string := "SMTP_PORT"
  const UserVar: string := "SMTP_USER"
  const PassVar: string := "SMTP_PASS"
  const FromVar: string := "EMAIL_FROM"
  const ToVar: string := "EMAIL_TO"

  const ConfigMessage: string := "Faltan variables de entorno SMTP/Email"

  /** The port on which the connection is encrypted from the start. */
  const ImplicitTlsPort: int := 465

  /** All six SMTP variables are truthy. */
  predicate Configured(env: Env) {
    EnvSet(env, HostVar) && EnvSet(env, PortVar) && EnvSet(env, UserVar) &&
    EnvSet(env, PassVar) && EnvSet(env, FromVar) && EnvSet(env, ToVar)
  }

  /** `Nuevo lead (${data.servicio}) – ${data.nombre}` (the dash is U+2013); None when a conversion throws. */
  function Subject(data: Json): Option<string>
    requires !data.Null?
  {
    match (TemplateString(Property(data, "servicio")), TemplateString(Property(data, "nombre")))
    case (Some(a), Some(b)) => Some("Nuevo lead (" + a + ") \U{2013} " + b)
    case _ => None
  }

  /** The eight names listed in the message body, in the order listed. */
  const ListedFields: seq<string> := RequiredFields + ["origen"]

  /** The value passed to escapeHtml for listed field `i`; for `origen` it is `data.origen || ''`. */
  function ShownValue(data: Json, i: nat): Option<Json>
    requires !data.Null? && i < |ListedFields|
  {
    if i == 7 then Some(OrElse(Property(data, "origen"), Str(""))) else Property(data, ListedFields[i])
  }

  /** The escaped values of the HTML body, in listed order; None when escaping one of them throws. */
  function HtmlFields(data: Json): Option<seq<string>>
    requires !data.Null?
  {
    if forall i :: 0 <= i < |ListedFields| ==> EscapeHtml(ShownValue(data, i)).Some? then
      Some(seq(|ListedFields|, i requires 0 <= i < |ListedFields| => EscapeHtml(ShownValue(data, i)).value))
    else None
  }

  /** The body can be built exactly when no listed value is an object whose conversion to text throws. */
  lemma HtmlFieldsFail(data: Json)
    requires !data.Null?
    ensures HtmlFields(data).None? <==>
      exists i :: 0 <= i < |ListedFields| && ShownValue(data, i).Some? && Unprintable(ShownValue(data, i).value)
  {
    if HtmlFields(data).None? {
      var i :| 0 <= i < |ListedFields| && EscapeHtml(ShownValue(data, i)).None?;
      assert ShownValue(data, i).Some? && Unprintable(ShownValue(data, i).value);
    }
  }

  /** A `detalle` object carrying its own `toString` key makes building the body throw. */
  lemma ToStringFieldThrows(data: Json)
    requires !data.Null? && Property(data, "detalle") == Some(Obj(map["toString" := Num(1)]))
    ensures HtmlFields(data).None?
  {
    assert ShownValue(data, 1) == Property(data, "detalle");
    HtmlFieldsFail(data);
  }

  /** Once the body is built, the subject cannot throw: both of its values were converted already. */
  lemma SubjectOfShownBody(data: Json)
    requires !data.Null? && HtmlFields(data).Some?
    ensures Subject(data).Some?
  {
    assert EscapeHtml(ShownValue(data, 0)).Some?;
    assert EscapeHtml(ShownValue(data, 5)).Some?;
  }

  /**
   * The transport options and the message handed to the SMTP relay.
   * `port` is `Number(SMTP_PORT)`; None stands for a result that is not an integer.
   * The HTML body is represented by the escaped field values and the date line.
   */
  datatype MailRequest = MailRequest(
    host: string,
    port: Option<int>,
    secure: bool,
    user: string,
    pass: string,
    from: string,
    to: string,
    subject: string,
    fields: seq<string>,
    date: string)

  function Request(data: Json, env: Env, date: string, portNumber: string -> Option<int>): (r: MailRequest)
    requires Configured(env) && !data.Null? && HtmlFields(data).Some?
    ensures r.secure <==> r.port == Some(ImplicitTlsPort)
    ensures r.port == portNumber(env[PortVar])
  {
    SubjectOfShownBody(data);
    var port := portNumber(env[PortVar]);
    MailRequest(env[HostVar], port, port == Some(ImplicitTlsPort), env[UserVar], env[PassVar],
                env[FromVar], env[ToVar], Subject(data).value, HtmlFields(data).value, date)
  }

  /** The text of listed field `i` before escaping: `String(v)`, or the default "" for undefined. */
  function ShownText(data: Json, i: nat): string
    requires !data.Null? && HtmlFields(data).Some? && i < |ListedFields|
  {
    assert EscapeHtml(ShownValue(data, i)).Some?;
    var v := ShownValue(data, i);
    if v.None? then "" else ToJsString(v.value).value
  }

  /** Each value in the body is its field's text escaped: no raw `<`, `>`, `"`, and decoding gives the text back. */
  lemma HtmlFieldEscaped(data: Json, i: nat)
    requires !data.Null? && HtmlFields(data).Some? && i < |ListedFields|
    ensures |HtmlFields(data).value| == |ListedFields|
    ensures HtmlFields(data).value[i] == EscapeText(ShownText(data, i))
    ensures Unescape(HtmlFields(data).value[i]) == ShownText(data, i)
    ensures forall c :: c in HtmlFields(data).value[i] ==> c != '<' && c != '>' && c != '"'
  {
    UnescapeEscape(ShownText(data, i));
    EscapeTextNoRaw(ShownText(data, i));
  }

  /** For string values the subject embeds servicio after its opening words and ends with nombre. */
  lemma SubjectNames(data: Json, servicio: string, nombre: string)
    requires !data.Null?
    requires Property(data, "servicio") == Some(Str(servicio)) && Property(data, "nombre") == Some(Str(nombre))
    ensures Subject(data).Some?
    ensures var t := Subject(data).value;
      "Nuevo lead (" + servicio + ") " <= t && |t| >= |nombre| && t[|t| - |nombre|..] == nombre
  {
  }

  /** A worked example: the subject for a lead "Contabilidad" from "Ana Pérez". */
  lemma SubjectExample()
    ensures Subject(Obj(map["servicio" := Str("Contabilidad"), "nombre" := Str("Ana P\U{00E9}rez")]))
         == Some("Nuevo lead (Contabilidad) \U{2013} Ana P\U{00E9}rez")
  {
    var lead := Obj(map["servicio" := Str("Contabilidad"), "nombre" := Str("Ana P\U{00E9}rez")]);
    assert TemplateString(Property(lead, "servicio")) == Some("Contabilidad");
    assert TemplateString(Property(lead, "nombre")) == Some("Ana P\U{00E9}rez");
    assert Subject(lead) == Some("Nuevo lead (" + "Contabilidad" + ") \U{2013} " + "Ana P\U{00E9}rez");
    assert "Nuevo lead (" + "Contabilidad" + ") \U{2013} " + "Ana P\U{00E9}rez"
        == "Nuevo lead (Contabilidad) \U{2013} Ana P\U{00E9}rez";
  }

  /**
   * sendEmail(data). `send` stands for createTransport(...).sendMail(...)
   * and yields the message identifier; `sent` records the calls made to it.
   */
  method SendEmail(data: Json, env: Env, date: string, portNumber: string -> Option<int>,
                   send: MailRequest -> Result<string, Thrown>)
    returns (r: Result<MailResult, Thrown>, ghost sent: seq<MailRequest>)
    ensures !Configured(env) ==> r == Failure(Thrown(Some(ConfigMessage)))
    ensures Configured(env) && data.Null? ==> r == Failure(NullAccess("servicio"))
    ensures Configured(env) && !data.Null? && HtmlFields(data).None? ==> r == Failure(ConversionError)
    ensures Configured(env) && !data.Null? && HtmlFields(data).Some? ==>
      var req := Request(data, env, date, portNumber);
      (r.Success? <==> send(req).Success?) &&
      (r.Success? ==> r.value == MailResult(send(req).value)) &&
      (r.Failure? ==> r.error == send(req).error)
    ensures sent ==
      if Configured(env) && !data.Null? && HtmlFields(data).Some? then [Request(data, env, date, portNumber)] else []
  {
    sent := [];
    if !EnvSet(env, HostVar) || !EnvSet(env, PortVar) || !EnvSet(env, UserVar)
       || !EnvSet(env, PassVar) || !EnvSet(env, FromVar) || !EnvSet(env, ToVar) {
      r := Failure(Thrown(Some(ConfigMessage)));
      return;
    }
    var port := portNumber(env[PortVar]);
    var secure := port == Some(ImplicitTlsPort);
    if data.Null? {
      // reading data.servicio while building the HTML body
      r := Failure(NullAccess("servicio"));
      return;
    }
    var fields := HtmlFields(data);
    if fields.None? {
      // String(v) inside escapeHtml throws while the HTML body is built
      r := Failure(ConversionError);
      return;
    }
    SubjectOfShownBody(data);
    var subject := Subject(data).value;
    var req := MailRequest(env[HostVar], port, secure, env[UserVar], env[PassVar],
                           env[FromVar], env[ToVar], subject, fields.value, date);
    sent := sent + [req];
    var info := send(req);
    match info {
      case Success(id) => r := Success(MailResult(id));
      case Failure(e) => r := Failure(e);
    }
  }
}
