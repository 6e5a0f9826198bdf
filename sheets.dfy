/**
 * appendToSheet: the configuration guard, the private-key rewrite, the
 * nine-column row and its target range, around one abstract append call.
 */
module Sheets {
  import opened Results
  import opened JsValues
  import opened PrivateKey
  import opened Validation
  import opened Http

  const AccountEmailVar: string := "GOOGLE_SERVICE_ACCOUNT_EMAIL"
  const PrivateKeyVar: string := "GOOGLE_PRIVATE_KEY"
  const SheetIdVar: string := "SHEET_ID"
  const SheetTabVar: string := "SHEET_TAB"

  const ConfigMessage: string := "Faltan variables de entorno de Google Sheets"
  const Scope: string := "https://www.googleapis.com/auth/spreadsheets"
  const DefaultTab: string := "Leads"
  const Columns: string := "!A:I"
  const ValueInputOption: string := "USER_ENTERED"

  /** All three Sheets variables are truthy. */
  predicate Configured(env: Env) {
    EnvSet(env, AccountEmailVar) && EnvSet(env, PrivateKeyVar) && EnvSet(env, SheetIdVar)
  }

  /** `${process.env.SHEET_TAB || 'Leads'}!A:I` */
  function SheetRange(env: Env): string {
    (if EnvSet(env, SheetTabVar) then env[SheetTabVar] else DefaultTab) + Columns
  }

  /** The row written for one lead. Cells are the raw body values (None: undefined). */
  function Row(timestamp: string, data: Json): seq<Option<Json>>
    requires !data.Null?
  {
    [ Some(Str(timestamp)),
      Property(data, "servicio"),
      Property(data, "detalle"),
      Property(data, "tipoCliente"),
      Property(data, "urgencia"),
      Property(data, "ubicacion"),
      Property(data, "nombre"),
      Property(data, "contacto"),
      Some(OrElse(Property(data, "origen"), Str(""))) ]
  }

  /** The request handed to the spreadsheet service: JWT credentials and one append. */
  datatype AppendRequest = AppendRequest(
    clientEmail: string,
    privateKey: string,
    scopes: seq<string>,
    spreadsheetId: string,
    range: string,
    valueInputOption: string,
    values: seq<seq<Option<Json>>>)

  function Request(data: Json, env: Env, timestamp: string): AppendRequest
    requires Configured(env) && !data.Null?
  {
    AppendRequest(
      env[AccountEmailVar],
      NormalizeKey(env[PrivateKeyVar]),
      [Scope],
      env[SheetIdVar],
      SheetRange(env),
      ValueInputOption,
      [Row(timestamp, data)])
  }

  /** The range is the configured tab, or "Leads" when none is set, followed by columns A to I. */
  lemma SheetRangeParts(env: Env)
    ensures var r := SheetRange(env);
      |r| > |Columns| && r[|r| - |Columns|..] == Columns &&
      r[..|r| - |Columns|] == (if EnvSet(env, SheetTabVar) then env[SheetTabVar] else DefaultTab) &&
      (!EnvSet(env, SheetTabVar) ==> r == "Leads!A:I")
  {
  }

  /** Nine cells: the timestamp, the seven required fields in required-list order, then `origen || ''`. */
  lemma RowLayout(timestamp: string, data: Json)
    requires !data.Null?
    ensures var row := Row(timestamp, data);
      |row| == 9 && row[0] == Some(Str(timestamp)) &&
      (forall i :: 1 <= i <= 7 ==> row[i] == Property(data, RequiredFields[i - 1])) &&
      row[8] == (if Truthy(Property(data, "origen")) then Property(data, "origen") else Some(Str("")))
  {
  }

  /** After validation every required cell of the row holds a truthy value. */
  lemma RowOfValidBody(timestamp: string, data: Json)
    requires !data.Null? && Missing(RequiredFields, data) == []
    ensures forall i :: 1 <= i <= 7 ==> Truthy(Row(timestamp, data)[i])
  {
    MissingMembers(RequiredFields, data);
    RowLayout(timestamp, data);
    forall i | 1 <= i <= 7 ensures Truthy(Row(timestamp, data)[i]) {
      assert RequiredFields[i - 1] in RequiredFields;
    }
  }

  /** The key handed to the JWT holds no backslash-`n` pair. */
  lemma RequestKeyNormalized(data: Json, env: Env, timestamp: string)
    requires Configured(env) && !data.Null?
    ensures NoEscapedNewline(Request(data, env, timestamp).privateKey)
    ensures '\\' !in env[PrivateKeyVar] ==> Request(data, env, timestamp).privateKey == env[PrivateKeyVar]
  {
    NormalizeKeyClean(env[PrivateKeyVar]);
    if '\\' !in env[PrivateKeyVar] {
      NormalizeKeyNoBackslash(env[PrivateKeyVar]);
    }
  }

  /**
   * appendToSheet(data). `append` stands for the JWT-authenticated
   * spreadsheets.values.append call; `sent` records the calls made to it.
   */
  method AppendToSheet(data: Json, env: Env, timestamp: string, append: AppendRequest -> Outcome<Thrown>)
    returns (r: Result<SheetResult, Thrown>, ghost sent: seq<AppendRequest>)
    ensures !Configured(env) ==> r == Failure(Thrown(Some(ConfigMessage)))
    ensures Configured(env) && data.Null? ==> r == Failure(NullAccess("servicio"))
    ensures Configured(env) && !data.Null? ==>
      var req := Request(data, env, timestamp);
      (r.Success? <==> append(req).Pass?) &&
      (r.Success? ==> r.value == SheetResult(true, SheetRange(env))) &&
      (r.Failure? ==> r.error == append(req).error)
    ensures sent == if Configured(env) && !data.Null? then [Request(data, env, timestamp)] else []
  {
    sent := [];
    if !EnvSet(env, AccountEmailVar) || !EnvSet(env, PrivateKeyVar) || !EnvSet(env, SheetIdVar) {
      r := Failure(Thrown(Some(ConfigMessage)));
      return;
    }
    var privateKey := NormalizeKey(env[PrivateKeyVar]);
    if data.Null? {
      // reading data.servicio while building the row
      r := Failure(NullAccess("servicio"));
      return;
    }
    var values := [Row(timestamp, data)];
    var range := SheetRange(env);
    var req := AppendRequest(env[AccountEmailVar], privateKey, [Scope], env[SheetIdVar], range, ValueInputOption, values);
    sent := sent + [req];
    var outcome := append(req);
    match outcome {
      case Pass => r := Success(SheetResult(true, range));
      case Fail(e) => r := Failure(e);
    }
  }
}
