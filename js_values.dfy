/**
 * The JavaScript values the handler inspects: the parsed JSON request body,
 * loose truthiness, property access, string conversion, and thrown errors.
 */
module JsValues {
  import opened Results

  /** A value produced by JSON.parse. Only integral numbers are modelled. */
  datatype Json =
    | Null
    | Bool(b: bool)
    | Num(n: int)
    | Str(s: string)
    | Arr(items: seq<Json>)
    | Obj(fields: map<string, Json>)

  /** Loose truthiness of a possibly-undefined value (`!v` is the negation). */
  predicate Truthy(v: Option<Json>) {
    match v
    case None => false
    case Some(j) =>
      match j
      case Null => false
      case Bool(b) => b
      case Num(n) => n != 0
      case Str(s) => s != ""
      case Arr(_) => true
      case Obj(_) => true
  }

  /**
   * `v[k]` for a value that is not null: an own field of an object, and
   * undefined for every other kind of value (none of the names read by the
   * handler is a property of a string, number, boolean or array).
   */
  function Property(v: Json, k: string): (r: Option<Json>)
    requires !v.Null?
    ensures r.Some? ==> v.Obj? && k in v.fields && r.value == v.fields[k]
    ensures v.Obj? && k in v.fields ==> r.Some?
  {
    if v.Obj? && k in v.fields then Some(v.fields[k]) else None
  }

  /** `v || fallback` */
  function OrElse(v: Option<Json>, fallback: Json): Json {
    if Truthy(v) then v.value else fallback
  }

  /** Decimal digits of a natural number, as Number.prototype.toString writes them below 1e21. */
  function NatToDecimal(n: nat): (r: string)
    decreases n
  {
    if n < 10 then [DigitChar(n)] else NatToDecimal(n / 10) + [DigitChar(n % 10)]
  }

  function DigitChar(d: nat): char
    requires d < 10
  {
    "0123456789"[d]
  }

  predicate IsDigit(c: char) {
    '0' <= c <= '9'
  }

  /** The number a string of decimal digits denotes, read left to right. */
  function DecimalValue(s: string): nat
    requires forall i :: 0 <= i < |s| ==> IsDigit(s[i])
  {
    if s == [] then 0
    else
      assert IsDigit(s[|s| - 1]);
      DecimalValue(s[..|s| - 1]) * 10 + (s[|s| - 1] as int - '0' as int)
  }

  /** The decimal text is non-empty, made of digits only, and denotes `n`. */
  lemma {:induction false} NatToDecimalValue(n: nat)
    ensures var r := NatToDecimal(n);
      r != [] && (forall i :: 0 <= i < |r| ==> IsDigit(r[i])) && DecimalValue(r) == n
    decreases n
  {
    var r := NatToDecimal(n);
    if n >= 10 {
      NatToDecimalValue(n / 10);
      var t := NatToDecimal(n / 10);
      assert r == t + [DigitChar(n % 10)];
      assert r[..|r| - 1] == t;
    }
  }

  function IntToDecimal(n: int): string {
    if n < 0 then "-" + NatToDecimal(-n) else NatToDecimal(n)
  }

  /**
   * `String(v)` throws for this value: an object with an own `toString`
   * field (a JSON value is never callable, so neither `toString` nor the
   * inherited `valueOf` yields a primitive), directly or as an array element.
   */
  predicate Unprintable(v: Json)
    decreases v
  {
    match v
    case Obj(fields) => "toString" in fields
    case Arr(items) => exists i :: 0 <= i < |items| && Unprintable(items[i])
    case _ => false
  }

  /** `String(v)` for a JSON value; None when the conversion throws. */
  function ToJsString(v: Json): (r: Option<string>)
    ensures r.None? <==> Unprintable(v)
    ensures v.Str? ==> r == Some(v.s)
    decreases v, 1
  {
    match v
    case Null => Some("null")
    case Bool(b) => Some(if b then "true" else "false")
    case Num(n) => Some(IntToDecimal(n))
    case Str(s) => Some(s)
    case Arr(items) => JoinElements(v, items)
    case Obj(fields) => if "toString" in fields then None else Some("[object Object]")
  }

  /** Array.prototype.join(",") over the elements of `parent`: null becomes "". */
  function JoinElements(parent: Json, items: seq<Json>): (r: Option<string>)
    requires forall x :: x in items ==> x < parent
    ensures r.None? <==> exists i :: 0 <= i < |items| && Unprintable(items[i])
    decreases parent, 0, |items|
  {
    if items == [] then Some("")
    else
      assert items[0] in items;
      assert forall x :: x in items[1..] ==> x in items;
      var first := if items[0].Null? then Some("") else ToJsString(items[0]);
      if first.None? then None
      else if |items| == 1 then first
      else
        var rest := JoinElements(parent, items[1..]);
        assert forall i :: 0 < i < |items| ==> items[i] == items[1..][i - 1];
        if rest.None? then None else Some(first.value + "," + rest.value)
  }

  /** The text a template literal `${v}` inserts for a possibly-undefined value; None when it throws. */
  function TemplateString(v: Option<Json>): Option<string> {
    match v
    case None => Some("undefined")
    case Some(j) => ToJsString(j)
  }

  /** The TypeError raised by `String(v)` for an unprintable value. */
  const ConversionError: Thrown := Thrown(Some("Cannot convert object to primitive value"))

  /** A thrown value; `message` is the `message` property, absent when it has none. */
  datatype Thrown = Thrown(message: Option<string>)

  /** The TypeError raised by reading property `k` of null. */
  function NullAccess(k: string): Thrown {
    Thrown(Some("Cannot read properties of null (reading '" + k + "')"))
  }

  /** process.env: every variable that is set has a string value. */
  type Env = map<string, string>

  /** `process.env[name]` is truthy: set and non-empty. */
  predicate EnvSet(env: Env, name: string) {
    name in env && env[name] != ""
  }
}
