/**
 * JavaScript values as the configuration code sees them: what a parsed JSON
 * file or a React state cell can hold, which of them count as true in a
 * condition, property reads that may give `undefined`, and the number
 * conversion behind `value / 100`.
 */
module JsValues {
  import opened Common
  import opened Strings

  /** A JavaScript value. `JNaN` is the number NaN; other numbers are reals. */
  datatype JsValue =
    | JNull
    | JBool(b: bool)
    | JNum(n: real)
    | JNaN
    | JStr(s: string)
    | JArr(items: seq<JsValue>)
    | JObj(fields: map<string, JsValue>)

  /** `!!v`: null, false, 0, NaN and "" are false; objects and arrays are true. */
  predicate IsTruthy(v: JsValue) {
    match v
    case JNull => false
    case JBool(b) => b
    case JNum(n) => n != 0.0
    case JNaN => false
    case JStr(s) => s != ""
    case JArr(_) => true
    case JObj(_) => true
  }

  /** A value that may be `undefined`, which is never true. */
  predicate Present(v: Option<JsValue>) {
    v.Some? && IsTruthy(v.value)
  }

  /** `v[key]` for the keys the configuration code reads: only an object has them. */
  function Prop(v: JsValue, key: string): (r: Option<JsValue>)
    ensures r.Some? <==> v.JObj? && key in v.fields
    ensures r.Some? ==> r.value == v.fields[key]
  {
    if v.JObj? && key in v.fields then Some(v.fields[key]) else None
  }

  /** `obj[key]` on a plain object: `undefined` when the key is missing. */
  function Lookup(m: map<string, JsValue>, key: string): Option<JsValue> {
    if key in m then Some(m[key]) else None
  }

  /** `!!obj[key]`: the key is there and holds a true value. */
  predicate Filled(m: map<string, JsValue>, key: string) {
    key in m && IsTruthy(m[key])
  }

  predicate IsDigit(c: char) { '0' <= c <= '9' }

  /** The value of a non-empty run of decimal digits. */
  function DecimalValue(s: string): (r: nat)
    requires forall k :: 0 <= k < |s| ==> IsDigit(s[k])
    ensures s == [] ==> r == 0
  {
    if s == [] then 0
    else
      assert IsDigit(s[|s| - 1]);
      DecimalValue(s[..|s| - 1]) * 10 + (s[|s| - 1] as int - '0' as int)
  }

  /**
   * `Number(s)` for the strings handled here: blank text is 0, a run of
   * decimal digits (surrounding white space ignored) is its value, and any
   * other text is NaN.
   */
  function StringToNumber(s: string): (r: JsValue)
    ensures r.JNum? || r.JNaN?
    ensures AllWs(s) ==> r == JNum(0.0)
    ensures r.JNum? ==> r.n >= 0.0
  {
    var t := Trim(s);
    if t == [] then JNum(0.0)
    else if forall k :: 0 <= k < |t| ==> IsDigit(t[k]) then JNum(DecimalValue(t) as real)
    else JNaN
  }

  /** `Number(v)`, the conversion behind the arithmetic operators. */
  function ToNumber(v: JsValue): (r: JsValue)
    ensures r.JNum? || r.JNaN?
    ensures v.JNum? ==> r == v
    ensures v.JNull? ==> r == JNum(0.0)
    ensures v.JBool? ==> r == JNum(if v.b then 1.0 else 0.0)
    ensures v.JObj? || v.JNaN? ==> r == JNaN
  {
    match v
    case JNull => JNum(0.0)
    case JBool(b) => JNum(if b then 1.0 else 0.0)
    case JNum(_) => v
    case JNaN => JNaN
    case JStr(s) => StringToNumber(s)
    case JArr(_) => JNaN
    case JObj(_) => JNaN
  }

  /** `value / 100`. */
  function Percent(v: JsValue): (r: JsValue)
    ensures r.JNum? <==> ToNumber(v).JNum?
    ensures r.JNum? ==> r.n * 100.0 == ToNumber(v).n
  {
    match ToNumber(v)
    case JNum(n) => JNum(n / 100.0)
    case _ => JNaN
  }

  /** A percentage between 0 and 100 becomes a fraction between 0 and 1. */
  lemma PercentOfPercentageInUnit(v: JsValue)
    requires v.JNum? && 0.0 <= v.n <= 100.0
    ensures Percent(v).JNum? && 0.0 <= Percent(v).n <= 1.0
  {
  }
}
