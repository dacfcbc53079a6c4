/**
 * JSON values as request bodies and database JSON columns carry them.
 * Numbers are integers: fractional numbers are outside this model.
 */
module Json {
  import opened Wrappers
  import opened Text

  datatype Json =
    | JNull
    | JBool(b: bool)
    | JNum(n: int)
    | JStr(s: string)
    | JArr(items: seq<Json>)
    | JObj(fields: map<string, Json>)

  /** `Array.isArray(v) ? v : []`. */
  function AsArray(v: Json): (r: seq<Json>)
    ensures v.JArr? ==> r == v.items
    ensures !v.JArr? ==> r == []
  {
    if v.JArr? then v.items else []
  }

  /** Reading a property of an object; a missing one (or a non-object) is undefined. */
  function Get(v: Json, key: string): Option<Json> {
    if v.JObj? && key in v.fields then Some(v.fields[key]) else None
  }

  /** The message of the TypeError V8 throws for a property read on null. */
  function NullReadMessage(key: string): string {
    "Cannot read properties of null (reading '" + key + "')"
  }

  /**
   * The property read `v.key` as JavaScript performs it: a TypeError on
   * null, otherwise the property, undefined when it is missing.
   */
  function Read(v: Json, key: string): (r: Result<Option<Json>, string>)
    ensures r.Failure? <==> v.JNull?
    ensures r.Failure? ==> r.error == NullReadMessage(key)
    ensures r.Success? ==> r.value == Get(v, key)
  {
    if v.JNull? then Failure(NullReadMessage(key)) else Success(Get(v, key))
  }

  /** JavaScript truthiness of a property value; `None` is undefined. */
  predicate IsTruthy(v: Option<Json>) {
    v.Some? &&
    match v.value
    case JNull => false
    case JBool(b) => b
    case JNum(n) => n != 0
    case JStr(s) => s != ""
    case _ => true
  }

  /** A string property read where a truthy string is wanted: None when it is missing, empty or not a string. */
  function TruthyString(v: Json, key: string): (r: Option<string>)
    ensures r.Some? <==> Get(v, key).Some? && Get(v, key).value.JStr? && Get(v, key).value.s != ""
    ensures r.Some? ==> r.value == Get(v, key).value.s && IsTruthy(Get(v, key))
  {
    var f := Get(v, key);
    if f.Some? && f.value.JStr? && f.value.s != "" then Some(f.value.s) else None
  }

  /** `v.key || fallback`: the property when it is truthy, otherwise the fallback. */
  function TruthyOr(v: Json, key: string, fallback: Json): (r: Json)
    ensures IsTruthy(Get(v, key)) ==> r == Get(v, key).value
    ensures !IsTruthy(Get(v, key)) ==> r == fallback
    ensures TruthyString(v, key).Some? ==> r == JStr(TruthyString(v, key).value)
  {
    if IsTruthy(Get(v, key)) then Get(v, key).value else fallback
  }

  /**
   * `String(v)`: JavaScript's string conversion. An array is its elements'
   * strings joined by commas, a null element giving the empty string, as
   * `Array.prototype.join` does; an object is '[object Object]'.
   */
  function ToJsString(v: Json): (r: string)
    decreases v
  {
    match v
    case JNull => "null"
    case JBool(b) => if b then "true" else "false"
    case JNum(n) => if n < 0 then "-" + DecimalString(-n) else DecimalString(n)
    case JStr(s) => s
    case JArr(items) => JoinElements(items)
    case JObj(_) => "[object Object]"
  }

  /** `items.join(",")` over JSON values. */
  function JoinElements(items: seq<Json>): (r: string)
    decreases items
  {
    if items == [] then ""
    else
      var head := if items[0].JNull? then "" else ToJsString(items[0]);
      if |items| == 1 then head else head + "," + JoinElements(items[1..])
  }

  /**
   * A string converts to itself, and a number to its decimal digits, with a
   * minus sign exactly when it is negative.
   */
  lemma ToJsStringScalars(v: Json)
    ensures v.JStr? ==> ToJsString(v) == v.s
    ensures v.JNum? ==> ToJsString(v) != "" && (ToJsString(v)[0] == '-' <==> v.n < 0)
    ensures v.JNum? ==> forall i :: 0 < i < |ToJsString(v)| ==> IsDigit(ToJsString(v)[i])
  {
  }

  /** `String(5)` is '5' and `String(-12)` is '-12'. */
  lemma NumberStrings()
    ensures ToJsString(JNum(5)) == "5"
    ensures ToJsString(JNum(-12)) == "-12"
  {
    assert DecimalString(1) == "1";
    assert DecimalString(12) == DecimalString(1) + "2";
  }

  /** `String(["a", null, 3])` is 'a,,3'. */
  lemma ArrayString()
    ensures ToJsString(JArr([JStr("a"), JNull, JNum(3)])) == "a,,3"
  {
    var items := [JStr("a"), JNull, JNum(3)];
    assert items[1..] == [JNull, JNum(3)];
    assert items[1..][1..] == [JNum(3)];
    assert ToJsString(JNum(3)) == "3";
  }

  /**
   * Only an array can be truthy and still convert to the empty string (such
   * as `[]` or `[""]`): every other truthy value has a non-empty form.
   */
  lemma TruthyEmptyIsArray(v: Json)
    requires IsTruthy(Some(v)) && ToJsString(v) == ""
    ensures v.JArr?
  {
    if v.JNum? {
      ToJsStringScalars(v);
    }
  }
}
