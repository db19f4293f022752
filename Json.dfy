/** A parsed JSON value as the route handlers and the response parser see
    it, with the JavaScript operations they apply to it: truthiness, property
    access (a missing property is `undefined`) and `String(...)`. Parsing
    text into this value is outside the model. Numbers are integers. */
module Json {
  import opened Common

  datatype Json =
    | JNull
    | JBool(b: bool)
    | JNum(n: int)
    | JStr(s: string)
    | JArr(items: seq<Json>)
    | JObj(fields: map<string, Json>)

  /** JavaScript truthiness; a missing value (`undefined`) is `None`. */
  predicate Truthy(v: Option<Json>) {
    match v
    case None => false
    case Some(JNull) => false
    case Some(JBool(b)) => b
    case Some(JNum(n)) => n != 0
    case Some(JStr(s)) => s != ""
    case Some(_) => true
  }

  /** `value.key`: only objects have properties. */
  function Get(v: Json, key: string): (r: Option<Json>)
    ensures r.Some? ==> v.JObj? && key in v.fields
  {
    if v.JObj? && key in v.fields then Some(v.fields[key]) else None
  }

  /** `String(value)`. */
  function ToStr(v: Json): string
    decreases v
  {
    match v
    case JNull => "null"
    case JBool(b) => if b then "true" else "false"
    case JNum(n) => IntToString(n)
    case JStr(s) => s
    case JArr(items) => JoinItems(items)
    case JObj(_) => "[object Object]"
  }

  /** `String(array)`: the elements joined by commas, `null` as empty. */
  function JoinItems(items: seq<Json>): string
    decreases items
  {
    if items == [] then ""
    else
      var head := if items[0].JNull? then "" else ToStr(items[0]);
      if |items| == 1 then head else head + "," + JoinItems(items[1..])
  }

  /** `String(value)` of a possibly missing value. */
  function ToStrOpt(v: Option<Json>): string {
    if v.Some? then ToStr(v.value) else "undefined"
  }

  /** `typeof v === 'number'`. */
  predicate IsNum(v: Option<Json>) {
    v.Some? && v.value.JNum?
  }

  /** The number, or `default` when the value is not a number. */
  function NumOr(v: Option<Json>, default: int): (r: int)
    ensures IsNum(v) ==> r == v.value.n
    ensures !IsNum(v) ==> r == default
  {
    if IsNum(v) then v.value.n else default
  }

  /** The string elements of an array, in order (`a.filter(x => typeof x === 'string')`). */
  function Strings(items: seq<Json>): (r: seq<string>)
    ensures |r| <= |items|
    ensures forall x :: x in r <==> JStr(x) in items
  {
    if items == [] then []
    else
      var rest := Strings(items[1..]);
      assert forall j :: j in items <==> j == items[0] || j in items[1..] by {
        assert items == [items[0]] + items[1..];
      }
      if items[0].JStr? then [items[0].s] + rest else rest
  }

  /** `Array.isArray(v) ? v.filter(isString) : []`. */
  function StringArray(v: Option<Json>): (r: seq<string>)
    ensures v.Some? && v.value.JArr? ==> r == Strings(v.value.items)
    ensures !(v.Some? && v.value.JArr?) ==> r == []
  {
    if v.Some? && v.value.JArr? then Strings(v.value.items) else []
  }
}
