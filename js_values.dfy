/**
  The JavaScript values the portal receives from its HTTP API, and the few
  language rules the pages rely on: truthiness (`||`, `&&`, `!x`), property
  reads and optional chaining, `String(x)` and `Number(x)`.

  A parsed JSON body is a `Json`; a read that can also give `undefined` is an
  `Option<Json>` whose `None` is `undefined`. Numbers are whole numbers.
 */
module JsValues {
  import opened Maybe
  import opened Digits

  datatype Json =
    | JNull
    | JBool(b: bool)
    | JNum(n: int)
    | JStr(s: string)
    | JArr(items: seq<Json>)
    | JObj(fields: map<string, Json>)

  /** What a `fetch` followed by `response.json()` yields: either one of the two
      awaits throws (network failure, unparsable body) with an error message, or
      the response arrives with its `ok` flag and its parsed body. */
  datatype Reply = Thrown(message: string) | Responded(ok: bool, body: Json)

  /** `v.key` on a value that is neither null nor undefined. Only objects have
      the named properties the pages read; on any other value the read gives undefined. */
  function Get(v: Json, key: string): (r: Option<Json>)
    ensures r.Some? <==> v.JObj? && key in v.fields
    ensures r.Some? ==> r.value == v.fields[key]
  {
    if v.JObj? && key in v.fields then Some(v.fields[key]) else None
  }

  predicate IsNullish(v: Option<Json>) {
    v == None || v == Some(JNull)
  }

  /** `v?.key`: undefined when `v` is null or undefined. */
  function Prop(v: Option<Json>, key: string): (r: Option<Json>)
    ensures IsNullish(v) ==> r == None
    ensures !IsNullish(v) ==> r == Get(v.value, key)
  {
    if IsNullish(v) then None else Get(v.value, key)
  }

  /** `v?.[0]`: the first element of an array, property "0" of an object, the
      first character of a string. */
  function First(v: Option<Json>): Option<Json> {
    match v
    case Some(JArr(items)) => if |items| > 0 then Some(items[0]) else None
    case Some(JObj(fields)) => if "0" in fields then Some(fields["0"]) else None
    case Some(JStr(s)) => if |s| > 0 then Some(JStr(s[..1])) else None
    case _ => None
  }

  /** The outcome of a plain property read `v.key`, which throws a TypeError
      when `v` is null or undefined. */
  datatype Read = Value(v: Option<Json>) | TypeError(message: string)

  /** The message a JavaScript engine (V8) gives the TypeError of reading `key`
      from `nullish`. */
  function ReadErrorMessage(nullish: string, key: string): (m: string)
    ensures m != ""
  {
    "Cannot read properties of " + nullish + " (reading '" + key + "')"
  }

  function ReadProp(v: Option<Json>, key: string): (r: Read)
    ensures r.TypeError? <==> IsNullish(v)
    ensures r.TypeError? ==> r.message != ""
    ensures r.Value? ==> r.v == Get(v.value, key)
  {
    match v
    case None => TypeError(ReadErrorMessage("undefined", key))
    case Some(JNull) => TypeError(ReadErrorMessage("null", key))
    case Some(j) => Value(Get(j, key))
  }

  /** JavaScript truthiness: undefined, null, false, 0 and "" are falsy. */
  predicate Truthy(v: Option<Json>) {
    match v
    case None => false
    case Some(JNull) => false
    case Some(JBool(b)) => b
    case Some(JNum(n)) => n != 0
    case Some(JStr(s)) => s != ""
    case Some(_) => true
  }

  /** `v || fallback`. */
  function Or(v: Option<Json>, fallback: Json): (r: Json)
    ensures Truthy(v) ==> Some(r) == v
    ensures !Truthy(v) ==> r == fallback
  {
    if Truthy(v) then v.value else fallback
  }

  /** `String(v)`: arrays are joined with ",", their null elements written as
      nothing; every object is written "[object Object]". */
  function ToJsString(v: Option<Json>): string {
    match v
    case None => "undefined"
    case Some(j) => JsonToString(j)
  }

  function JsonToString(j: Json): string
    decreases j
  {
    match j
    case JNull => "null"
    case JBool(b) => if b then "true" else "false"
    case JNum(n) => IntToString(n)
    case JStr(s) => s
    case JArr(items) =>
      Join(seq(|items|, i requires 0 <= i < |items| =>
        if items[i] == JNull then "" else JsonToString(items[i])))
    case JObj(_) => "[object Object]"
  }

  /** The parts separated by ",". */
  function Join(parts: seq<string>): string {
    if |parts| == 0 then ""
    else if |parts| == 1 then parts[0]
    else parts[0] + "," + Join(parts[1..])
  }

  /** `Number(s)` for a string: "" is 0, a signed decimal integer is its value,
      anything else is NaN (None). */
  function StringToNumber(s: string): Option<int> {
    if s == "" then Some(0) else ParseInt(s)
  }

  /** `Number(v)`; None is NaN. Arrays and objects go through their string form. */
  function ToNumber(v: Option<Json>): Option<int> {
    match v
    case None => None
    case Some(JNull) => Some(0)
    case Some(JBool(b)) => Some(if b then 1 else 0)
    case Some(JNum(n)) => Some(n)
    case Some(JStr(s)) => StringToNumber(s)
    case Some(j) => StringToNumber(JsonToString(j))
  }

  /** `Number(v)` gives back every whole number written out by `String(v)`. */
  lemma NumberOfString(n: int)
    ensures ToNumber(Some(JStr(ToJsString(Some(JNum(n)))))) == Some(n)
  {
    IntToStringRoundTrip(n);
  }
}
