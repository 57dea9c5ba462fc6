/**
 * Parsed JSON values and the JavaScript operations the services apply to
 * them: property access with and without optional chaining, indexing,
 * truthiness, conversion to a string inside a template literal, and the
 * two ways of iterating (`for ... of` and `Array.prototype.forEach`).
 * A JavaScript `undefined` is `None` in an `Option<Json>`.
 */
module Json {
  import opened Basics

  datatype Json =
    | JNull
    | JBool(b: bool)
    | JNum(n: int)
    | JStr(s: string)
    | JArr(items: seq<Json>)
    | JObj(fields: map<string, Json>)

  /**
   * Stands for the message of the TypeError the JavaScript engine raises
   * (reading a property of null or undefined, iterating a non-iterable,
   * calling a method a value does not have); its wording is engine-specific.
   */
  const TypeErrorMessage: string := "TypeError"

  /** JavaScript truthiness of a possibly undefined value. */
  predicate Truthy(o: Option<Json>)
  {
    match o
    case None => false
    case Some(JNull) => false
    case Some(JBool(b)) => b
    case Some(JNum(n)) => n != 0
    case Some(JStr(s)) => s != []
    case Some(JArr(_)) => true
    case Some(JObj(_)) => true
  }

  predicate Nullish(o: Option<Json>)
  {
    o == None || o == Some(JNull)
  }

  /** `v.key` for a value that is not null or undefined. */
  function Prop(v: Json, key: string): Option<Json>
  {
    match v
    case JObj(m) => if key in m then Some(m[key]) else None
    case _ => None
  }

  /** `o?.key` */
  function OptMember(o: Option<Json>, key: string): Option<Json>
  {
    if Nullish(o) then None else Prop(o.value, key)
  }

  /** `o.key`: a TypeError when `o` is null or undefined. */
  function Member(o: Option<Json>, key: string): Result<Option<Json>>
  {
    if Nullish(o) then Err(TypeErrorMessage) else Ok(Prop(o.value, key))
  }

  /** `v[i]` for a value that is not null or undefined. */
  function Element(v: Json, i: nat): Option<Json>
  {
    match v
    case JArr(items) => if i < |items| then Some(items[i]) else None
    case JStr(s) => if i < |s| then Some(JStr([s[i]])) else None
    case JObj(_) => Prop(v, NatToString(i))
    case _ => None
  }

  /** `o?.[i]` */
  function OptIndex(o: Option<Json>, i: nat): Option<Json>
  {
    if Nullish(o) then None else Element(o.value, i)
  }

  /** What a template literal `${o}` (equivalently `String(o)`) makes of `o`. */
  function ToJsString(o: Option<Json>): string
  {
    match o
    case None => "undefined"
    case Some(v) => ValueToString(v)
  }

  function ValueToString(v: Json): string
  {
    match v
    case JNull => "null"
    case JBool(b) => if b then "true" else "false"
    case JNum(n) => IntToString(n)
    case JStr(s) => s
    case JArr(items) => JoinElements(items)
    case JObj(_) => "[object Object]"
  }

  /** `Array.prototype.join(',')`: null elements become the empty string. */
  function JoinElements(items: seq<Json>): string
  {
    if items == [] then []
    else
      var head := if items[0] == JNull then [] else ValueToString(items[0]);
      if |items| == 1 then head else head + "," + JoinElements(items[1..])
  }

  /** The elements `for (const x of v)` visits: arrays and strings are iterable. */
  function ForOf(o: Option<Json>): Result<seq<Json>>
  {
    match o
    case Some(JArr(items)) => Ok(items)
    case Some(JStr(s)) => Ok(seq(|s|, k requires 0 <= k < |s| => JStr([s[k]])))
    case _ => Err(TypeErrorMessage)
  }

  /** The elements `o.forEach(...)` visits: only arrays have `forEach`. */
  function ForEach(o: Option<Json>): Result<seq<Json>>
  {
    match o
    case Some(JArr(items)) => Ok(items)
    case _ => Err(TypeErrorMessage)
  }

  /** The elements `(o || []).forEach(...)` visits. */
  function ForEachOrEmpty(o: Option<Json>): Result<seq<Json>>
  {
    if Truthy(o) then ForEach(o) else Ok([])
  }
}

/** A reply to one HTTP request, as `fetch` delivers it. */
module Http {
  import opened Basics
  import opened Json

  /** What `response.json()` yields: a parsed body, or the parse error's message. */
  datatype Body = Parsed(json: Json) | Unparsable(message: string)

  datatype Response = Response(status: int, statusText: string, body: Body)

  /** `fetch` either rejects (network failure) or resolves with a response. */
  datatype Transport = Unreachable(message: string) | Received(response: Response)

  /** `Response.ok`: the status is in the range 200-299. */
  predicate IsOk(status: int)
  {
    200 <= status <= 299
  }

  /**
   * The request an operation sent (`None` when it returned or failed before
   * sending one) and what it returned or threw.
   */
  datatype Exchange<+R, +T> = Exchange(sent: Option<R>, result: Result<T>)
}
