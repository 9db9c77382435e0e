/**
 * JSON values as the JavaScript code sees them after parsing: objects keep
 * their properties in insertion order. Property access on something that is
 * not an object gives `undefined`, and truthiness follows JavaScript.
 */
module Json {
  import opened Wrappers
  import AssocList

  datatype Json =
    | JNull
    | JBool(b: bool)
    | JNum(n: real)
    | JStr(s: string)
    | JArr(items: seq<Json>)
    | JObj(fields: seq<(string, Json)>)

  /** `value?.[name]`: `None` stands for `undefined`. */
  function Field(value: Json, name: string): (r: Option<Json>)
    ensures !value.JObj? ==> r.None?
  {
    match value
    case JObj(fields) => AssocList.Get(fields, name)
    case _ => None
  }

  /** JavaScript truthiness of a possibly `undefined` value (numbers are never NaN here). */
  predicate Truthy(value: Option<Json>): (r: bool)
    ensures !r <==> value in {None, Some(JNull), Some(JBool(false)), Some(JNum(0.0)), Some(JStr(""))}
  {
    match value
    case None => false
    case Some(JNull) => false
    case Some(JBool(b)) => b
    case Some(JNum(n)) => n != 0.0
    case Some(JStr(s)) => s != ""
    case Some(JArr(_)) => true
    case Some(JObj(_)) => true
  }

  /** The two foreign primitives the core calls and never inspects. */
  datatype Primitives = Primitives(
    stringify: Json -> string,                       // JSON.stringify
    hmacSha256Hex: (string, string) -> string        // hex of HMAC-SHA-256(key, message)
  )
}
