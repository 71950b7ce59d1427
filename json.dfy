/**
 * The body of a webhook request after JSON decoding, before any schema is
 * applied.  A timestamp that the date-time parser accepts is represented by
 * `JTime` carrying the parsed instant; the parser itself is not modelled.
 */
module Json {

  import opened Wrappers

  /** A parsed instant, in seconds. */
  type Time = int

  datatype Value =
    | JNull
    | JBool(b: bool)
    | JInt(i: int)
    | JString(s: string)
    | JTime(t: Time)
    | JArray(items: seq<Value>)
    | JObject(fields: map<string, Value>)

  function AsString(v: Value): Option<string>
  {
    if v.JString? then Some(v.s) else None
  }

  function AsInt(v: Value): Option<int>
  {
    if v.JInt? then Some(v.i) else None
  }

  function AsBool(v: Value): Option<bool>
  {
    if v.JBool? then Some(v.b) else None
  }

  function AsTime(v: Value): Option<Time>
  {
    if v.JTime? then Some(v.t) else None
  }
}
