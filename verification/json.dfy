/** Message bodies as WebKit hands them to the native side: a script
    message body is a string, a dictionary, an array, a number, a boolean, a
    date or null. Numbers are kept as integers and dates as their time value
    in milliseconds; no handler in the model looks inside either. */
module Json {
  import opened Wrappers

  datatype Json =
    | JStr(s: string)
    | JObj(fields: map<string, Json>)
    | JArr(items: seq<Json>)
    | JNum(n: int)
    | JBool(b: bool)
    | JDate(millis: int)
    | JNull

  /** `JSONSerialization.jsonObject(with:)`: an opaque, partial decoder that
      the model takes as a parameter instead of interpreting. */
  type Parser = string -> Option<Json>

  /** `body as? [String: Any]` */
  function AsObject(j: Json): Option<map<string, Json>> {
    if j.JObj? then Some(j.fields) else None
  }

  /** `value as? String` */
  function AsString(j: Json): Option<string> {
    if j.JStr? then Some(j.s) else None
  }

  /** `dict[key] as? String`: a missing key and a non-string value are both
      a failed cast. */
  function StringField(fields: map<string, Json>, key: string): (r: Option<string>)
    ensures r.Some? <==> key in fields && fields[key].JStr?
    ensures r.Some? ==> fields[key] == JStr(r.value)
  {
    if key in fields then AsString(fields[key]) else None
  }

  /** `dict[key] as? [String: Any]` */
  function ObjectField(fields: map<string, Json>, key: string): (r: Option<map<string, Json>>)
    ensures r.Some? <==> key in fields && fields[key].JObj?
    ensures r.Some? ==> fields[key] == JObj(r.value)
  {
    if key in fields then AsObject(fields[key]) else None
  }

  /** `try? JSONSerialization.jsonObject(with: data) as? [String: Any]`.
      `String.data(using: .utf8)` never fails on a Swift string, so that step
      has no failure branch here. */
  function ParseObject(parse: Parser, text: string): (r: Option<map<string, Json>>)
    ensures r.Some? <==> parse(text).Some? && parse(text).value.JObj?
    ensures r.Some? ==> parse(text) == Some(JObj(r.value))
  {
    match parse(text)
    case Some(j) => AsObject(j)
    case None => None
  }
}
