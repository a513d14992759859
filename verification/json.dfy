/** JSON-shaped values: the payloads pushed to WebSocket clients and the
    `details` dictionaries attached to logged events. */
module Json {

  datatype Value =
    | Null
    | Bool(b: bool)
    | Num(n: real)
    | Str(s: string)
    | Obj(fields: map<string, Value>)
}
