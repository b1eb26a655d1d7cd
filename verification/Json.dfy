/** What a value is, as JSON: what `state` and `changed` spell. */
module Json {
  datatype Value =
    | Null
    | Bool(on: bool)
    | Number(n: real)
    | Str(text: string)
    | Array(items: seq<Value>)
    | Object(fields: map<string, Value>)
}
