/**
 * The JSON values a response body is made of, as serde_json hands them to a
 * deserializer: integers exactly, every other number as an opaque float.
 */
module Json {

  datatype Value =
    | Null
    | Bool(b: bool)
    | Int(i: int)
    | Float
    | Str(s: string)
    | Array(items: seq<Value>)
    | Object(fields: map<string, Value>)
}
