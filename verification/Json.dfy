/**
 JSON values as `serde_json` holds them. An object is the list of its members in
 stored order, so that two objects differing only in key order are two values.
 */
module Json {

  type Members = seq<(string, Value)>

  datatype Value =
    | Null
    | Bool(flag: bool)
    | Number(literal: string)
    | Text(text: string)
    | Array(items: seq<Value>)
    | Object(members: Members)
}
