/** JSON values, the shape of the dictionaries the prototype server stores and merges. */
module JsonValue {

  datatype Value =
    | Null
    | Bool(b: bool)
    | Num(n: int)
    | Str(s: string)
    | Arr(items: seq<Value>)
    | Obj(fields: map<string, Value>)

  /** A JSON object as a Python `dict`. */
  type Record = map<string, Value>
}
