/** JSON values as the tool system exchanges them. */
module Json {
  datatype Value =
    | Null
    | Bool(flag: bool)
    | Int(n: int)
    | Num(x: real)
    | Str(s: string)
    | Arr(items: seq<Value>)
    | Obj(fields: map<string, Value>)

  type Args = map<string, Value>
}
