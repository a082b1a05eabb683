/** The parsed JSON documents the provider reads: whatever `json.load` yields. */
module Json {

  /** A JSON value; numbers are integers here (see README, "Left out"). */
  datatype Value =
    | Null
    | Bool(b: bool)
    | Num(n: int)
    | Str(s: string)
    | Arr(items: seq<Value>)
    | Obj(members: map<string, Value>)

  /** A tile set descriptor as fetched: a loosely-typed dictionary. */
  type Doc = map<string, Value>
}
