/** The JSON-like values the invoice is shaped into before it is sent. */
module Json {

  /** A JSON value; objects are maps, so the key order of the text form is not kept. */
  datatype Value =
    | Null
    | Bool(b: bool)
    | Num(n: real)
    | Str(s: string)
    | Arr(elems: seq<Value>)
    | Obj(fields: map<string, Value>)
}
