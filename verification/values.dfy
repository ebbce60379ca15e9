/** Loosely typed payload values, as a JavaScript caller hands them to an
    entity constructor: the JSON-like values a request body can carry. */
module Values {

  /** A JSON-like value. Numbers are kept as mathematical reals: only their
      type matters to validation, never their precision. */
  datatype Value =
    | VString(str: string)
    | VNumber(num: real)
    | VBool(flag: bool)
    | VNull
    | VArray(items: seq<Value>)
    | VObject(props: map<string, Value>)

  /** A payload maps property names to values; a property that is not a key
      of the map is one the caller did not supply. */
  type Payload = map<string, Value>

  /** The JavaScript `typeof` of a value. `null`, arrays and plain objects
      all report "object". */
  function TypeOf(v: Value): (r: string)
    ensures r == "string" <==> v.VString?
    ensures r == "number" <==> v.VNumber?
    ensures r == "boolean" <==> v.VBool?
    ensures r == "object" <==> (v.VNull? || v.VArray? || v.VObject?)
  {
    match v
    case VString(_) => "string"
    case VNumber(_) => "number"
    case VBool(_) => "boolean"
    case _ => "object"
  }
}
