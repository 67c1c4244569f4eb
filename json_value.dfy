/** Decoded JSON values, as Go's encoding/json hands them to the server in `interface{}`. */
module JsonValue {

  /**
   * A decoded JSON value. Go decodes numbers to float64; the model keeps them as integers
   * (the handlers only ever read page, limit and similar counters).
   */
  datatype Json =
    | JNull
    | JBool(b: bool)
    | JNum(n: int)
    | JStr(str: string)
    | JArr(items: seq<Json>)
    | JObj(fields: map<string, Json>)

  /** A decoded JSON object: Go's `map[string]interface{}`. A nil map is `None` in an `Option<Obj>`. */
  type Obj = map<string, Json>

  /** The name Go's decoder gives the kind of a JSON value in its "cannot unmarshal" errors. */
  function KindName(j: Json): string
  {
    match j
    case JNull => "null"
    case JBool(_) => "bool"
    case JNum(_) => "number"
    case JStr(_) => "string"
    case JArr(_) => "array"
    case JObj(_) => "object"
  }

  /** Go's error for decoding a value that is not an object into `map[string]interface{}`. */
  function NotAnObject(j: Json): string
  {
    "json: cannot unmarshal " + KindName(j) + " into Go value of type map[string]interface {}"
  }
}
