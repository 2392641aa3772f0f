/** Decoded JSON values as the gateway sees them after `json.loads`, and
    the small Python conventions (truthiness, `dict.get`, raised exceptions)
    the rest of the model relies on. */
module Json {

  datatype Option<+T> = None | Some(value: T) {
    function GetOr(default: T): T {
      match this
      case Some(v) => v
      case None => default
    }
  }

  /** A decoded JSON value; JSON numbers are modelled as integers. */
  datatype Json =
    | JNull
    | JBool(b: bool)
    | JNum(n: int)
    | JStr(s: string)
    | JArr(items: seq<Json>)
    | JObj(fields: map<string, Json>)

  /** A decoded JSON object, the shape of every gateway result. */
  type Dict = map<string, Json>

  /** The value a Python call produces: a result, or an exception that
      escapes it (the exception's text is kept opaque). */
  datatype Call<+T> = Returned(value: T) | Raised(text: string)

  /** Python truthiness of a decoded JSON value (`if x:`). */
  predicate Truthy(j: Json) {
    match j
    case JNull => false
    case JBool(b) => b
    case JNum(n) => n != 0
    case JStr(s) => s != ""
    case JArr(xs) => xs != []
    case JObj(m) => m != map[]
  }

  /** `d.get(k, default)` */
  function Get(d: Dict, k: string, default: Json): Json {
    if k in d then d[k] else default
  }

  /** The JSON value Python's `None` or a string becomes. */
  function OptStr(s: Option<string>): Json {
    match s
    case None => JNull
    case Some(x) => JStr(x)
  }
}
