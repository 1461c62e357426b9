/**
  Values the adapter handles: decoded JSON documents as Python's `json`
  module produces them (dict, list, str, int, float, bool, None), the
  exceptions the adapter's code can raise, and the two dict accessors it
  uses (`d.get(k)` and `d[k]`).
 */
module JsonData {

  datatype Option<+T> = None | Some(value: T)

  /** A decoded JSON value. Object key order is not modelled: the adapter only looks keys up. */
  datatype Json =
    | JNull
    | JBool(b: bool)
    | JInt(i: int)
    | JFloat(f: real)
    | JStr(s: string)
    | JArr(items: seq<Json>)
    | JObj(fields: map<string, Json>)

  /** The Python exceptions that can leave the adapter. */
  datatype Fault =
    | KeyError(key: string)                               // `d[key]` on a dict without `key`
    | AttributeError(typeName: string, attribute: string) // `'<type>' object has no attribute '<attribute>'`
    | TypeError(typeName: string)                         // `'<type>' object is not iterable`
    | TransportError(cause: string)                       // raised by the HTTP client or by `response.json()`

  /** A Python call either returns a value or raises. */
  datatype Outcome<+T> = Returned(value: T) | Raised(fault: Fault)

  /** The name Python reports for the type of a decoded value. */
  function TypeName(v: Json): string
  {
    match v
    case JNull => "NoneType"
    case JBool(_) => "bool"
    case JInt(_) => "int"
    case JFloat(_) => "float"
    case JStr(_) => "str"
    case JArr(_) => "list"
    case JObj(_) => "dict"
  }

  /** `d.get(key)`: the value, or Python's None when the key is absent. */
  function Get(d: map<string, Json>, key: string): Option<Json>
  {
    if key in d then Some(d[key]) else None
  }

  /** `d.get(key, default)`. */
  function GetOr(d: map<string, Json>, key: string, default: Json): Json
  {
    if key in d then d[key] else default
  }

  /** `d[key]`: raises KeyError when the key is absent. */
  function Subscript(d: map<string, Json>, key: string): Outcome<Json>
  {
    if key in d then Returned(d[key]) else Raised(KeyError(key))
  }

  /** How an optional value appears in a Python dict: a missing value is None, i.e. JSON null. */
  function OrNull(o: Option<Json>): Json
  {
    match o
    case Some(v) => v
    case None => JNull
  }
}
