/**
  Decoded JSON values, as Python's `json` module hands them to the program,
  together with the two Python behaviours the program leans on: truthiness
  (`if x`, `x or y`) and `dict.get`.
 */
module PyJson {

  /** A decoded JSON document. Objects are dictionaries with distinct keys. */
  datatype Json =
    | JNull
    | JBool(b: bool)
    | JInt(i: int)
    | JFloat(r: real)
    | JStr(s: string)
    | JArr(items: seq<Json>)
    | JObj(fields: map<string, Json>)

  /** Python's `bool(v)`: `None`, `False`, zero and empty containers are false. */
  predicate Truthy(v: Json) {
    match v
    case JNull => false
    case JBool(b) => b
    case JInt(i) => i != 0
    case JFloat(r) => r != 0.0
    case JStr(s) => |s| > 0
    case JArr(items) => |items| > 0
    case JObj(fields) => |fields| > 0
  }

  /** `d.get(key, default)`. */
  function GetDefault(fields: map<string, Json>, key: string, default: Json): Json {
    if key in fields then fields[key] else default
  }

  /** `d.get(key)`: an absent key reads as `None`, which prints like JSON `null`. */
  function Get(fields: map<string, Json>, key: string): Json {
    GetDefault(fields, key, JNull)
  }
}
