/** JSON values as the Python side sees them after `json.loads`, with the
    Python type names that appear in the messages of the exceptions the
    source catches. Parsing and serialisation themselves are not modelled:
    callers receive them as function parameters. */
module Json {

  datatype Option<T> = None | Some(value: T)

  /** A decoded JSON value. Integers and floats are distinct, as `json.loads`
      makes them distinct (`5` is an `int`, `5.0` a `float`); an object is a
      Python `dict` from string keys to values. */
  datatype Json =
    | JNull
    | JBool(b: bool)
    | JInt(i: int)
    | JFloat(f: real)
    | JStr(s: string)
    | JArr(items: seq<Json>)
    | JObj(fields: map<string, Json>)

  /** The name Python gives the type of the decoded value (`type(v).__name__`). */
  function PyTypeName(j: Json): (name: string)
    ensures name == "dict" <==> j.JObj?
    ensures |name| > 0
  {
    match j
    case JNull => "NoneType"
    case JBool(_) => "bool"
    case JInt(_) => "int"
    case JFloat(_) => "float"
    case JStr(_) => "str"
    case JArr(_) => "list"
    case JObj(_) => "dict"
  }

  /** `d.get(key)` on a dict: the value stored under `key`, or None. */
  function Get(fields: map<string, Json>, key: string): (r: Option<Json>)
    ensures r.Some? <==> key in fields
    ensures r.Some? ==> r.value == fields[key]
  {
    if key in fields then Some(fields[key]) else None
  }

  /** The two-field object `{"status": status, "message": message}`. */
  function StatusMessage(status: string, message: string): (r: Json)
    ensures r.JObj? && r.fields.Keys == {"status", "message"}
    ensures r.fields["status"] == JStr(status) && r.fields["message"] == JStr(message)
  {
    JObj(map["status" := JStr(status), "message" := JStr(message)])
  }
}
