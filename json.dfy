/** The JSON values (`serde_json::Value`) that travel between agents. */
module Json {
  import opened Wrappers

  datatype Value =
    | Null
    | Bool(b: bool)
    | Num(n: int)
    | Str(s: string)
    | Arr(items: seq<Value>)
    | Obj(fields: map<string, Value>)

  /** `v.get(key)` placed into a `json!` object: a missing field, or a value
      that is not an object, becomes `null`. */
  function Get(v: Value, key: string): Value {
    if v.Obj? && key in v.fields then v.fields[key] else Null
  }

  /** An `Option<&String>` placed into a `json!` object. */
  function FromOption(o: Option<string>): Value {
    match o
    case Some(s) => Str(s)
    case None => Null
  }

  /** An `Option<HashMap<String, String>>` placed into a `json!` object. */
  function FromStringMap(o: Option<map<string, string>>): Value {
    match o
    case Some(m) => Obj(map k | k in m :: Str(m[k]))
    case None => Null
  }
}
