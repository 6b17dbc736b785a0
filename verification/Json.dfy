/** JSON values as serde_json holds them; numbers are restricted to integers. */
module Json {
  import opened Prelude

  datatype Value =
    | Null
    | Bool(flag: bool)
    | Num(number: int)
    | Str(text: string)
    | Arr(items: seq<Value>)
    | Obj(fields: map<string, Value>)
  {
    // `Value::get`: a missing key and a value that is no object look the same.
    function Get(key: string): Option<Value> {
      if Obj? && key in fields then Some(fields[key]) else None
    }

    function GetStr(key: string): Option<string> {
      match Get(key)
      case Some(Str(text)) => Some(text)
      case _ => None
    }

    function GetU64(key: string): (r: Option<U64>) {
      match Get(key)
      case Some(Num(n)) => if 0 <= n < U64_LIMIT then Some(n) else None
      case _ => None
    }

    // `get(key).filter(|v| !v.is_null())`
    function GetNonNull(key: string): Option<Value> {
      match Get(key)
      case Some(Null) => None
      case other => other
    }
  }
}
