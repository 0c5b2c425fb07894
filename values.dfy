/** Dynamically typed values as the bot sees them: JSON bodies from the
    image provider, documents written to and read from the record store,
    and the keyword arguments of Python calls. */
module Values {

  datatype Option<+T> = None | Some(value: T)

  datatype Result<+T, +E> = Ok(value: T) | Err(error: E)

  /** A Python/JSON value. `Null` is Python's `None`; an `Obj` is a dict
      with string keys. Timestamps and document ids are carried as `Int`. */
  datatype Value =
    | Null
    | Int(i: int)
    | Bool(b: bool)
    | Str(s: string)
    | Obj(fields: map<string, Value>)

  /** Python truthiness of a value, as used by `if x:` and `x or y`. */
  predicate Truthy(v: Value) {
    match v
    case Null => false
    case Int(i) => i != 0
    case Bool(b) => b
    case Str(s) => s != ""
    case Obj(m) => m != map[]
  }

  /** `d.get(key, default)` on a Python dict. */
  function Get(d: map<string, Value>, key: string, default: Value): Value {
    if key in d then d[key] else default
  }

  /** An optional string as the value Python stores for it. */
  function OptStr(o: Option<string>): Value {
    match o
    case None => Null
    case Some(s) => Str(s)
  }

  /** An optional integer (a timestamp or a document id) as a stored value. */
  function OptInt(o: Option<int>): Value {
    match o
    case None => Null
    case Some(i) => Int(i)
  }
}
