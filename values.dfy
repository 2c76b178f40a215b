/** Python values as the command-line client sees them: decoded JSON documents,
    their truthiness, `dict.get` and `dict[key]` lookups, the exceptions the
    commands raise or receive, and the contents of the client state file. */
module PyValues {

  datatype Option<+T> = None | Some(value: T)

  /** A decoded JSON value (`json.load` result). Numbers are integers only. */
  datatype Json =
    | JNull
    | JBool(b: bool)
    | JNum(n: int)
    | JStr(s: string)
    | JArr(items: seq<Json>)
    | JObj(fields: map<string, Json>)

  /** Python truthiness of a decoded JSON value (`if x`, `not x`, `x or y`). */
  predicate Truthy(v: Json) {
    match v
    case JNull => false
    case JBool(b) => b
    case JNum(n) => n != 0
    case JStr(s) => s != ""
    case JArr(items) => items != []
    case JObj(fields) => fields != map[]
  }

  /** Python `a or b`: the first operand when it is truthy, else the second. */
  function Or(a: Json, b: Json): (r: Json)
    ensures Truthy(r) <==> Truthy(a) || Truthy(b)
    ensures Truthy(a) ==> r == a
    ensures !Truthy(a) ==> r == b
  {
    if Truthy(a) then a else b
  }

  /** A command-line option that is a string or `None`, as a Python value. */
  function FromOption(o: Option<string>): Json {
    match o
    case None => JNull
    case Some(s) => JStr(s)
  }

  /** `d.get(key)` on a dict: `None` for a missing key. */
  function Get(d: map<string, Json>, key: string): Json {
    if key in d then d[key] else JNull
  }

  /** The class of a Python exception, as far as the commands tell classes apart. */
  datatype ExcClass =
    | KeyError
    | TypeError
    | AttributeError
    | EOFError
    | JSONDecodeError
    | UnboundLocalError(variable: string)
    /** Raised by the remote client; `name` is its class name. */
    | ClientError(name: string)
    /** A `BaseException` that is not an `Exception` (e.g. `KeyboardInterrupt`). */
    | NonException(name: string)

  /** A Python exception object: its class and its `args` tuple. */
  datatype PyExc = PyExc(cls: ExcClass, args: seq<Json>)

  /** Whether `except Exception` catches the exception. */
  predicate IsException(e: PyExc) {
    !e.cls.NonException?
  }

  /** The outcome of a step that either yields a value or raises. */
  datatype Result<+T> = Ok(value: T) | Err(error: PyExc)

  /** What a call into the remote client does: raise, or return a value. */
  datatype ClientCall = Raised(exc: PyExc) | Returned(value: Json)

  /** How a command ends: it returns normally, or an exception escapes it. */
  datatype Termination = Finished | Crashed(exc: PyExc)

  /** `v[key]` where `v` is expected to be a dict: a `KeyError` carrying the key
      when it is missing, a `TypeError` when `v` is not a dict at all. */
  function Subscript(v: Json, key: string): Result<Json> {
    match v
    case JObj(fields) =>
      if key in fields then Ok(fields[key]) else Err(PyExc(KeyError, [JStr(key)]))
    case _ => Err(PyExc(TypeError, []))
  }

  /** What the client state file holds on disk when a command starts. */
  datatype StoredFile =
    | Missing
    /** Present, but `json.load` raises `json.JSONDecodeError` (a `ValueError`). */
    | Unparsable
    | Parsed(doc: Json)
}
