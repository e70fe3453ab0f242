/** Decoded JSON as Python sees it, and the builtins the event pipeline applies to it. */
module Json {
  import opened Numbers
  import opened Wrappers

  /** Python's `json` also accepts Infinity and NaN. */
  datatype Number = Finite(r: real) | Infinite | NaN

  datatype Json =
    | Null
    | Bool(b: bool)
    | Int(n: int)
    | Float(f: Number)
    | Str(s: string)
    | Arr(xs: seq<Json>)
    | Obj(m: map<string, Json>)

  type Dict = map<string, Json>

  /** Outcome of `json.loads`: a value, a JSONDecodeError, another ValueError (an integer literal
      above the interpreter's digit limit), or a RecursionError, which is no ValueError. */
  datatype Decoded = Value(j: Json) | Malformed | BadValue | TooDeep

  /** The library functions the pipeline calls: decoding, `str` of a non-string value,
      and `int` of a string (`None` when it raises). */
  datatype Library = Library(decode: string -> Decoded, show: Json -> string, parseInt: string -> Option<int>)

  /** `d.get(k)`: a missing key and a null read the same. */
  function Get(d: Dict, k: string): Json {
    if k in d then d[k] else Null
  }

  function GetOr(d: Dict, k: string, default: Json): Json {
    if k in d then d[k] else default
  }

  function Field(j: Json, k: string): Json {
    if j.Obj? then Get(j.m, k) else Null
  }

  predicate Truthy(j: Json) {
    match j
    case Null => false
    case Bool(b) => b
    case Int(n) => n != 0
    case Float(f) => f != Finite(0.0)
    case Str(s) => s != ""
    case Arr(xs) => xs != []
    case Obj(m) => m != map[]
  }

  function ToText(lib: Library, j: Json): string {
    if j.Str? then j.s else lib.show(j)
  }

  /** `int(x or 0)`; `None` when it raises. */
  function IntOrZero(lib: Library, j: Json): Option<int> {
    if !Truthy(j) then Some(0) else
      match j
      case Bool(_) => Some(1)
      case Int(n) => Some(n)
      case Float(f) => if f.Finite? then Some(Truncate(f.r)) else None
      case Str(s) => lib.parseInt(s)
      case _ => None
  }

  /** Hashable values can be looked up in a Python set; lists and dicts raise. */
  predicate Hashable(j: Json) {
    !j.Arr? && !j.Obj?
  }
}
