/** Shared vocabulary: optional and fallible results, chat messages, and the
    dynamically typed values that flow through configuration dictionaries and
    JSON-like service responses. */
module Common {

  datatype Option<+T> = None | Some(value: T)

  datatype Result<+T, +E> = Ok(value: T) | Err(error: E)

  /** A chat message as handed to a language model: a role and its content,
      which is usually a string but is not checked to be one. */
  datatype Message = Message(role: string, content: Value)

  /** A Python runtime value as it may appear inside a run configuration or a
      decoded JSON response. Nothing checks these against declared types. */
  datatype Value =
    | VNone
    | VBool(b: bool)
    | VInt(i: int)
    | VStr(s: string)
    | VList(items: seq<Value>)
    | VDict(entries: map<string, Value>)

  /** Python truthiness: `None`, `False`, `0` and empty containers are false. */
  predicate Truthy(v: Value)
  {
    match v
    case VNone => false
    case VBool(b) => b
    case VInt(i) => i != 0
    case VStr(s) => |s| > 0
    case VList(xs) => |xs| > 0
    case VDict(m) => |m| > 0
  }

  /** The name Python reports for the runtime type of a value. */
  function TypeName(v: Value): string
  {
    match v
    case VNone => "NoneType"
    case VBool(_) => "bool"
    case VInt(_) => "int"
    case VStr(_) => "str"
    case VList(_) => "list"
    case VDict(_) => "dict"
  }

  /** Looks a key up in a dictionary the way `d.get(k)` does. */
  function Get(d: map<string, Value>, key: string): Value
  {
    if key in d then d[key] else VNone
  }

  /** Decimal rendering of a natural number, as `str(n)` gives it. */
  function NatToString(n: nat): string
    decreases n
  {
    if n < 10 then [Digit(n)] else NatToString(n / 10) + [Digit(n % 10)]
  }

  function Digit(d: nat): char
    requires d < 10
  {
    "0123456789"[d]
  }
}
