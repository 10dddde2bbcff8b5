/**
 * The Python values that a profile's `dict()` holds and that the prompt
 * builders read: truthiness, `dict.get`, and how an f-string renders them.
 */
module Values {
  import opened Wrappers
  import Text

  datatype PyValue = PyNone | PyBool(b: bool) | PyInt(i: int) | PyStr(s: string)

  /** Python's truth test: `None`, `False`, `0` and `""` are false. */
  predicate Truthy(v: PyValue) {
    match v
    case PyNone => false
    case PyBool(b) => b
    case PyInt(i) => i != 0
    case PyStr(s) => s != ""
  }

  /** `str(v)`, which is what `{v}` in an f-string inserts. */
  function Format(v: PyValue): string {
    match v
    case PyNone => "None"
    case PyBool(b) => if b then "True" else "False"
    case PyInt(i) => Text.IntToString(i)
    case PyStr(s) => s
  }

  /** `d.get(key)`: the stored value, or `None` for a missing key. */
  function Get(d: map<string, PyValue>, key: string): PyValue {
    if key in d then d[key] else PyNone
  }

  /** `d.get(key, default)`. */
  function GetOr(d: map<string, PyValue>, key: string, default: PyValue): PyValue {
    if key in d then d[key] else default
  }

  /** An `Optional[str]` field as the value it holds. */
  function OfOptionalString(o: Option<string>): PyValue {
    match o
    case None => PyNone
    case Some(s) => PyStr(s)
  }

  /** An `Optional[int]` field as the value it holds. */
  function OfOptionalInt(o: Option<int>): PyValue {
    match o
    case None => PyNone
    case Some(i) => PyInt(i)
  }
}
