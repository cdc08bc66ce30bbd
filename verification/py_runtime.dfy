/** The few Python semantics the login backend relies on: `dict.get`, `in`, subscripts
    and the ordering of `datetime` values. Each raises where Python raises. */
module PyRuntime {
  import opened Wrappers
  import opened Json

  datatype PyError = AttributeError | TypeError | KeyError | ValueError | OverflowError | OSError

  /** `v.get(key, default)`: only a dict has `get`. */
  function Get(v: Json, key: string, default: Json): (r: Result<Json, PyError>)
    ensures r.Ok? <==> v.JObj?
    ensures v.JObj? && key in v.fields ==> r.value == v.fields[key]
    ensures v.JObj? && key !in v.fields ==> r.value == default
  {
    match v
    case JObj(m) => Ok(if key in m then m[key] else default)
    case _ => Err(AttributeError)
  }

  /** Whether `needle` occurs as a contiguous piece of `hay`. */
  predicate IsSubstring(needle: string, hay: string)
    decreases |hay|
  {
    |needle| <= |hay| && (hay[..|needle|] == needle || IsSubstring(needle, hay[1..]))
  }

  /** `key in v` for a string key: dict keys, list elements, or a substring test;
      other values are not iterable. */
  function Contains(v: Json, key: string): (r: Result<bool, PyError>)
    ensures r.Ok? <==> (v.JObj? || v.JArr? || v.JStr?)
    ensures v.JObj? ==> r == Ok(key in v.fields)
  {
    match v
    case JObj(m) => Ok(key in m)
    case JArr(xs) => Ok(JStr(key) in xs)
    case JStr(s) => Ok(IsSubstring(key, s))
    case _ => Err(TypeError)
  }

  /** `v[key]` for a string key: a dict lookup (KeyError when absent); lists and strings
      need integer indices, and the other values are not subscriptable. */
  function Subscript(v: Json, key: string): (r: Result<Json, PyError>)
    ensures r.Ok? <==> v.JObj? && key in v.fields
    ensures v.JObj? && key !in v.fields ==> r == Err(KeyError)
    ensures r.Ok? ==> r.value == v.fields[key]
  {
    match v
    case JObj(m) => if key in m then Ok(m[key]) else Err(KeyError)
    case _ => Err(TypeError)
  }

  /** `k in d` for a dict `d` whose keys are the strings `keys`. Lists and dicts are
      unhashable; no other non-string value equals a string key. */
  function KeyIn(k: Json, keys: set<string>): (r: Result<bool, PyError>)
    ensures r.Ok? <==> !(k.JArr? || k.JObj?)
    ensures r == Ok(true) <==> k.JStr? && k.s in keys
  {
    match k
    case JStr(s) => Ok(s in keys)
    case JArr(_) => Err(TypeError)
    case JObj(_) => Err(TypeError)
    case _ => Ok(false)
  }

  /** A `datetime` in microseconds; an aware one is counted from the UTC epoch. */
  datatype DateTime = DateTime(micros: int, aware: bool)

  /** `a < b`; Python refuses to order a naive value against an aware one. */
  function Less(a: DateTime, b: DateTime): (r: Result<bool, PyError>)
    ensures r.Ok? <==> a.aware == b.aware
    ensures r.Ok? ==> (r.value <==> a.micros < b.micros)
  {
    if a.aware != b.aware then Err(TypeError) else Ok(a.micros < b.micros)
  }
}
