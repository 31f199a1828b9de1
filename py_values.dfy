/** The Python values the notifier handles: whatever `json.loads` can produce
    for a field of the hook input, plus the strings and integers the script
    puts into the keyword arguments of the notification call. */
module PyValues {

  import opened Wrappers

  /** A Python value built from JSON. `Null` is Python's `None`; JSON numbers
      with a fraction or an exponent become `Float`, held as an exact `real`
      (the non-finite `NaN` and `Infinity` constants have no counterpart). */
  datatype Value =
    | Null
    | Bool(b: bool)
    | Int(i: int)
    | Float(x: real)
    | Str(s: string)
    | List(items: seq<Value>)
    | Dict(fields: map<string, Value>)

  /** Python truth value testing: `None`, `False`, zero and the empty string,
      list and dict are false; everything else is true. */
  predicate Truthy(v: Value) {
    match v
    case Null => false
    case Bool(b) => b
    case Int(i) => i != 0
    case Float(x) => x != 0.0
    case Str(s) => s != ""
    case List(items) => items != []
    case Dict(fields) => fields != map[]
  }

  /** Python's `x or y`: the first operand if it is true, else the second. */
  function Or(x: Value, y: Value): (r: Value)
    ensures r == x || r == y
    ensures Truthy(r) <==> Truthy(x) || Truthy(y)
    ensures Truthy(x) ==> r == x
    ensures !Truthy(x) ==> r == y
  {
    if Truthy(x) then x else y
  }

  /** An optional string argument as Python holds it: `None` or a `str`. */
  function OptionalStr(s: Option<string>): (v: Value)
    ensures Truthy(v) <==> s.Some? && s.value != ""
    ensures Truthy(v) ==> v == Str(s.value)
  {
    match s
    case None => Null
    case Some(t) => Str(t)
  }

  /** `d.get(key, default)` on a dict. */
  function Get(d: map<string, Value>, key: string, default: Value): (v: Value)
    ensures key in d ==> v == d[key]
    ensures key !in d ==> v == default
  {
    if key in d then d[key] else default
  }
}
