/**
 * The JSON-like values that the backend passes around as Python dicts: hook
 * payloads, request bodies and response documents.
 */
module Values {
  import opened Common

  /**
   * One Python value as it appears in a request body or hook payload.
   * `Time` stands for a datetime object, kept as whole seconds.
   */
  datatype Value =
    | Null
    | Bool(b: bool)
    | Int(i: int)
    | Str(s: string)
    | Time(t: int)
    | List(items: seq<Value>)
    | Dict(fields: map<string, Value>)

  /** A Dict[str, Any] as handed to and returned by a hook handler. */
  type Payload = map<string, Value>

  /** Python's bool(v). */
  predicate Truthy(v: Value) {
    match v
    case Null => false
    case Bool(b) => b
    case Int(i) => i != 0
    case Str(s) => s != ""
    case Time(_) => true
    case List(items) => items != []
    case Dict(fields) => fields != map[]
  }

  /** Python's d.get(key, default). */
  function Get(d: map<string, Value>, key: string, default: Value): (v: Value)
    ensures key in d ==> v == d[key]
    ensures key !in d ==> v == default
  {
    if key in d then d[key] else default
  }

  /**
   * The integer Python uses when a value meets `+ 1` or `- 1`: ints as they
   * are, and bool as 0 or 1 (bool is a subclass of int). Anything else makes
   * the arithmetic raise TypeError.
   */
  function AsNumber(v: Value): (r: Option<int>)
    ensures r.Some? <==> v.Int? || v.Bool?
  {
    match v
    case Int(i) => Some(i)
    case Bool(b) => Some(if b then 1 else 0)
    case _ => None
  }

  /** Builds a Python list of strings. */
  function StrList(xs: seq<string>): (v: Value)
    ensures v.List? && |v.items| == |xs|
    ensures forall i | 0 <= i < |xs| :: v.items[i] == Str(xs[i])
  {
    List(seq(|xs|, i requires 0 <= i < |xs| => Str(xs[i])))
  }
}
