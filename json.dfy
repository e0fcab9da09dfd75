/** Python values as stored in the job dictionaries and returned by `json.loads`. */
module Json {
  import Strings

  datatype Value =
    | Null
    | Bool(b: bool)
    | Int(i: int)
    | Float(f: real)
    | Str(s: string)
    | Arr(items: seq<Value>)
    | Obj(fields: map<string, Value>)

  /** Python truthiness of a value. */
  predicate Truthy(v: Value) {
    match v
    case Null => false
    case Bool(b) => b
    case Int(i) => i != 0
    case Float(f) => f != 0.0
    case Str(s) => s != ""
    case Arr(items) => items != []
    case Obj(fields) => fields != map[]
  }

  /** A value `time.time() - v` can be computed with. */
  predicate IsNumber(v: Value) {
    v.Int? || v.Float? || v.Bool?
  }

  /** The number a numeric value stands for (`True` is 1). */
  function AsReal(v: Value): real
    requires IsNumber(v)
  {
    match v
    case Int(i) => i as real
    case Float(f) => f
    case Bool(b) => if b then 1.0 else 0.0
  }

  /** `d.get(key, default)` on a dictionary. */
  function Get(d: map<string, Value>, key: string, default: Value): (r: Value)
    ensures key in d ==> r == d[key]
    ensures key !in d ==> r == default
  {
    if key in d then d[key] else default
  }

  /** A list of strings as a JSON list. */
  function StrList(xs: seq<string>): (v: Value)
    ensures v.Arr? && |v.items| == |xs|
    ensures forall k :: 0 <= k < |xs| ==> v.items[k] == Str(xs[k])
  {
    Arr(seq(|xs|, k requires 0 <= k < |xs| => Str(xs[k])))
  }

  /**
   * `str(v)` for the values error messages show: strings as they are,
   * `None`, booleans and integers as Python writes them. Floats, lists
   * and dictionaries are shown by a placeholder.
   */
  function Show(v: Value): string {
    match v
    case Str(s) => s
    case Null => "None"
    case Bool(b) => if b then "True" else "False"
    case Int(i) => Strings.IntToString(i)
    case _ => "<value>"
  }
}
