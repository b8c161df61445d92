/** An optional value: `None` stands for PHP's `null` in a nullable field. */
module Wrappers {
  datatype Option<+T> = None | Some(value: T)
}

/**
 * The slice of PHP's value semantics that the activity controller relies on:
 * request parameters, `is_null`, loose comparison with `null` and `'true'`,
 * truthiness, and `$array['key']`.
 */
module Php {

  /** A decoded request parameter (JSON body or query string). */
  datatype Value =
    | Null
    | Bool(b: bool)
    | Int(i: int)
    | Str(s: string)
    | Arr(entries: map<string, Value>)

  /** `$request->get($key)`: the parameter's value, `null` for a parameter the request lacks. */
  function Get<K>(request: map<K, Value>, key: K): (v: Value)
    ensures key !in request ==> v == Null
    ensures key in request ==> v == request[key]
  {
    if key in request then request[key] else Null
  }

  /** `$v[$key]`: the entry of an array, `null` for a missing key or a non-array. */
  function Index(v: Value, key: string): (r: Value)
    ensures r != Null ==> v.Arr? && key in v.entries && r == v.entries[key]
    ensures v.Arr? && key in v.entries ==> r == v.entries[key]
    ensures !(v.Arr? && key in v.entries) ==> r == Null
  {
    match v
    case Arr(m) => if key in m then m[key] else Null
    case _ => Null
  }

  /** `is_null($v)`: strict. */
  predicate IsNull(v: Value) {
    v == Null
  }

  /** `(bool) $v`: false for null, false, 0, "", "0" and the empty array. */
  function Truthy(v: Value): (r: bool)
    ensures !r <==> v in {Null, Bool(false), Int(0), Str(""), Str("0"), Arr(map[])}
  {
    match v
    case Null => false
    case Bool(b) => b
    case Int(i) => i != 0
    case Str(s) => s != "" && s != "0"
    case Arr(m) => |m| != 0
  }

  /**
   * `$v == null`, following PHP's loose-comparison table: null against a
   * string compares the string with "", null against anything else compares
   * booleans.  So "0" is not loosely null although it is falsy.
   */
  function LooselyNull(v: Value): (r: bool)
    ensures r <==> !Truthy(v) && v != Str("0")
    ensures IsNull(v) ==> r
  {
    match v
    case Null => true
    case Bool(b) => !b
    case Int(i) => i == 0
    case Str(s) => s == ""
    case Arr(m) => m == map[]
  }

  /**
   * `$v == 'true'` under PHP 8's loose comparison: a string compares as a
   * string, a boolean against the (truthy) string 'true', null as "", an
   * integer against a non-numeric string as its decimal text, an array never.
   */
  function LooselyEqualsTrueText(v: Value): (r: bool)
    ensures r <==> v == Str("true") || v == Bool(true)
  {
    match v
    case Null => false
    case Bool(b) => b
    case Int(_) => false
    case Str(s) => s == "true"
    case Arr(_) => false
  }
}
