/**
 * The part of PHP's value model and of its array and string built-ins that the
 * SalesManago client relies on.
 */
module Php {

  /**
   * A PHP value as the client meets it: request data, Guzzle request options and
   * what `json_decode` produces. Floats are not modelled.
   */
  datatype Value =
    | Null
    | Bool(b: bool)
    | Int(i: int)
    | Str(s: string)
    | List(elems: seq<Value>)           // an array keyed 0..n-1, e.g. a decoded JSON array
    | Dict(entries: map<string, Value>) // an array whose keys are all strings
    | Object(props: map<string, Value>) // a stdClass instance, e.g. a decoded JSON object

  /**
   * PHP's conversion to bool. For a defined variable, `!$v` and `empty($v)` are
   * both `!Truthy(v)`: the falsy values are null, false, 0, "", "0" and the empty
   * array; every object is truthy.
   */
  predicate Truthy(v: Value) {
    match v
    case Null => false
    case Bool(b) => b
    case Int(i) => i != 0
    case Str(s) => s != "" && s != "0"
    case List(elems) => elems != []
    case Dict(entries) => entries != map[]
    case Object(_) => true
  }

  /**
   * `rtrim($s, $c)` for a single character c: `s` without its trailing run of c.
   * The result is a prefix of s, everything cut off is c, and the result does
   * not itself end in c.
   */
  function RTrim(s: string, c: char): (r: string)
    ensures |r| <= |s| && r == s[..|r|]
    ensures forall i :: |r| <= i < |s| ==> s[i] == c
    ensures r == [] || r[|r| - 1] != c
    decreases |s|
  {
    if s != [] && s[|s| - 1] == c then RTrim(s[..|s| - 1], c) else s
  }

  /** The three properties of RTrim determine its result: no other prefix has them. */
  lemma RTrimUnique(s: string, c: char, p: string)
    requires |p| <= |s| && p == s[..|p|]
    requires forall i :: |p| <= i < |s| ==> s[i] == c
    requires p == [] || p[|p| - 1] != c
    ensures p == RTrim(s, c)
  {
  }

  /**
   * `array_merge($a, $b)` for arrays whose keys are all strings: every key of
   * either array, with the value from b wherever b has the key.
   */
  function ArrayMerge<V>(a: map<string, V>, b: map<string, V>): (r: map<string, V>)
    ensures r.Keys == a.Keys + b.Keys
    ensures forall k :: k in b ==> r[k] == b[k]
    ensures forall k :: k in a && k !in b ==> r[k] == a[k]
  {
    a + b
  }

  /**
   * `array_filter($a, fn ($v) => $v !== null)`: the entries whose value is not
   * identical to null. false, 0, "" and empty arrays stay.
   */
  function WithoutNulls(a: map<string, Value>): (r: map<string, Value>)
    ensures forall k :: k in r <==> k in a && a[k] != Null
    ensures forall k :: k in r ==> r[k] == a[k]
  {
    map k | k in a && a[k] != Null :: a[k]
  }
}
