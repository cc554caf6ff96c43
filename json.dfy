/** The JSON values the language-model replies decode to, and the Python
    dictionary accessors the crawler applies to them. Floating-point numbers
    are not modelled: every number is an integer. */
module JsonValue {
  import opened Wrappers

  datatype Json =
    | JNull
    | JBool(b: bool)
    | JInt(i: int)
    | JStr(s: string)
    | JArr(items: seq<Json>)
    | JObj(fields: map<string, Json>)

  /** Python's `d.get(key, default)`. */
  function Get(m: map<string, Json>, key: string, default: Json): Json {
    if key in m then m[key] else default
  }

  /** Python truthiness of a decoded JSON value. */
  predicate Truthy(j: Json) {
    match j
    case JNull => false
    case JBool(b) => b
    case JInt(i) => i != 0
    case JStr(s) => s != []
    case JArr(xs) => xs != []
    case JObj(m) => m != map[]
  }

  /** The value as a number in a Python comparison: integers, and booleans as 0 and 1.
      Any other value makes a comparison with a number raise `TypeError`. */
  function AsNumber(j: Json): Option<int> {
    match j
    case JInt(i) => Some(i)
    case JBool(b) => Some(if b then 1 else 0)
    case _ => None
  }

  /** `', '.join(j)` succeeds: a string, an object (its keys) or a list of strings. */
  predicate Joinable(j: Json) {
    match j
    case JStr(_) => true
    case JObj(_) => true
    case JArr(xs) => forall k :: 0 <= k < |xs| ==> xs[k].JStr?
    case _ => false
  }

  /** The strings a `for x in j` loop over a decoded value sees: the items of a
      list of strings, or the one-character strings of a string. */
  function StrItems(j: Json): (r: seq<string>)
    ensures j.JArr? && Joinable(j) ==> |r| == |j.items|
  {
    match j
    case JStr(s) => seq(|s|, k requires 0 <= k < |s| => [s[k]])
    case JArr(xs) => StrList(xs)
    case _ => []
  }

  /** The string items of a list, in order. */
  function StrList(xs: seq<Json>): (r: seq<string>)
    ensures |r| <= |xs|
    ensures (forall k :: 0 <= k < |xs| ==> xs[k].JStr?) ==>
              |r| == |xs| && forall k :: 0 <= k < |xs| ==> r[k] == xs[k].s
  {
    if xs == [] then []
    else
      var rest := StrList(xs[1..]);
      if xs[0].JStr? then [xs[0].s] + rest else rest
  }

  /** A JSON list of strings. */
  function StrArr(xs: seq<string>): (j: Json)
    ensures j.JArr? && |j.items| == |xs|
  {
    JArr(seq(|xs|, k requires 0 <= k < |xs| => JStr(xs[k])))
  }

  /** A list of strings encoded as JSON reads back as the same list. */
  lemma StrArrRoundTrip(xs: seq<string>)
    ensures Joinable(StrArr(xs)) && StrItems(StrArr(xs)) == xs
  {
  }
}
