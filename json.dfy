/** JSON-like values as the Python code sees them after `json.loads`, together
    with the few pieces of Python semantics the core relies on (truthiness,
    `isinstance(x, (int, float))`, `dict.get`). */
module Json {

  datatype Option<+T> = None | Some(value: T)

  datatype Json =
    | Null
    | Bool(b: bool)
    | Num(n: real)
    | Str(s: string)
    | Arr(items: seq<Json>)
    | Obj(fields: map<string, Json>)

  /** Python truthiness: None, False, 0, "", [] and {} are falsy. */
  predicate Truthy(j: Json) {
    match j
    case Null => false
    case Bool(b) => b
    case Num(n) => n != 0.0
    case Str(s) => s != []
    case Arr(xs) => xs != []
    case Obj(m) => m != map[]
  }

  /** `isinstance(x, (int, float))`: in Python `bool` is a subclass of `int`,
      so True and False pass this test too. */
  predicate IsNumber(j: Json) {
    j.Num? || j.Bool?
  }

  /** The numeric value Python uses for a number or a bool in a comparison. */
  function NumberValue(j: Json): (v: real)
    requires IsNumber(j)
    ensures j.Bool? ==> (v == 1.0 <==> j.b) && (v == 0.0 <==> !j.b)
  {
    match j
    case Num(n) => n
    case Bool(b) => if b then 1.0 else 0.0
  }

  /** `d.get(key, default)` on a dictionary. */
  function Get(m: map<string, Json>, key: string, default: Json): (r: Json)
    ensures key in m ==> r == m[key]
    ensures key !in m ==> r == default
  {
    if key in m then m[key] else default
  }

  /** A list of Python strings as a JSON array's items. */
  function Strs(xs: seq<string>): (r: seq<Json>)
    ensures |r| == |xs| && forall i :: 0 <= i < |xs| ==> r[i] == Str(xs[i])
  {
    if xs == [] then [] else [Str(xs[0])] + Strs(xs[1..])
  }

  /** `all(isinstance(x, str) for x in xs)`. */
  predicate AllStrings(xs: seq<Json>) {
    forall i :: 0 <= i < |xs| ==> xs[i].Str?
  }

  /** Outcome of a Python comparison chain `lo <= x <= hi` on a JSON value:
      a number or bool compares, anything else raises TypeError (None). */
  function InRange(j: Json, lo: real, hi: real): (r: Option<bool>)
    ensures r.Some? <==> IsNumber(j)
    ensures r == Some(true) <==> IsNumber(j) && lo <= NumberValue(j) <= hi
  {
    if IsNumber(j) then Some(lo <= NumberValue(j) <= hi) else None
  }

  /** What a Python validator that returns True or raises does: it passes,
      raises its own error with a message, or fails with some other
      exception (an attribute lookup or a comparison on the wrong type). */
  datatype Check = Passed | Refused(reason: string) | Crashed
}
