/** Decoded JSON values, as `res.json()` hands them to app.js, and the few pieces of
    JavaScript value semantics the core relies on: truthiness, property reads on objects,
    `Number(…)` and `Math.round`. */
module Json {
  import opened Wrappers

  /** A decoded JSON value. A number is the exact value of the double it decodes to.
      An object keeps its members in the order `for…in` enumerates them; after
      `JSON.parse` its keys are distinct. */
  datatype Json =
    | Null
    | Bool(b: bool)
    | Num(n: real)
    | Str(s: string)
    | Arr(elems: seq<Json>)
    | Obj(members: seq<(string, Json)>)

  /** The truthiness JavaScript gives a property read: `undefined` (`None`), `null`,
      `false`, `0` and `""` are falsy, everything else, empty arrays and objects included,
      is truthy. */
  predicate Truthy(v: Option<Json>)
    ensures Truthy(v) <==> v.Some? && v.value !in {Null, Bool(false), Num(0.0), Str("")}
  {
    match v
    case None => false
    case Some(Null) => false
    case Some(Bool(b)) => b
    case Some(Num(n)) => n != 0.0
    case Some(Str(s)) => s != ""
    case Some(Arr(_)) => true
    case Some(Obj(_)) => true
  }

  /** `a || b`: the left operand when it is truthy, otherwise the right one. */
  function Or(a: Option<Json>, b: Option<Json>): (r: Option<Json>)
    ensures r == a || r == b
    ensures Truthy(r) <==> Truthy(a) || Truthy(b)
    ensures Truthy(a) ==> r == a
    ensures !Truthy(a) ==> r == b
  {
    if Truthy(a) then a else b
  }

  /** `obj[key]` on an object with the given members: the member's value, or
      `undefined` when the object has no such key. */
  function Lookup(members: seq<(string, Json)>, key: string): (r: Option<Json>)
    ensures r.None? <==> forall i :: 0 <= i < |members| ==> members[i].0 != key
    ensures r.Some? ==> exists i :: 0 <= i < |members| && members[i] == (key, r.value)
  {
    if members == [] then None
    else if members[0].0 == key then Some(members[0].1)
    else Lookup(members[1..], key)
  }

  /** The result of JavaScript's `Number(…)`: not a number, or a finite value. */
  datatype JsNumber = NaN | Finite(x: real)

  /** `Math.round(x)`: the integer nearest to `x`, halves rounded towards +∞. */
  function Round(x: real): (r: int)
    ensures r as real - 0.5 <= x < r as real + 0.5
  {
    (x + 0.5).Floor
  }
}
