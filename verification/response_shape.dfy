/** `findArrayInResponse`: the heuristic that locates the list of items inside a decoded
    response whose shape is not fixed. It looks at the value itself, then at the
    top-level members in key order, then one level into object-valued members, and
    nowhere deeper. */
module ResponseShape {
  import opened Wrappers
  import opened Json

  /** The position of the first member whose value is an array; `|members|` when there
      is none. */
  function FirstArrayMember(members: seq<(string, Json)>): (i: nat)
    ensures i <= |members|
    ensures i < |members| ==> members[i].1.Arr?
    ensures forall j :: 0 <= j < i ==> !members[j].1.Arr?
  {
    if members == [] || members[0].1.Arr? then 0
    else
      var i := 1 + FirstArrayMember(members[1..]);
      assert forall j :: 1 <= j < |members| ==> members[j] == members[1..][j - 1];
      i
  }

  /** `v` is an object (`typeof v === 'object' && v !== null`, arrays aside) one of whose
      members is an array. */
  predicate HoldsArray(v: Json) {
    v.Obj? && FirstArrayMember(v.members) < |v.members|
  }

  /** The position of the first member whose value is an object holding an array;
      `|members|` when there is none. */
  function FirstArrayHolder(members: seq<(string, Json)>): (k: nat)
    ensures k <= |members|
    ensures k < |members| ==> HoldsArray(members[k].1)
    ensures forall j :: 0 <= j < k ==> !HoldsArray(members[j].1)
  {
    if members == [] || HoldsArray(members[0].1) then 0
    else
      var k := 1 + FirstArrayHolder(members[1..]);
      assert forall j :: 1 <= j < |members| ==> members[j] == members[1..][j - 1];
      k
  }

  /** What `findArrayInResponse(json)` returns: the array itself, else the first
      array-valued member, else the first array among the members of the first
      object-valued member that has one, else `null` (`None`). A string, number,
      boolean or `null` holds no array the loops can reach. */
  function FindArray(json: Json): Option<seq<Json>> {
    match json
    case Arr(a) => Some(a)
    case Obj(m) =>
      var i := FirstArrayMember(m);
      if i < |m| then Some(m[i].1.elems)
      else
        var k := FirstArrayHolder(m);
        if k < |m| then
          var inner := m[k].1.members;
          Some(inner[FirstArrayMember(inner)].1.elems)
        else None
    case _ => None
  }

  /** `findArrayInResponse(json)`, with its three `for…in` loops and early returns. */
  method FindArrayInResponse(json: Json) returns (r: Option<seq<Json>>)
    ensures r == FindArray(json)
  {
    if json.Arr? {
      return Some(json.elems);
    }
    if !json.Obj? {
      return None;
    }
    var m := json.members;
    var k := 0;
    while k < |m|
      invariant 0 <= k <= |m|
      invariant forall j :: 0 <= j < k ==> !m[j].1.Arr?
    {
      if m[k].1.Arr? {
        return Some(m[k].1.elems);
      }
      k := k + 1;
    }
    k := 0;
    while k < |m|
      invariant 0 <= k <= |m|
      invariant forall j :: 0 <= j < k ==> !HoldsArray(m[j].1)
    {
      if m[k].1.Obj? {
        var inner := m[k].1.members;
        var j := 0;
        while j < |inner|
          invariant 0 <= j <= |inner|
          invariant forall i :: 0 <= i < j ==> !inner[i].1.Arr?
        {
          if inner[j].1.Arr? {
            return Some(inner[j].1.elems);
          }
          j := j + 1;
        }
      }
      k := k + 1;
    }
    return None;
  }

  /** Some member of `members` is an array. */
  ghost predicate TopLevelArray(members: seq<(string, Json)>) {
    exists i :: 0 <= i < |members| && members[i].1.Arr?
  }

  /** Some member of `members` is an object with an array-valued member. */
  ghost predicate NestedArray(members: seq<(string, Json)>) {
    exists k, j :: 0 <= k < |members| && members[k].1.Obj? && 0 <= j < |members[k].1.members|
      && members[k].1.members[j].1.Arr?
  }

  /** The first array-valued top-level member, in key order, is the one returned; an
      array nested deeper does not compete with it, wherever it sits. */
  lemma TopLevelArrayWins(m: seq<(string, Json)>, i: nat)
    requires i < |m| && m[i].1.Arr?
    requires forall j :: 0 <= j < i ==> !m[j].1.Arr?
    ensures FindArray(Obj(m)) == Some(m[i].1.elems)
  {
  }

  /** With no array at the top level, the array returned is the first one in key order
      among the members of the first object-valued member that holds one. */
  lemma NestedArrayInKeyOrder(m: seq<(string, Json)>, k: nat, j: nat)
    requires !TopLevelArray(m)
    requires k < |m| && m[k].1.Obj? && j < |m[k].1.members| && m[k].1.members[j].1.Arr?
    requires forall k' :: 0 <= k' < k ==> !HoldsArray(m[k'].1)
    requires forall j' :: 0 <= j' < j ==> !m[k].1.members[j'].1.Arr?
    ensures FindArray(Obj(m)) == Some(m[k].1.members[j].1.elems)
  {
  }

  /** `null` comes back exactly when the input is not an array and holds no array at
      the top level nor one level down. */
  lemma NotFoundIff(json: Json)
    ensures FindArray(json).None? <==>
      !json.Arr? && (json.Obj? ==> !TopLevelArray(json.members) && !NestedArray(json.members))
  {
  }

  /** Whatever is found sits at most two levels deep: it is the input, a top-level
      member's value, or the value of a member of a top-level object. An array any
      deeper is never returned. */
  lemma FoundWithinTwoLevels(json: Json)
    requires FindArray(json).Some?
    ensures var a := FindArray(json).value;
      json == Arr(a) ||
      (json.Obj? && exists i :: 0 <= i < |json.members| && json.members[i].1 == Arr(a)) ||
      (json.Obj? && exists k, j :: (0 <= k < |json.members| && json.members[k].1.Obj?
         && 0 <= j < |json.members[k].1.members| && json.members[k].1.members[j].1 == Arr(a)))
  {
  }

  /** The response shapes the detector is meant for: a bare array, `{data: {items: […]}}`
      and `{foo: 1}`; and an array three levels down, which it does not find. */
  lemma ExampleShapes(items: seq<Json>)
    ensures FindArray(Arr(items)) == Some(items)
    ensures FindArray(Obj([("data", Obj([("items", Arr(items))]))])) == Some(items)
    ensures FindArray(Obj([("foo", Num(1.0))])) == None
    ensures FindArray(Obj([("a", Obj([("b", Obj([("c", Arr(items))]))]))])) == None
  {
  }
}
