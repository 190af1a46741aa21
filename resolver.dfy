/** Function resolution: recovering the function object that owns a code
    object by asking the garbage collector which objects refer to the code
    and taking the first of them that is a function. The reference count
    increment that goes with it is part of the stateful model (Prac). */
module Resolver {
  import opened Host

  /** What building the query tuple and calling `gc.get_referrers` produce. */
  datatype Referrers =
    | PackFailed              // PyTuple_Pack(1, code) failed
    | QueryFailed             // gc.get_referrers raised
    | Listed(objs: seq<Obj>)  // the list it returned, in list order

  /** Position k of `objs` holds a function and no earlier position does. */
  predicate FirstFunctionAt(objs: seq<Obj>, k: int) {
    && 0 <= k < |objs|
    && IsFunction(objs[k])
    && forall j :: 0 <= j < k ==> !IsFunction(objs[j])
  }

  /** The identity of the first function in `objs`, scanning in list order. */
  function FirstFunction(objs: seq<Obj>): (r: Option<ObjId>)
    ensures r.None? <==> forall i :: 0 <= i < |objs| ==> !IsFunction(objs[i])
    ensures r.Some? ==> exists k :: FirstFunctionAt(objs, k) && objs[k].id == r.value
  {
    if objs == [] then None
    else if IsFunction(objs[0]) then
      assert FirstFunctionAt(objs, 0);
      Some(objs[0].id)
    else
      var r := FirstFunction(objs[1..]);
      assert forall i :: 1 <= i < |objs| ==> objs[i] == objs[1..][i - 1];
      assert r.Some? ==> exists k :: FirstFunctionAt(objs, k) && objs[k].id == r.value by {
        if r.Some? {
          var k :| FirstFunctionAt(objs[1..], k) && objs[1..][k].id == r.value;
          assert FirstFunctionAt(objs, k + 1);
        }
      }
      r
  }

  /** The function get_function_for_code hands back, or None when the query
      cannot be built, the query fails, or no referrer is a function. */
  function Resolve(q: Referrers): Option<ObjId> {
    match q
    case PackFailed => None
    case QueryFailed => None
    case Listed(objs) => FirstFunction(objs)
  }

  /** The first function is unique: whichever position is the first function
      position determines the result. */
  lemma FirstFunctionIsAt(objs: seq<Obj>, k: int)
    requires FirstFunctionAt(objs, k)
    ensures FirstFunction(objs) == Some(objs[k].id)
  {
    // Follows from FirstFunction's contract: two first-function positions coincide.
  }

  /** Referrers that follow the first function are never looked at. */
  lemma {:induction false} FirstFunctionIgnoresTail(objs: seq<Obj>, rest: seq<Obj>)
    requires FirstFunction(objs).Some?
    ensures FirstFunction(objs + rest) == FirstFunction(objs)
  {
    var k :| FirstFunctionAt(objs, k) && objs[k].id == FirstFunction(objs).value;
    assert FirstFunctionAt(objs + rest, k);
    FirstFunctionIsAt(objs + rest, k);
  }
}
