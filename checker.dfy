/** The annotation type-checker: for each `(name, type)` entry of a
    function's annotations, in iteration order, find the first variable of
    the code with that name, read the frame slot at that position and compare
    the exact type of its value with the annotated type by identity. The
    first mismatch is reported as a TypeError and ends the scan. */
module Checker {
  import opened Host

  /** One `(name, value)` pair of the annotations mapping's items. */
  datatype Item = Item(name: string, value: Obj)

  /** What asking a function's annotations mapping for its items and an
      iterator over them produces. A function without annotations has no
      mapping at all (None where an Option<Annotations> is expected). */
  datatype Annotations =
    | Entries(items: seq<Item>)  // the items, in the order the iterator yields them
    | ItemsFailed                // PyMapping_Items raised
    | IterFailed                 // PyObject_GetIter raised

  /** The TypeError raised on a mismatch: the parameter, the identity of the
      annotated type and the identity of the argument's exact type. */
  datatype TypeError = TypeError(param: string, expected: ObjId, actual: ObjId)

  /** The key the interpreter uses for a return annotation. */
  const ReturnKey: string := "return"

  /** The first position of `name` in `varnames`. */
  function IndexOf(name: string, varnames: seq<string>): (r: Option<nat>)
    ensures r.None? <==> name !in varnames
    ensures r.Some? ==> r.value < |varnames| && varnames[r.value] == name
    ensures r.Some? ==> forall j :: 0 <= j < r.value ==> varnames[j] != name
  {
    if varnames == [] then None
    else if varnames[0] == name then Some(0)
    else
      match IndexOf(name, varnames[1..])
      case None => None
      case Some(k) => Some(k + 1)
  }

  /** The value in the frame slot of the first variable called `name`. */
  function LocalNamed(name: string, f: Frame): Obj
    requires WellFormed(f) && name in f.code.varnames
  {
    f.locals[IndexOf(name, f.code.varnames).value]
  }

  /** The entry names a variable whose value has exactly the annotated type. */
  predicate Conforms(it: Item, f: Frame)
    requires WellFormed(f)
  {
    it.name in f.code.varnames && LocalNamed(it.name, f).typ == it.value.id
  }

  /** The entry names a variable whose value has some other exact type. */
  predicate Mismatches(it: Item, f: Frame)
    requires WellFormed(f)
  {
    it.name in f.code.varnames && LocalNamed(it.name, f).typ != it.value.id
  }

  /** The error reported for a mismatching entry. */
  function Violation(it: Item, f: Frame): TypeError
    requires WellFormed(f) && it.name in f.code.varnames
  {
    TypeError(it.name, it.value.id, LocalNamed(it.name, f).typ)
  }

  /** The scan over `items` does not abort: every entry it reaches names a
      variable of the code and is annotated with an exact type. Entries after
      the first mismatch are not reached. */
  predicate Checkable(items: seq<Item>, f: Frame)
    requires WellFormed(f)
  {
    items == [] ||
    (&& items[0].name in f.code.varnames
     && IsExactType(items[0].value)
     && (Conforms(items[0], f) ==> Checkable(items[1..], f)))
  }

  /** The entry scan as the loop performs it: None when every entry conforms,
      otherwise the violation of the first entry that does not. */
  function Scan(items: seq<Item>, f: Frame): Option<TypeError>
    requires WellFormed(f) && Checkable(items, f)
  {
    if items == [] then None
    else if Mismatches(items[0], f) then Some(Violation(items[0], f))
    else Scan(items[1..], f)
  }

  /** Position k holds the first entry that does not conform, and all the
      entries before it do. */
  predicate FirstMismatchAt(items: seq<Item>, f: Frame, k: int)
    requires WellFormed(f)
  {
    && 0 <= k < |items|
    && Mismatches(items[k], f)
    && forall j :: 0 <= j < k ==> Conforms(items[j], f)
  }

  /** The items with the return annotation taken out, in their order. */
  function ParameterItems(items: seq<Item>): (r: seq<Item>)
    ensures |r| <= |items|
    ensures forall it :: it in r <==> it in items && it.name != ReturnKey
  {
    if items == [] then []
    else if items[0].name == ReturnKey then ParameterItems(items[1..])
    else [items[0]] + ParameterItems(items[1..])
  }

  /** A single entry survives exactly when it is not the return annotation. */
  lemma ParameterItemsOfOne(it: Item)
    ensures ParameterItems([it]) == if it.name == ReturnKey then [] else [it]
  {
    assert [it][1..] == [];
  }

  /** Taking out the return annotation distributes over concatenation, so
      the surviving entries keep their relative order. */
  lemma {:induction false} ParameterItemsAppend(a: seq<Item>, b: seq<Item>)
    ensures ParameterItems(a + b) == ParameterItems(a) + ParameterItems(b)
  {
    if a == [] {
      assert a + b == b;
    } else {
      assert (a + b)[0] == a[0];
      assert (a + b)[1..] == a[1..] + b;
      ParameterItemsAppend(a[1..], b);
    }
  }

  /** The checker's input is fit to check: there are no annotations, getting
      them fails, or the scan over the parameter entries does not abort. */
  predicate AnnotationsCheckable(ann: Option<Annotations>, f: Frame)
    requires WellFormed(f)
  {
    ann.Some? && ann.value.Entries? ==> Checkable(ParameterItems(ann.value.items), f)
  }

  /** do_type_checking, with the return annotation skipped: no annotations
      and failures to get them mean no violation; otherwise the scan's
      verdict over the parameter entries. */
  function Check(ann: Option<Annotations>, f: Frame): Option<TypeError>
    requires WellFormed(f) && AnnotationsCheckable(ann, f)
  {
    match ann
    case None => None
    case Some(ItemsFailed) => None
    case Some(IterFailed) => None
    case Some(Entries(items)) => Scan(ParameterItems(items), f)
  }

  /** The scan finds no violation exactly when every entry conforms. */
  lemma {:induction false} ScanPassesIffAllConform(items: seq<Item>, f: Frame)
    requires WellFormed(f) && Checkable(items, f)
    ensures Scan(items, f) == None <==> forall i :: 0 <= i < |items| ==> Conforms(items[i], f)
  {
    if items != [] {
      if !Mismatches(items[0], f) {
        ScanPassesIffAllConform(items[1..], f);
        assert forall i :: 1 <= i < |items| ==> items[i] == items[1..][i - 1];
      }
    }
  }

  /** The first entry that does not conform is the one reported. */
  lemma {:induction false} ScanReportsFirstMismatch(items: seq<Item>, f: Frame, k: int)
    requires WellFormed(f) && Checkable(items, f) && FirstMismatchAt(items, f, k)
    ensures Scan(items, f) == Some(Violation(items[k], f))
  {
    if k > 0 {
      assert Conforms(items[0], f);
      assert FirstMismatchAt(items[1..], f, k - 1) by {
        assert forall j :: 0 <= j < k - 1 ==> items[1..][j] == items[j + 1];
      }
      ScanReportsFirstMismatch(items[1..], f, k - 1);
    }
  }

  /** Any violation the scan reports is that of the first mismatching entry. */
  lemma {:induction false} ScanViolationIsFirstMismatch(items: seq<Item>, f: Frame)
    requires WellFormed(f) && Checkable(items, f) && Scan(items, f).Some?
    ensures exists k :: FirstMismatchAt(items, f, k) && Scan(items, f) == Some(Violation(items[k], f))
  {
    if Mismatches(items[0], f) {
      assert FirstMismatchAt(items, f, 0);
    } else {
      ScanViolationIsFirstMismatch(items[1..], f);
      var k :| FirstMismatchAt(items[1..], f, k) && Scan(items[1..], f) == Some(Violation(items[1..][k], f));
      assert FirstMismatchAt(items, f, k + 1) by {
        assert forall j :: 1 <= j < k + 1 ==> items[j] == items[1..][j - 1];
      }
    }
  }

  /** Entries after the first mismatch are never examined: whatever follows,
      even entries that would abort the scan, the outcome is the same. */
  lemma {:induction false} ScanStopsAtFirstMismatch(items: seq<Item>, rest: seq<Item>, f: Frame)
    requires WellFormed(f) && Checkable(items, f) && Scan(items, f).Some?
    ensures Checkable(items + rest, f) && Scan(items + rest, f) == Scan(items, f)
  {
    assert (items + rest)[0] == items[0];
    if !Mismatches(items[0], f) {
      assert (items + rest)[1..] == items[1..] + rest;
      ScanStopsAtFirstMismatch(items[1..], rest, f);
    }
  }

  /** Types are compared by identity: a one-parameter annotation passes
      exactly when the argument's exact type is the annotated type, so an
      instance of a subclass is rejected like any other type. */
  lemma ExactTypeOnly(x: string, t: Obj, arg: Obj, c: ObjId)
    requires IsExactType(t)
    ensures var f := Frame(Code(c, [x]), [arg]);
      && Checkable([Item(x, t)], f)
      && Scan([Item(x, t)], f) == (if arg.typ == t.id then None else Some(TypeError(x, t.id, arg.typ)))
  {
  }

  /** `g(x: int, y: str)` called as `g(1, 2)`: x conforms, so the error is
      the one about y, the first mismatch. */
  lemma FirstMismatchWins(x: string, y: string, tx: Obj, ty: Obj, a: Obj, b: Obj, c: ObjId)
    requires x != y && IsExactType(tx) && IsExactType(ty)
    requires a.typ == tx.id && b.typ != ty.id
    ensures var f := Frame(Code(c, [x, y]), [a, b]);
      && Checkable([Item(x, tx), Item(y, ty)], f)
      && Scan([Item(x, tx), Item(y, ty)], f) == Some(TypeError(y, ty.id, b.typ))
  {
  }

  // The return annotation (see README, Findings).

  /** As written, the scan aborts on any function whose annotations reach a
      return entry: the interpreter never names a variable `return`, so the
      position search runs off the end of the variable names. */
  lemma {:induction false} ReturnAnnotationAborts(pre: seq<Item>, v: Obj, post: seq<Item>, f: Frame)
    requires WellFormed(f) && ReturnKey !in f.code.varnames
    requires Checkable(pre, f) && Scan(pre, f) == None
    ensures !Checkable(pre + [Item(ReturnKey, v)] + post, f)
  {
    var items := pre + [Item(ReturnKey, v)] + post;
    if pre != [] {
      assert items[0] == pre[0];
      assert items[1..] == pre[1..] + [Item(ReturnKey, v)] + post;
      ReturnAnnotationAborts(pre[1..], v, post, f);
    }
  }

  /** `def f(x: int) -> int` called as `f(1)`: the items are x then return,
      and the as-written scan aborts where the corrected check passes. */
  lemma ReturnAnnotationExample(int_: Obj, one: Obj, c: ObjId)
    requires IsExactType(int_) && one.typ == int_.id
    ensures var f := Frame(Code(c, ["x"]), [one]);
      var items := [Item("x", int_), Item(ReturnKey, int_)];
      && !Checkable(items, f)
      && AnnotationsCheckable(Some(Entries(items)), f)
      && Check(Some(Entries(items)), f) == None
  {
    var f := Frame(Code(c, ["x"]), [one]);
    assert IndexOf("x", f.code.varnames) == Some(0);
    ReturnAnnotationAborts([Item("x", int_)], int_, [], f);
    assert [Item("x", int_)] + [Item(ReturnKey, int_)] + [] == [Item("x", int_), Item(ReturnKey, int_)];
    assert ParameterItems([Item("x", int_), Item(ReturnKey, int_)]) == [Item("x", int_)];
  }

  /** The corrected check ignores the return entry wherever it stands. */
  lemma {:induction false} ReturnEntryIgnored(pre: seq<Item>, v: Obj, post: seq<Item>)
    ensures ParameterItems(pre + [Item(ReturnKey, v)] + post) == ParameterItems(pre + post)
  {
    if pre == [] {
      assert (pre + [Item(ReturnKey, v)] + post)[1..] == post;
      assert pre + post == post;
    } else {
      assert (pre + [Item(ReturnKey, v)] + post)[1..] == pre[1..] + [Item(ReturnKey, v)] + post;
      assert (pre + post)[1..] == pre[1..] + post;
      ReturnEntryIgnored(pre[1..], v, post);
    }
  }

  /** Wherever the scan as written does not abort, the corrected check does
      not abort either and reaches the same verdict. */
  lemma {:induction false} CheckAgreesWithAsWritten(items: seq<Item>, f: Frame)
    requires WellFormed(f) && ReturnKey !in f.code.varnames
    requires Checkable(items, f)
    ensures Checkable(ParameterItems(items), f)
    ensures Scan(ParameterItems(items), f) == Scan(items, f)
  {
    if items != [] {
      assert items[0].name != ReturnKey;
      var p := ParameterItems(items);
      assert p == [items[0]] + ParameterItems(items[1..]);
      assert p[0] == items[0] && p[1..] == ParameterItems(items[1..]);
      if Conforms(items[0], f) {
        CheckAgreesWithAsWritten(items[1..], f);
      }
    }
  }

  /** The parameter items from position n on, split at n. */
  lemma ParameterItemsFrom(items: seq<Item>, n: nat)
    requires n < |items|
    ensures ParameterItems(items[n..]) ==
      if items[n].name == ReturnKey then ParameterItems(items[n + 1..])
      else [items[n]] + ParameterItems(items[n + 1..])
  {
    assert items[n..][0] == items[n] && items[n..][1..] == items[n + 1..];
  }

  /** One step of the scan over a non-empty entry list. */
  lemma ScanStep(p: seq<Item>, f: Frame)
    requires WellFormed(f) && p != [] && Checkable(p, f)
    ensures p[0].name in f.code.varnames && IsExactType(p[0].value)
    ensures Mismatches(p[0], f) ==> Scan(p, f) == Some(Violation(p[0], f))
    ensures !Mismatches(p[0], f) ==> Checkable(p[1..], f) && Scan(p, f) == Scan(p[1..], f)
  {
  }

  /** The position search of do_type_checking: the index of the first
      variable name equal to `name`, or |varnames| when there is none. */
  method VarnameIndex(name: string, varnames: seq<string>) returns (idx: nat)
    ensures idx <= |varnames|
    ensures IndexOf(name, varnames) == if idx == |varnames| then None else Some(idx)
  {
    idx := 0;
    while idx < |varnames|
      invariant idx <= |varnames|
      invariant forall j :: 0 <= j < idx ==> varnames[j] != name
    {
      if varnames[idx] == name {
        break;
      }
      idx := idx + 1;
    }
  }

  /** do_type_checking, with the return entry skipped: walks the items in
      iterator order, finds each parameter's position with VarnameIndex, and
      stops at the first entry whose argument does not have exactly the
      annotated type, reporting it. */
  method DoTypeChecking(ann: Option<Annotations>, f: Frame) returns (raised: Option<TypeError>)
    requires WellFormed(f) && AnnotationsCheckable(ann, f)
    ensures raised == Check(ann, f)
  {
    if ann.None? {
      return None;
    }
    if !ann.value.Entries? {
      // PyMapping_Items or PyObject_GetIter failed: the error is cleared.
      return None;
    }
    var items := ann.value.items;
    var varnames := f.code.varnames;
    raised := None;
    var n := 0;
    while n < |items|
      invariant 0 <= n <= |items|
      invariant raised == None
      invariant Checkable(ParameterItems(items[n..]), f)
      invariant Scan(ParameterItems(items[n..]), f) == Scan(ParameterItems(items), f)
    {
      var item := items[n];
      ParameterItemsFrom(items, n);
      if item.name == ReturnKey {
        n := n + 1;
        continue;
      }
      ghost var p := ParameterItems(items[n..]);
      assert p[0] == item && p[1..] == ParameterItems(items[n + 1..]);
      ScanStep(p, f);
      var idx := VarnameIndex(item.name, varnames);
      var arg := f.locals[idx];
      var expected := item.value;
      if arg.typ != expected.id {
        raised := Some(TypeError(item.name, expected.id, arg.typ));
        break;
      }
      n := n + 1;
    }
    assert n == |items| ==> items[n..] == [];
  }
}
