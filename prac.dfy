/** The frame-evaluation hook and its per-code cache. Every code object has
    one extra slot at the index the hook registered; it is NULL until the
    code first runs, and then holds either the function found for the code
    (with a reference the slot owns) or SENTINEL, meaning that no function
    was found and none will be looked for again. The hook checks the
    function's annotations against the frame and either raises the TypeError
    or hands the frame to the default evaluator. */
module Prac {
  import opened Host
  import opened Resolver
  import opened Checker

  type CodeId = ObjId

  /** The value in a code object's extra slot. */
  datatype Extra = Null | Sentinel | Held(func: ObjId)

  /** What the interpreter answers, or produces, during one evaluation of a
      frame: these are the calls into the host that the hook makes. */
  datatype Env = Env(
    extraReadable: bool,                  // _PyCode_GetExtra returns 0
    referrers: Referrers,                 // building and running the referrers query
    extraWritable: bool,                  // _PyCode_SetExtra succeeds
    annotations: map<ObjId, Annotations>, // func_annotations of each function; absent is NULL
    evalDefault: Option<Obj>)             // what _PyEval_EvalFrameDefault returns; None is NULL

  /** What the hook returns. */
  datatype Outcome =
    | Raised(error: TypeError)        // NULL, with the TypeError set
    | Evaluated(result: Option<Obj>)  // the default evaluator ran; its result is passed through

  /** The hook's view of the interpreter: the extra slot of every code object
      (absent is NULL), the reference counts of function objects as changed by
      the hook (absent is no change), how often each code object's function
      was resolved, and the references taken for slots that could not be
      written. The last two are bookkeeping; the interpreter has neither. */
  datatype State = State(
    extra: map<CodeId, Extra>,
    refcnt: map<ObjId, int>,
    resolutions: map<CodeId, nat>,
    leaked: map<ObjId, nat>)

  function Get(extra: map<CodeId, Extra>, c: CodeId): Extra {
    if c in extra then extra[c] else Null
  }

  function RefCount(m: map<ObjId, int>, o: ObjId): int {
    if o in m then m[o] else 0
  }

  function Tally(m: map<nat, nat>, k: nat): nat {
    if k in m then m[k] else 0
  }

  /** Py_INCREF. */
  function Incr(m: map<ObjId, int>, o: ObjId): map<ObjId, int> {
    m[o := RefCount(m, o) + 1]
  }

  /** Py_DECREF. */
  function Decr(m: map<ObjId, int>, o: ObjId): map<ObjId, int> {
    m[o := RefCount(m, o) - 1]
  }

  function Bump(m: map<nat, nat>, k: nat): map<nat, nat> {
    m[k := Tally(m, k) + 1]
  }

  /** func->func_annotations, None for NULL. */
  function AnnotationsOf(env: Env, fn: ObjId): Option<Annotations> {
    if fn in env.annotations then Some(env.annotations[fn]) else None
  }

  /** The function whose annotations the hook checks for this frame, if any:
      none when the slot cannot be read or holds SENTINEL, the held function,
      or, for a NULL slot, the function that resolution finds. */
  function Target(s: State, f: Frame, env: Env): Option<ObjId> {
    if !env.extraReadable then None
    else match Get(s.extra, f.code.id)
      case Null => Resolve(env.referrers)
      case Sentinel => None
      case Held(fn) => Some(fn)
  }

  /** The call does not abort the process: the frame is laid out for its code
      and the function to check (if any) has checkable annotations. */
  predicate NoAbort(s: State, f: Frame, env: Env) {
    && WellFormed(f)
    && var t := Target(s, f, env);
       t.Some? ==> AnnotationsCheckable(AnnotationsOf(env, t.value), f)
  }

  /** The hook's state after one call: only a readable NULL slot changes
      anything. Resolution runs once, a found function gains a reference, and
      the slot receives the function or SENTINEL; if the write fails the slot
      stays NULL and the reference has no owner. */
  function NextState(s: State, f: Frame, env: Env): State {
    var c := f.code.id;
    if env.extraReadable && Get(s.extra, c) == Null then
      var func := Resolve(env.referrers);
      var s1 := s.(refcnt := if func.Some? then Incr(s.refcnt, func.value) else s.refcnt,
                   resolutions := Bump(s.resolutions, c));
      if env.extraWritable then
        s1.(extra := s.extra[c := if func.Some? then Held(func.value) else Sentinel])
      else if func.Some? then
        s1.(leaked := Bump(s.leaked, func.value))
      else s1
    else s
  }

  /** What the hook returns for one call: the TypeError when the target
      function's check reports one, otherwise the default evaluator's result. */
  function Dispatch(s: State, f: Frame, env: Env): Outcome
    requires NoAbort(s, f, env)
  {
    match Target(s, f, env)
    case None => Evaluated(env.evalDefault)
    case Some(fn) =>
      match Check(AnnotationsOf(env, fn), f)
      case Some(e) => Raised(e)
      case None => Evaluated(env.evalDefault)
  }

  /** The interpreter destroys code object c: the release callback gets the
      slot's value, then the slot (and the code's bookkeeping) is gone. */
  function Destroyed(s: State, c: CodeId): State {
    var e := Get(s.extra, c);
    s.(extra := s.extra - {c},
       refcnt := if e.Held? then Decr(s.refcnt, e.func) else s.refcnt,
       resolutions := s.resolutions - {c})
  }

  /** The code objects whose slot holds a reference to fn. */
  function Holders(extra: map<CodeId, Extra>, fn: ObjId): set<CodeId> {
    set c | c in extra && extra[c] == Held(fn)
  }

  /** Reference ownership: every reference the hook took to a function is
      owned by exactly one slot holding it, or was taken for a slot that could
      not be written. */
  ghost predicate Accounted(s: State) {
    forall fn: ObjId :: RefCount(s.refcnt, fn) == |Holders(s.extra, fn)| + Tally(s.leaked, fn)
  }

  /** One frame evaluation, as a value. */
  datatype Call = Call(frame: Frame, env: Env)

  /** The state after a sequence of calls, in order. */
  function Run(s: State, calls: seq<Call>): State
    decreases |calls|
  {
    if calls == [] then s
    else Run(NextState(s, calls[0].frame, calls[0].env), calls[1..])
  }

  lemma HoldersAfterStore(extra: map<CodeId, Extra>, c: CodeId, v: Extra, g: ObjId)
    requires !Get(extra, c).Held?
    ensures c !in Holders(extra, g)
    ensures Holders(extra[c := v], g) == Holders(extra, g) + (if v == Held(g) then {c} else {})
  {
  }

  lemma HoldersAfterRemove(extra: map<CodeId, Extra>, c: CodeId, g: ObjId)
    ensures Holders(extra - {c}, g) == Holders(extra, g) - {c}
    ensures Get(extra, c) == Held(g) <==> c in Holders(extra, g)
  {
  }

  /** A call keeps every reference owned. */
  lemma NextStateKeepsAccounts(s: State, f: Frame, env: Env)
    requires Accounted(s)
    ensures Accounted(NextState(s, f, env))
  {
    var c := f.code.id;
    var t := NextState(s, f, env);
    if env.extraReadable && Get(s.extra, c) == Null {
      var func := Resolve(env.referrers);
      forall fn: ObjId
        ensures RefCount(t.refcnt, fn) == |Holders(t.extra, fn)| + Tally(t.leaked, fn)
      {
        if env.extraWritable {
          HoldersAfterStore(s.extra, c, if func.Some? then Held(func.value) else Sentinel, fn);
        }
      }
    }
  }

  /** Destroying a code object keeps every reference owned. */
  lemma DestroyedKeepsAccounts(s: State, c: CodeId)
    requires Accounted(s)
    ensures Accounted(Destroyed(s, c))
  {
    var t := Destroyed(s, c);
    forall fn: ObjId
      ensures RefCount(t.refcnt, fn) == |Holders(t.extra, fn)| + Tally(t.leaked, fn)
    {
      HoldersAfterRemove(s.extra, c, fn);
    }
  }

  /** Destroying a code object releases exactly one reference to the function
      its slot holds and none otherwise; destroying it again releases nothing. */
  lemma DestroyReleasesOnce(s: State, c: CodeId, g: ObjId)
    ensures RefCount(Destroyed(s, c).refcnt, g) ==
      RefCount(s.refcnt, g) - (if Get(s.extra, c) == Held(g) then 1 else 0)
    ensures Destroyed(Destroyed(s, c), c).refcnt == Destroyed(s, c).refcnt
  {
  }

  /** Once the hook holds no slot and has leaked nothing, the reference counts
      are back where they started. */
  lemma BalancedWhenNothingHeld(s: State, fn: ObjId)
    requires Accounted(s)
    requires forall c :: c in s.extra ==> !s.extra[c].Held?
    requires Tally(s.leaked, fn) == 0
    ensures RefCount(s.refcnt, fn) == 0
  {
    assert Holders(s.extra, fn) == {};
  }

  /** A slot that is SENTINEL or holds a function stays exactly as it is,
      and no resolution happens for its code, however many calls follow. */
  lemma {:induction false} SettledSlotIsFinal(s: State, calls: seq<Call>, c: CodeId)
    requires Get(s.extra, c) != Null
    ensures Get(Run(s, calls).extra, c) == Get(s.extra, c)
    ensures Tally(Run(s, calls).resolutions, c) == Tally(s.resolutions, c)
    decreases |calls|
  {
    if calls != [] {
      var s1 := NextState(s, calls[0].frame, calls[0].env);
      assert Get(s1.extra, c) == Get(s.extra, c);
      assert Tally(s1.resolutions, c) == Tally(s.resolutions, c);
      SettledSlotIsFinal(s1, calls[1..], c);
    }
  }

  /** Across any sequence of calls, resolution runs at most once for a code
      object whose slot writes succeed, and never for one whose slot is
      already set. */
  lemma {:induction false} ResolverRunsAtMostOnce(s: State, calls: seq<Call>, c: CodeId)
    requires forall i :: 0 <= i < |calls| && calls[i].frame.code.id == c ==> calls[i].env.extraWritable
    ensures Tally(Run(s, calls).resolutions, c) <=
      Tally(s.resolutions, c) + (if Get(s.extra, c) == Null then 1 else 0)
    decreases |calls|
  {
    if calls != [] {
      var s1 := NextState(s, calls[0].frame, calls[0].env);
      assert forall i :: 0 <= i < |calls[1..]| ==> calls[1..][i] == calls[i + 1];
      if Get(s1.extra, c) != Null {
        SettledSlotIsFinal(s1, calls[1..], c);
      } else {
        ResolverRunsAtMostOnce(s1, calls[1..], c);
      }
    }
  }

  /** The hook raises exactly when it has a function to check and one of
      its parameter annotations does not match the argument's exact type;
      otherwise it returns the default evaluator's result. */
  lemma DispatchRaisesIffMismatch(s: State, f: Frame, env: Env)
    requires NoAbort(s, f, env)
    ensures Dispatch(s, f, env).Raised? <==>
      && Target(s, f, env).Some?
      && var ann := AnnotationsOf(env, Target(s, f, env).value);
      && ann.Some? && ann.value.Entries?
      && exists i :: 0 <= i < |ParameterItems(ann.value.items)| &&
           !Conforms(ParameterItems(ann.value.items)[i], f)
    ensures !Dispatch(s, f, env).Raised? ==> Dispatch(s, f, env) == Evaluated(env.evalDefault)
  {
    var t := Target(s, f, env);
    if t.Some? {
      var ann := AnnotationsOf(env, t.value);
      if ann.Some? && ann.value.Entries? {
        var p := ParameterItems(ann.value.items);
        ScanPassesIffAllConform(p, f);
        if Scan(p, f).Some? {
          var i :| 0 <= i < |p| && !Conforms(p[i], f);
          assert !Conforms(ParameterItems(ann.value.items)[i], f);
        }
      }
    }
  }

  /** The TypeError raised is the one for the first parameter annotation, in
      iteration order, that the argument does not match. */
  lemma RaisedErrorIsFirstMismatch(s: State, f: Frame, env: Env)
    requires NoAbort(s, f, env) && Dispatch(s, f, env).Raised?
    ensures Target(s, f, env).Some?
    ensures var ann := AnnotationsOf(env, Target(s, f, env).value);
      ann.Some? && ann.value.Entries? &&
      exists k :: FirstMismatchAt(ParameterItems(ann.value.items), f, k) &&
        Dispatch(s, f, env).error == Violation(ParameterItems(ann.value.items)[k], f)
  {
    var ann := AnnotationsOf(env, Target(s, f, env).value);
    var p := ParameterItems(ann.value.items);
    assert Check(ann, f) == Scan(p, f) == Some(Dispatch(s, f, env).error);
    ScanViolationIsFirstMismatch(p, f);
  }

  /** A code object that no function refers to is not checked on its first
      call: that call marks the slot SENTINEL and returns the default
      evaluator's result. UnownedCodeStaysUnchecked covers the later calls. */
  lemma UnownedCodeFailsOpen(s: State, f: Frame, env: Env)
    requires WellFormed(f) && env.extraReadable && env.extraWritable
    requires Get(s.extra, f.code.id) == Null
    requires env.referrers.Listed? && forall i :: 0 <= i < |env.referrers.objs| ==> !IsFunction(env.referrers.objs[i])
    ensures NoAbort(s, f, env) && Dispatch(s, f, env) == Evaluated(env.evalDefault)
    ensures Get(NextState(s, f, env).extra, f.code.id) == Sentinel
  {
  }

  /** Once a code object's slot is SENTINEL, every later call on that code,
      after any sequence of calls in between, goes to the default evaluator
      unchecked, whatever the function's annotations are by then. */
  lemma UnownedCodeStaysUnchecked(s: State, calls: seq<Call>, g: Frame, env: Env)
    requires Get(s.extra, g.code.id) == Sentinel && WellFormed(g)
    ensures NoAbort(Run(s, calls), g, env)
    ensures Dispatch(Run(s, calls), g, env) == Evaluated(env.evalDefault)
    ensures NextState(Run(s, calls), g, env) == Run(s, calls)
  {
    SettledSlotIsFinal(s, calls, g.code.id);
  }

  /** A function the hook found for a code object is the one checked on every
      later call on that code, after any sequence of calls in between: the
      referrers are not asked again, so a function that starts to share the
      code later is never the target. */
  lemma CachedTargetIsReused(s: State, f: Frame, env: Env, calls: seq<Call>, g: Frame, env2: Env)
    requires env.extraReadable && env.extraWritable && env2.extraReadable
    requires g.code.id == f.code.id
    ensures Target(Run(NextState(s, f, env), calls), g, env2) == Target(s, f, env)
  {
    var s1 := NextState(s, f, env);
    assert Get(s1.extra, f.code.id) != Null;
    SettledSlotIsFinal(s1, calls, f.code.id);
  }

  /** The hook's global state: the extra slots of the code objects and the
      function reference counts it changes. */
  class Hook {
    var extra: map<CodeId, Extra>
    var refcnt: map<ObjId, int>
    ghost var resolutions: map<CodeId, nat>
    ghost var leaked: map<ObjId, nat>

    ghost function Abstract(): State
      reads this
    {
      State(extra, refcnt, resolutions, leaked)
    }

    ghost predicate Valid()
      reads this
    {
      Accounted(Abstract())
    }

    constructor ()
      ensures Valid()
      ensures extra == map[] && refcnt == map[] && resolutions == map[] && leaked == map[]
    {
      extra, refcnt := map[], map[];
      resolutions, leaked := map[], map[];
    }

    /** get_function_for_code: scans the referrers in list order, takes a
        reference to the first function and returns it. */
    method GetFunctionForCode(code: Code, q: Referrers) returns (func: Option<ObjId>)
      modifies this
      ensures func == Resolve(q)
      ensures q.PackFailed? || q.QueryFailed? ==> func == None
      ensures refcnt == if func.Some? then Incr(old(refcnt), func.value) else old(refcnt)
      ensures resolutions == Bump(old(resolutions), code.id)
      ensures extra == old(extra) && leaked == old(leaked)
    {
      resolutions := Bump(resolutions, code.id);
      match q {
        case PackFailed =>
          return None;
        case QueryFailed =>
          return None;
        case Listed(objs) =>
          func := None;
          var i := 0;
          while i < |objs|
            invariant 0 <= i <= |objs|
            invariant forall j :: 0 <= j < i ==> !IsFunction(objs[j])
            invariant func == None && refcnt == old(refcnt)
          {
            var ref := objs[i];
            if !IsFunction(ref) {
              i := i + 1;
              continue;
            }
            func := Some(ref.id);
            refcnt := Incr(refcnt, ref.id);
            break;
          }
          if func.Some? {
            FirstFunctionIsAt(objs, i);
          }
      }
    }

    /** prac_eval_frame. */
    method EvalFrame(f: Frame, env: Env) returns (out: Outcome)
      requires Valid() && NoAbort(Abstract(), f, env)
      modifies this
      ensures Valid()
      ensures Abstract() == NextState(old(Abstract()), f, env)
      ensures out == Dispatch(old(Abstract()), f, env)
      ensures !env.extraReadable ==> unchanged(this) && out == Evaluated(env.evalDefault)
      ensures old(Get(extra, f.code.id)) != Null ==> unchanged(this)
      ensures old(Get(extra, f.code.id)) == Sentinel ==> out == Evaluated(env.evalDefault)
      ensures env.extraReadable && env.extraWritable ==> Get(extra, f.code.id) != Null
      ensures out.Raised? || out == Evaluated(env.evalDefault)
    {
      ghost var s0 := Abstract();
      NextStateKeepsAccounts(s0, f, env);
      var c := f.code.id;
      if !env.extraReadable {
        return Evaluated(env.evalDefault);
      }
      var e := Get(extra, c);
      var func: ObjId;
      if e == Null {
        var found := GetFunctionForCode(f.code, env.referrers);
        if env.extraWritable {
          extra := extra[c := if found.Some? then Held(found.value) else Sentinel];
        } else if found.Some? {
          leaked := Bump(leaked, found.value);
        }
        if found.None? {
          return Evaluated(env.evalDefault);
        }
        func := found.value;
      } else if e == Sentinel {
        return Evaluated(env.evalDefault);
      } else {
        func := e.func;
      }
      var raised := DoTypeChecking(AnnotationsOf(env, func), f);
      if raised.Some? {
        return Raised(raised.value);
      }
      return Evaluated(env.evalDefault);
    }

    /** prac_code_freefunc: drops one reference when the slot value is a
        function, and does nothing for NULL or SENTINEL. */
    method CodeFree(e: Extra)
      modifies this`refcnt
      ensures refcnt == if e.Held? then Decr(old(refcnt), e.func) else old(refcnt)
    {
      if e != Null && e != Sentinel {
        refcnt := Decr(refcnt, e.func);
      }
    }

    /** The interpreter's teardown of a code object: it passes the slot's
        value to the release callback and frees the slot. */
    method DestroyCode(c: CodeId)
      requires Valid()
      modifies this
      ensures Valid()
      ensures Abstract() == Destroyed(old(Abstract()), c)
    {
      DestroyedKeepsAccounts(Abstract(), c);
      CodeFree(Get(extra, c));
      extra := extra - {c};
      resolutions := resolutions - {c};
    }
  }
}
