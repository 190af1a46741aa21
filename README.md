# prac: automatic runtime type checking through a frame-evaluation hook

prac is a CPython extension. Once enabled, it replaces the interpreter's
frame-evaluation function with its own hook, `prac_eval_frame`. The hook runs
for every frame. It finds the function object that owns the frame's code
object and checks each annotated parameter. The argument's exact type must be
the annotated type, compared by identity. On a mismatch the call fails with a
`TypeError`. Otherwise the frame goes to the default evaluator.

The interpreter only hands the hook the code object and the frame, not the
function. So the hook recovers the function by asking the garbage collector
which objects refer to the code (`get_function_for_code`). It caches the
answer in the code object's extra slot. The slot is NULL until the code first
runs. After that it holds either the function, with a reference the slot owns,
or `SENTINEL`, meaning no function was found and none will be looked for
again. When the interpreter destroys a code object, the release callback
`prac_code_freefunc` drops the slot's reference.

This project models that core in Dafny. It is split into four modules:

- `Host` (host.dfy): interpreter values reduced to identities. An object is
  its identity plus the identity of its exact type. A code object is its
  identity plus its `co_varnames`. A frame is its code plus its
  `f_localsplus` slots.
- `Resolver` (resolver.dfy): the first-function scan over the referrers list.
  It also covers the two ways the referrers query fails: `PyTuple_Pack` fails,
  or `gc.get_referrers` raises.
- `Checker` (checker.dfy): `do_type_checking`. It is a specification function
  `Check` built from the entry scan `Scan`, plus the loop method
  `DoTypeChecking` proved equal to it.
- `Prac` (prac.dfy): the hook's state and the stateful operations.
  - The class `Hook` holds every code object's extra slot (`extra`) and the
    reference counts the hook changes (`refcnt`, kept as a change relative
    to the start).
  - Two ghost counters exist for the proofs. `resolutions` counts how often
    each code object was resolved. `leaked` counts references taken for a
    slot that could not be written.
  - Its methods are `GetFunctionForCode`, `EvalFrame` (`prac_eval_frame`),
    `CodeFree` (`prac_code_freefunc`) and `DestroyCode` (the interpreter's
    teardown, which calls the callback).
  - Each method is tied to a specification function on a `State` value
    (`NextState`, `Dispatch`, `Destroyed`). Properties that span several
    calls are proved about those functions.

Everything the hook asks the interpreter for during one call comes in as an
`Env` value:

- whether `_PyCode_GetExtra` succeeds;
- what the referrers query yields;
- whether `_PyCode_SetExtra` succeeds;
- the current `func_annotations` of each function object (absent means NULL);
- what `_PyEval_EvalFrameDefault` would return.

The hook returns an `Outcome`. `Raised(e)` means it returned NULL with the
`TypeError` e set; the default evaluator did not run. `Evaluated(r)` means it
returned the default evaluator's result r unchanged.

The source can stop the process in five places. Two are modelled as
preconditions. The assert that a parameter name is among the code's variable
names (prac.c:122) stops a debug build. The check that an annotation is an
exact type object (prac.c:128-131) aborts in every build. The model turns
both into preconditions: `Checkable` for one scan, and `NoAbort` for one hook
call. `Checkable` asks exactly what the loop demands. Entries the scan never
reaches, the ones after the first mismatch, are left unconstrained. The other
three cannot happen in the model by construction (see Left out): the abort
when `gc.get_referrers` cannot be found (prac.c:53-56), the debug assert that
the referrers are a list (prac.c:72), and the debug assert on the shape of
each annotation item (prac.c:112).

The source ignores the return value of `_PyCode_SetExtra` (prac.c:163). The
model follows the code here. If the write fails, the slot stays NULL, the
function just found is still checked, and the reference taken for it has no
owner. The next call on that code object resolves again. The ownership
invariant `Accounted` keeps this visible: every reference the hook took is
owned by one slot, or counted in `leaked`. The at-most-once guarantee for
resolution is proved for code objects whose slot writes succeed.

One detail of the model departs from the code, the return annotation (see
Findings). The checker the hook uses skips the entry named `return`. It is
proved to agree with the loop as written on every input where the loop as
written does not abort.

## Model

| member | source | states |
|---|---|---|
| Resolver.FirstFunction | prac.c:74-86 | None exactly when no referrer is a function; otherwise the identity of a function at a position with no function before it |
| Resolver.FirstFunctionIsAt | prac.c:76-86 | whichever position holds the first function determines the result (the first match is unique) |
| Resolver.FirstFunctionIgnoresTail | prac.c:83-85 | after the break, appending any referrers to the list does not change the result |
| Prac.Hook.GetFunctionForCode | prac.c:59-90 | returns the first referrer that is a function, in list order, and adds exactly one to its reference count. It returns None with no count changed when the tuple cannot be built, when the query fails, or when no referrer is a function. The slots are untouched |
| Checker.IndexOf | prac.c:115-122 | the position found is the first whose name equals the key; None exactly when the key is not a variable name |
| Checker.VarnameIndex | prac.c:115-120 | the inner loop stops at the first equal name, or at the end exactly when there is none |
| Checker.ParameterItems | prac.c:111-114 | the entries the corrected loop examines: every entry not named return, and nothing else |
| Checker.ParameterItemsOfOne | prac.c:111-114 | a single entry is examined exactly when it is not named return |
| Checker.ParameterItemsAppend | prac.c:111-114 | the examined entries of two consecutive runs of items are those of the first run followed by those of the second, so the entries keep their iteration order |
| Checker.DoTypeChecking | prac.c:92-152 | no violation when the function has no annotations or getting their items or iterator fails. Otherwise the outcome of scanning the parameter entries in iterator order. Each lookup uses the first matching variable position and reads that frame slot |
| Checker.ScanPassesIffAllConform | prac.c:111-147 | the check reports no violation exactly when every entry's argument has exactly the annotated type |
| Checker.ScanReportsFirstMismatch | prac.c:134-140 | when position k is the first entry whose argument does not have exactly the annotated type, that entry's error is reported. The error gives the parameter, the expected type and the actual type |
| Checker.ScanViolationIsFirstMismatch | prac.c:134-140 | any reported error is that of the first mismatching entry |
| Checker.ScanStopsAtFirstMismatch | prac.c:137-139 | entries after the first mismatch are not examined: appending anything, even entries that would abort, leaves both the outcome and the absence of an abort unchanged |
| Checker.ExactTypeOnly | prac.c:132-134 | a single annotated parameter passes exactly when its argument's exact type is the annotated type object; any other type, a subclass included, is reported |
| Checker.FirstMismatchWins | prac.c:111-143 | for `g(x: int, y: str)` called with a conforming x and a mismatching y, the error names y |
| Checker.ReturnAnnotationAborts | prac.c:115-122 | as written, the scan aborts on every function whose scan reaches a return annotation, since `return` is never a variable name |
| Checker.ReturnAnnotationExample | prac.c:115-131 | `def f(x: int) -> int` called with an int: the loop as written aborts, while the corrected check passes |
| Checker.ReturnEntryIgnored | prac.c:111-122 | the corrected check ignores a return entry wherever it stands among the items |
| Checker.CheckAgreesWithAsWritten | prac.c:111-143 | wherever the loop as written does not abort, the corrected check does not abort either and gives the same verdict |
| Prac.Hook.EvalFrame | prac.c:154-179 | the new slots, counts and outcome are those of NextState and Dispatch. An unreadable slot changes nothing and goes to the default evaluator. A filled slot (SENTINEL or a function) changes nothing. SENTINEL goes to the default evaluator. After a readable call with a successful write the slot is never NULL. The result is a TypeError or exactly the default evaluator's result. Reference ownership is kept |
| Prac.NextStateKeepsAccounts | prac.c:160-171 | after any call, every reference the hook holds is owned by exactly one slot holding that function, or was taken for a slot whose write failed |
| Prac.SettledSlotIsFinal | prac.c:167-171 | once a slot holds SENTINEL or a function, no sequence of calls changes it or resolves its code again |
| Prac.ResolverRunsAtMostOnce | prac.c:161-171 | across any sequence of calls, resolution runs at most once for a code object whose slot writes succeed, and never for one whose slot is already filled |
| Prac.UnownedCodeFailsOpen | prac.c:161-166 | a code object that no function refers to gets SENTINEL on its first call, and that call returns the default evaluator's result |
| Prac.UnownedCodeStaysUnchecked | prac.c:161-178 | once a slot is SENTINEL, after any sequence of calls, a call on that code changes nothing, cannot abort and returns exactly the default evaluator's result |
| Prac.CachedTargetIsReused | prac.c:161-176 | after a readable call with a successful write, and any sequence of calls after it, a readable call on the same code checks the function the first call found (or nothing, if it found none), whatever the referrers are by then |
| Prac.DispatchRaisesIffMismatch | prac.c:173-178 | the hook raises exactly when it has a function with parameter annotations, one of which the argument does not match. Otherwise it returns exactly the default evaluator's result |
| Prac.RaisedErrorIsFirstMismatch | prac.c:134-140 | the TypeError the hook raises is the one for the first mismatching parameter annotation in iteration order |
| Prac.Hook.CodeFree | prac.c:181-185 | drops exactly one reference when the slot value is a function and changes nothing for NULL or SENTINEL |
| Prac.Hook.DestroyCode | prac.c:181-185 | destroying a code object runs the release callback on its slot value and removes the slot. Reference ownership is kept |
| Prac.DestroyedKeepsAccounts | prac.c:181-185 | after a code object is destroyed, every remaining reference is still owned |
| Prac.DestroyReleasesOnce | prac.c:181-185 | destroying a code object releases exactly one reference to the function its slot held and none otherwise; destroying it again releases nothing |
| Prac.BalancedWhenNothingHeld | prac.c:181-185 | with no slot holding a function and nothing leaked, every reference count is back to its starting value |

## Findings

| source | as written | input that shows it | evidently intended | confidence | as-written member | corrected member |
|---|---|---|---|---|---|---|
| prac.c:115-122 | every key of `func_annotations` is searched for in `co_varnames`, and the search is asserted to succeed | `def f(x: int) -> int` called as `f(1)`. The items are `('x', int)` then `('return', int)`. `return` is a keyword and never a variable name, so the assert fails in a debug build. Without asserts, the slot just past the variables is read as if it were the argument | skip the return annotation, since return values are not checked | not executed; high | Checker.ReturnAnnotationAborts | Checker.CheckAgreesWithAsWritten |

`Checker.ReturnAnnotationExample` gives the concrete instance. `Checker.ReturnEntryIgnored` shows that the corrected check ignores the return entry wherever it stands. `Checker.Check`, which the hook's model uses, is the corrected check.

## Left out

- Enabling the hook (`prac_enable`, prac.c:187-205) is left out. It registers the extra index and swaps the frame evaluator on every interpreter state. This is one-time global setup of the interpreter, with no checkable logic beyond a debug assert.
- The lazy lookup of the C function behind `gc.get_referrers`, and the abort when it is missing (prac.c:40-57), are left out. This is a foreign call. Its result is the `Referrers` input.
- Module definition and initialisation (prac.c:208-227) are left out.
- Error messages are left out. The `TypeError` carries the parameter name and the identities of the expected and actual types, not their `tp_name` strings. The `printf` before the abort is not modelled either.
- The thread's error indicator is not modelled. Only the `Raised` outcome stands for the error being set. The same goes for the `PyErr_Clear` calls on the failure paths (prac.c:61, 69, 150) and for the error `_PyCode_GetExtra` leaves set when it fails.
- Reference counts of temporaries are not modelled: the query tuple, the referrers list, the items list, the iterator and each item are released in balance. Deallocation when a count reaches zero is not modelled either.
- `PyObject_RichCompareBool` failing (returning -1) is not modelled. Names are compared as strings, and comparing two strings does not fail.
- `PyIter_Next` failing part-way through the items is not modelled. The items come back as a list, and a list iterator does not fail.
- Frame slots are always objects; an unbound (NULL) slot is not modelled. The argument slot is NULL when the parameter is captured by a nested function: in CPython 3.9 and 3.10 the interpreter moves such an argument into a cell and clears its `f_localsplus` slot before the frame is evaluated. So `def f(x: int): return lambda: x` reaches the type test at prac.c:134 with a NULL argument, and `Py_IS_TYPE` dereferences NULL and crashes. A frame resumed after `del` of a parameter gives the same. The model gives a verdict where the code crashes. Reading the cell's content would be the evident intent, and cells are not part of this model.
- The referrers query's answer is always a list (the debug assert at prac.c:72): `Listed` carries a sequence.
- Every annotation item is a pair whose key is a string (the debug assert at prac.c:112): the `Item` type has exactly that shape.
- The assert at prac.c:122 and the abort at prac.c:128-131 are preconditions (`Checkable`, `NoAbort`), not modelled behaviour.
- Threads and sub-interpreters are left out. Calls on the hook are taken to be serialised, as the interpreter's single thread per state ensures.
- Code objects shared by several functions are handled as the code handles them: the first function in the referrers list wins. The order of the garbage collector's answer is an input, and re-resolving when a second function appears is not done by the code and not modelled.
