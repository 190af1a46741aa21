/** The few interpreter values the type-checking hook looks at, reduced to
    identities. An object is its identity (its address) plus the identity of
    its exact type; a type object is an object whose exact type is `type`. */
module Host {

  /** Identity of an interpreter object. */
  type ObjId = nat

  datatype Option<+T> = None | Some(value: T)

  /** An interpreter object: its identity and the identity of its exact type. */
  datatype Obj = Obj(id: ObjId, typ: ObjId)

  /** Identity of the metatype `type`. Any fixed value distinct from
      FunctionType serves; only identity comparisons are made. */
  const TypeType: ObjId := 0

  /** Identity of the built-in function type. */
  const FunctionType: ObjId := 1

  /** PyFunction_Check: the object's exact type is the function type. */
  predicate IsFunction(o: Obj) {
    o.typ == FunctionType
  }

  /** PyType_CheckExact: the object is a type object (its type is exactly `type`). */
  predicate IsExactType(o: Obj) {
    o.typ == TypeType
  }

  /** A code object: its identity and its `co_varnames` (parameters first, then locals). */
  datatype Code = Code(id: ObjId, varnames: seq<string>)

  /** A frame: the code it executes and its `f_localsplus` slots. */
  datatype Frame = Frame(code: Code, locals: seq<Obj>)

  /** The interpreter lays out a frame's slots so that there is one per
      variable name of its code (cells, free variables and the value stack
      follow them). */
  predicate WellFormed(f: Frame) {
    |f.locals| >= |f.code.varnames|
  }
}
