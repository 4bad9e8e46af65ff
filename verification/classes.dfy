/**
 The class table: classes with ordered bases, a dictionary of attribute slots
 and an optional metaclass, plus the run-time values the protocol produces.
 Method bodies are not interpreted; each function slot carries a summary of
 what a call returns and which attributes it writes on `self`.
 */
module ClassModel {
  import opened Options
  import opened TypeSets

  /** The universal root class, and the root metaclass. */
  const Root: Name := "object"
  const TypeRoot: Name := "type"

  /** A declared base: a known class, or a value of unknown origin (`Any`). */
  datatype Base = Named(cls: Name) | Unknown

  /** A type written by a method body: a constant, or the type of the i-th argument of the call. */
  datatype Expr = Const(ty: TypeSet) | Arg(index: nat)

  /**
   A value that flows through construction: an instance carrying its own
   attribute dictionary, or a value known only by its type-set.
   */
  datatype Value = Obj(cls: Name, attrs: map<Name, TypeSet>) | Other(ty: TypeSet)

  /** What a call of a function slot yields. `FreshInstance` is `object.__new__(cls)`. */
  datatype Produces = Returns(v: Value) | FreshInstance

  /** The kind tag of an attribute slot together with its type. */
  datatype Slot =
    | Plain(ty: TypeSet)                                     // a plain class-level value
    | Held(cls: Name)                                        // an instance of `cls` stored on the class
    | Function(produces: Produces, writes: map<Name, Expr>)  // a `def` in the class body
    | ClassMethod(ret: TypeSet)
    | StaticMethod(ret: TypeSet)
    | Property(fget: TypeSet)                                // `property(fget=...)`, fget's result type

  datatype ClassDef = ClassDef(bases: seq<Base>, dict: map<Name, Slot>, meta: Option<Name>)

  type Table = map<Name, ClassDef>

  /** The type-set of a value. */
  function TypeOf(v: Value): TypeSet {
    match v
    case Obj(c, _) => Single(Inst(c))
    case Other(ty) => ty
  }

  /**
   The value a result known only by its type stands for: a single instance
   type is an instance of that class with an empty dictionary, so that the
   way a summary is written never changes what the value is.
   */
  function AsValue(ty: TypeSet): (r: Value)
    ensures TypeOf(r) == ty
    ensures r.Obj? <==> exists d :: ty == Single(Inst(d))
    ensures r.Obj? ==> r.attrs == map[]
  {
    if ty.Union? && |ty.atoms| == 1 && exists a :: a in ty.atoms && a.Inst? then
      var a :| a in ty.atoms && a.Inst?;
      assert ty.atoms == {a} by { SingletonSet(ty.atoms, a); }
      Obj(a.cls, map[])
    else Other(ty)
  }

  /** A one-element set is the singleton of any of its elements. */
  lemma SingletonSet<T>(s: set<T>, x: T)
    requires |s| == 1 && x in s
    ensures s == {x}
  {
    var rest := s - {x};
    assert |rest| == 0;
    assert rest == {};
  }

  /** `v` is an instance, or a value whose type is not a single instance type. */
  ghost predicate Normal(v: Value) {
    v.Other? ==> forall d :: v.ty != Single(Inst(d))
  }

  /** The normal form of a value: an `Other` of a single instance type becomes that instance. */
  function Normalize(v: Value): (r: Value)
    ensures Normal(r) && TypeOf(r) == TypeOf(v)
    ensures v.Obj? || Normal(v) ==> r == v
  {
    match v
    case Obj(_, _) => v
    case Other(ty) => AsValue(ty)
  }

  /** The type an `Expr` denotes at a call with argument types `args`; a missing argument is `Any`. */
  function Eval(e: Expr, args: seq<TypeSet>): TypeSet {
    match e
    case Const(ty) => ty
    case Arg(i) => if i < |args| then args[i] else AnyT
  }

  /** The type-set recorded for `n` in an attribute dictionary; absent names contribute nothing. */
  function AttrType(attrs: map<Name, TypeSet>, n: Name): TypeSet {
    if n in attrs then attrs[n] else Nothing
  }
}
