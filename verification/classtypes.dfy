/**
 Class objects as values. A function annotated to return `Type[A or B]`
 yields the type-set of the two class objects; reading `x` on it reads `x`
 on each class and unions the results, and a class lacking `x` contributes
 nothing. Calling a class object held in a class attribute constructs an
 instance of that class.
 */
module ClassTypeScenarios {
  import opened Options
  import opened TypeSets
  import opened ClassModel
  import opened Linearization
  import opened Lookup
  import opened Construction
  import opened Builtins

  /** testReturnClassType: `A.x` is `int`, `B.x` is `str`, and `int` has no `x`. */
  const ClassTypes: Table := map[
    Root := ObjectDef,
    "int" := Simple(map[]),
    "A" := Simple(map["x" := Plain(IntT)]),
    "B" := Simple(map["x" := Plain(StrT)])
  ]

  /** The results of `f(A)`, `g()` and `h()`: `Type[A]`, `Type[A or B]` and `Type[int or B]`. */
  const TypeA: TypeSet := Single(Cls("A"))
  const TypeAOrB: TypeSet := Union({Cls("A"), Cls("B")})
  const TypeIntOrB: TypeSet := Union({Cls("int"), Cls("B")})

  /** A two-member type-set is the join of its members. */
  lemma PairIsJoin(a: Atom, b: Atom)
    ensures Union({a, b}) == Join(Single(a), Single(b))
  {
    assert {a} + {b} == {a, b};
  }

  /** Reading `x` on each class object on its own. */
  lemma ClassReadsOfX(t: Table)
    requires t == ClassTypes
    ensures AtomRead(t, Cls("A"), "x") == Found(IntT)
    ensures AtomRead(t, Cls("B"), "x") == Found(StrT)
    ensures AtomRead(t, Cls("int"), "x") == NoSuchAttribute
  {
    assert SimpleIn(t, "A") && SimpleIn(t, "B") && SimpleIn(t, "int");
    SimpleClassRead(t, "A", "x");
    SimpleClassRead(t, "B", "x");
    SimpleClassRead(t, "int", "x");
  }

  /**
   testReturnClassType: `f(A).x` is `int`; `g().x` is `int or str`, one
   result per member; `h().x` is `str`, because `int` lacks `x` and so
   contributes nothing rather than failing the read.
   */
  lemma ReturnClassType(t: Table)
    requires t == ClassTypes
    ensures TypeRead(t, TypeA, "x") == Found(IntT)
    ensures TypeRead(t, TypeAOrB, "x") == Found(Union({Inst("int"), Inst("str")}))
    ensures TypeRead(t, TypeIntOrB, "x") == Found(StrT)
  {
    ClassReadsOfX(t);
    TypeReadSingle(t, Cls("A"), "x");
    TypeReadSingle(t, Cls("B"), "x");
    TypeReadSingle(t, Cls("int"), "x");
    PairIsJoin(Cls("A"), Cls("B"));
    TypeReadOverJoin(t, Single(Cls("A")), Single(Cls("B")), "x");
    PairIsJoin(Inst("int"), Inst("str"));
    PairIsJoin(Cls("int"), Cls("B"));
    TypeReadOverJoin(t, Single(Cls("int")), Single(Cls("B")), "x");
  }

  /** testCallClassType: `B.MyA` holds `Type[A]`. */
  const HeldClass: Table := map[
    Root := ObjectDef,
    "A" := Simple(map[]),
    "B" := Simple(map["MyA" := Plain(Single(Cls("A")))])
  ]

  /** testCallClassType: `B.MyA` is the class object `A`, and calling it yields an `A`. */
  lemma CallClassType(t: Table)
    requires t == HeldClass
    ensures ClassRead(t, "B", "MyA") == Found(Single(Cls("A")))
    ensures CallAtom(t, Cls("A"), []) == Single(Inst("A"))
  {
    assert SimpleIn(t, "A") && SimpleIn(t, "B");
    SimpleClassRead(t, "B", "MyA");
    SimpleConstruct(t, "A");
  }
}
