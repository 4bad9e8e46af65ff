/**
 `__new__` overrides and the skip-init rule. A `__new__` body is summarised
 by the value it returns: a fresh instance of the class passed in, or a fixed
 value. `__init__` runs only when that value is an instance of the class
 being constructed; otherwise the value is the result as it stands.
 */
module NewInitScenarios {
  import opened Options
  import opened TypeSets
  import opened ClassModel
  import opened Linearization
  import opened Lookup
  import opened Writes
  import opened Construction
  import opened Builtins

  // ---------------------------------------------------------------------------
  // testNew

  /** testNew: stub `A.__new__` is annotated to return a `B`; `C.__new__` returns a `str`. */
  const NewOverrides: Table := map[
    Root := ObjectDef,
    "A" := Simple(map["__new__" := Function(Returns(Other(Single(Inst("B")))), map[])]),
    "B" := Simple(map[]),
    "C" := Simple(map["__new__" := Function(Returns(Other(StrT)), map[])]),
    "bool" := Simple(map[])
  ]

  /** `a.A(42)` is the `B` that `A.__new__` returns: a `B` is no `A`, so `A.__init__` is skipped. */
  lemma NewReturnsOtherClass(t: Table)
    requires t == NewOverrides
    ensures NewCandidate(t, "A") == Obj("B", map[])
    ensures !IsInstanceOf(t, NewCandidate(t, "A"), "A")
    ensures TypeOf(Construct(t, "A", [IntT])) == Single(Inst("B"))
  {
    assert SimpleIn(t, "A") && SimpleIn(t, "B");
    SimpleNew(t, "A");
    SimpleInstanceOf(t, "B", "A", map[]);
    SkipInit(t, "A", [IntT]);
  }

  /** `C()` is the `str` that `C.__new__` returns. */
  lemma NewReturnsStr(t: Table)
    requires t == NewOverrides
    ensures TypeOf(Construct(t, "C", [])) == StrT
  {
    assert SimpleIn(t, "C");
    SimpleNew(t, "C");
    SkipInit(t, "C", []);
  }

  /**
   `x3 = object.__new__(bool)`: reading `__new__` on the class `object` gives
   the unbound root function, and calling it with the class `bool` gives a
   `bool`, the class passed in rather than `object`.
   */
  lemma RootNewOfBool(t: Table)
    requires t == NewOverrides
    ensures ClassRead(t, Root, "__new__") == Found(Single(Fn(Root, "__new__", Unbound)))
    ensures CallAtom(t, Fn(Root, "__new__", Unbound), [Single(Cls("bool"))]) == BoolT
  {
    ObjectMro(t, {});
    assert Linear(t, Root) == [C(Root)];
    assert FirstSupplier(t, [C(Root)], "__new__", 0);
    assert MetaOf(t, [C(Root)]).None?;
    assert ClassNamed(Single(Cls("bool"))) == Some("bool");
  }

  // ---------------------------------------------------------------------------
  // testNewAndInit

  /**
   testNewAndInit. `A.__new__` delegates to the root's (a fresh `A`) and
   `A.__init__(self, a, b)` writes `self.x`, summarised as the type of `a`.
   `B.__new__(cls, x)` returns `A(x, 0)` with `y = False` written on it; its
   summary is the value `NewOfBIsAWithY` computes for `B(3.14)`.
   `B.__init__` writes nothing.
   */
  const NewAndInit: Table := map[
    Root := ObjectDef,
    "A" := Simple(map["__new__" := Function(FreshInstance, map[]),
                      "__init__" := Function(Returns(Other(NoneT)), map["x" := Arg(0)])]),
    "B" := Simple(map["__new__" := Function(Returns(Obj("A", map["x" := FloatT, "y" := BoolT])), map[]),
                      "__init__" := Function(Returns(Other(NoneT)), map[])])
  ]

  /** `A(a, b)` is a fresh `A` whose `__init__` has run: `x` has the type of `a`. */
  lemma ConstructA(t: Table, a: TypeSet, b: TypeSet)
    requires t == NewAndInit
    ensures Construct(t, "A", [a, b]) == Obj("A", map["x" := a])
  {
    assert SimpleIn(t, "A");
    SimpleNew(t, "A");
    SimpleInitWrites(t, "A");
    SimpleGoverned(t, "A", "x");
    FreshInstanceOneWrite(t, "A", [a, b], "x", Arg(0));
  }

  /**
   The body of `B.__new__` for `B(3.14)`: `v = A(3.14, 0)` followed by
   `v.y = False` is the `A` with `x: float` and `y: bool` its summary returns.
   */
  lemma NewOfBIsAWithY(t: Table)
    requires t == NewAndInit
    ensures InstanceWrite(t, Construct(t, "A", [FloatT, IntT]), "y", BoolT) == Obj("A", map["x" := FloatT, "y" := BoolT])
  {
    ConstructA(t, FloatT, IntT);
    assert SimpleIn(t, "A");
    SimpleGoverned(t, "A", "y");
    JoinAnyAndNothing(BoolT);
    assert AttrType(map["x" := FloatT], "y") == Nothing;
  }

  /** `x1 = A("hello", "world")` is an `A`, and `x2 = x1.x` is `str`. */
  lemma NewAndInitDirect(t: Table)
    requires t == NewAndInit
    ensures TypeOf(Construct(t, "A", [StrT, StrT])) == Single(Inst("A"))
    ensures ValueRead(t, Construct(t, "A", [StrT, StrT]), "x") == Found(StrT)
  {
    ConstructA(t, StrT, StrT);
    assert SimpleIn(t, "A");
    SimpleOwnRead(t, "A", map["x" := StrT], "x");
  }

  /** `B(3.14)` is the `A` from `B.__new__`: an `A` is no `B`, so `B.__init__` is skipped. */
  lemma NewAndInitSkips(t: Table)
    requires t == NewAndInit
    ensures Construct(t, "B", [FloatT]) == Obj("A", map["x" := FloatT, "y" := BoolT])
  {
    assert SimpleIn(t, "A") && SimpleIn(t, "B");
    SimpleNew(t, "B");
    SimpleInstanceOf(t, "A", "B", map["x" := FloatT, "y" := BoolT]);
    SkipInit(t, "B", [FloatT]);
  }

  /**
   testNewAndInit: `x3 = B(3.14)` is an `A`; `x4 = x3.x` is `float` and
   `x5 = x3.y` is `bool`, the attribute `B.__new__` set surviving.
   */
  lemma NewAndInitReads(t: Table)
    requires t == NewAndInit
    ensures TypeOf(Construct(t, "B", [FloatT])) == Single(Inst("A"))
    ensures ValueRead(t, Construct(t, "B", [FloatT]), "x") == Found(FloatT)
    ensures ValueRead(t, Construct(t, "B", [FloatT]), "y") == Found(BoolT)
  {
    var v := Obj("A", map["x" := FloatT, "y" := BoolT]);
    NewAndInitSkips(t);
    assert SimpleIn(t, "A");
    SimpleOwnRead(t, "A", v.attrs, "x");
    SimpleOwnRead(t, "A", v.attrs, "y");
  }

  // ---------------------------------------------------------------------------
  // testNewAndInitPyi

  /**
   testNewAndInitPyi, without the type parameters: the stub annotates
   `A.__new__` and `B.__new__()` as returning an `A`, and
   `B.__init__(self, x, y)` takes two arguments the call `B()` does not supply.
   A stub gives only the result's type.
   */
  const NewAndInitStub: Table := map[
    Root := ObjectDef,
    "A" := Simple(map["__new__" := Function(Returns(Other(Single(Inst("A")))), map[]),
                      "__init__" := Function(Returns(Other(NoneT)), map[])]),
    "B" := Simple(map["__new__" := Function(Returns(Other(Single(Inst("A")))), map[]),
                      "__init__" := Function(Returns(Other(NoneT)), map[])])
  ]

  /** `x1 = a.A(0)` is an `A`: here the candidate is an `A`, so `A.__init__` runs. */
  lemma StubNewOwnClass(t: Table)
    requires t == NewAndInitStub
    ensures IsInstanceOf(t, NewCandidate(t, "A"), "A")
    ensures Construct(t, "A", [IntT]) == Obj("A", map[])
  {
    assert SimpleIn(t, "A");
    SimpleNew(t, "A");
    SimpleInstanceOf(t, "A", "A", map[]);
    SimpleInitWrites(t, "A");
    assert NewCandidate(t, "A") == Obj("A", map[]);
    FreshInstanceNoWrites(t, "A", [IntT]);
  }

  /** `x2 = a.B()` is the `A` from `B.__new__`: an `A` is no `B`, so `B.__init__` is never called. */
  lemma StubNewSkipsInit(t: Table)
    requires t == NewAndInitStub
    ensures !IsInstanceOf(t, NewCandidate(t, "B"), "B")
    ensures Construct(t, "B", []) == Obj("A", map[])
  {
    assert SimpleIn(t, "A") && SimpleIn(t, "B");
    SimpleNew(t, "B");
    SimpleInstanceOf(t, "A", "B", map[]);
    SkipInit(t, "B", []);
  }
}
