/**
 Attribute hooks on instances. `__getattr__` answers only the reads that the
 normal protocol misses; `__getattribute__` answers every read, even of names
 the class defines. A class loaded from a stub is modelled by the same table:
 its hook's return annotation is the summary's result type.
 */
module HookScenarios {
  import opened Options
  import opened TypeSets
  import opened ClassModel
  import opened Linearization
  import opened Lookup
  import opened Construction
  import opened Builtins

  /** testGetAttr / testGetAttrPyi: `Foo.__getattr__` returns `str`. */
  const WithGetattr: Table := map[
    Root := ObjectDef,
    "Foo" := Simple(map["__getattr__" := Function(Returns(Other(StrT)), map[])])
  ]

  /** testGetAttribute / testGetAttributePyi: `A.__getattribute__` returns `int`. */
  const WithGetattribute: Table := map[
    Root := ObjectDef,
    "A" := Simple(map["__getattribute__" := Function(Returns(Other(IntT)), map[])])
  ]

  /** testGetAttr: `Foo().foo` misses every class, so `__getattr__`'s `str` answers. */
  lemma GetattrAnswersMiss(t: Table)
    requires t == WithGetattr
    ensures Construct(t, "Foo", []) == Obj("Foo", map[])
    ensures ValueRead(t, Construct(t, "Foo", []), "foo") == Found(StrT)
  {
    assert SimpleIn(t, "Foo");
    SimpleConstruct(t, "Foo");
    SimpleLinear(t, "Foo");
    SimpleSlot(t, "Foo", "foo");
    SimpleOverride(t, "Foo", "__getattribute__");
    SimpleOverride(t, "Foo", "__getattr__");
  }

  /** `__getattr__` is not consulted for a name the class defines: `Foo().__getattr__` is the bound method. */
  lemma GetattrNotOnHit(t: Table)
    requires t == WithGetattr
    ensures InstanceRead(t, "Foo", map[], "__getattr__") == Found(Single(Fn("Foo", "__getattr__", ToInstance)))
  {
    assert SimpleIn(t, "Foo");
    SimpleLinear(t, "Foo");
    SimpleSlot(t, "Foo", "__getattr__");
    SimpleOverride(t, "Foo", "__getattribute__");
  }

  /** testGetAttribute: `A().x` is `__getattribute__`'s `int`. */
  lemma GetattributeAnswersAll(t: Table, n: Name)
    requires t == WithGetattribute
    ensures Construct(t, "A", []) == Obj("A", map[])
    ensures ValueRead(t, Construct(t, "A", []), n) == Found(IntT)
  {
    assert SimpleIn(t, "A");
    SimpleConstruct(t, "A");
    SimpleOverride(t, "A", "__getattribute__");
    GetattributeShortCircuits(t, "A", map[], n);
  }

  /** Even a name the instance itself holds is answered by `__getattribute__`. */
  lemma GetattributeBeatsInstanceDict(t: Table)
    requires t == WithGetattribute
    ensures InstanceRead(t, "A", map["x" := StrT], "x") == Found(IntT)
  {
    assert SimpleIn(t, "A");
    SimpleOverride(t, "A", "__getattribute__");
    GetattributeShortCircuits(t, "A", map["x" := StrT], "x");
  }
}
