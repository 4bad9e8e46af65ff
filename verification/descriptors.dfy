/**
 Descriptor slots. A `property` is a data descriptor: an instance read yields
 its getter's result and a class read yields the property object. An object
 whose class defines `__get__` (and no `__set__`) stored on a class is a
 non-data descriptor: an instance read yields `__get__`'s result, not the
 stored object. Each `__get__` body is summarised by the type it returns at
 the read in question, and that type is checked against the model.
 */
module DescriptorScenarios {
  import opened Options
  import opened TypeSets
  import opened ClassModel
  import opened Linearization
  import opened Lookup
  import opened Writes
  import opened Construction
  import opened Builtins

  const InitName: Slot := Function(Returns(Other(NoneT)), map["_name" := Const(StrT)])
  const ReturnsStr: Slot := Function(Returns(Other(StrT)), map[])

  /** testProperty: `name = property(fget=lambda self: self._name)`; `__init__` sets `self._name = "name"`. */
  const WithProperty: Table := map[
    Root := ObjectDef,
    "Foo" := Simple(map["__init__" := InitName, "test" := ReturnsStr, "name" := Property(StrT)])
  ]

  /** testDescriptorSelf: `Foo.__get__` returns `self._name`; `Bar.foo = Foo()`. */
  const DescriptorSelf: Table := map[
    Root := ObjectDef,
    "Foo" := Simple(map["__init__" := InitName, "__get__" := ReturnsStr]),
    "Bar" := Simple(map["test" := ReturnsStr, "foo" := Held("Foo")])
  ]

  /** testDescriptorInstance: `Foo.__get__` returns `obj._name`, which `Bar.__init__` sets. */
  const DescriptorInstance: Table := map[
    Root := ObjectDef,
    "Foo" := Simple(map["__get__" := ReturnsStr]),
    "Bar" := Simple(map["__init__" := InitName, "test" := ReturnsStr, "foo" := Held("Foo")])
  ]

  /** testDescriptorClass: `Foo.__get__` returns `objtype._name`, a class attribute of `Bar`. */
  const DescriptorClass: Table := map[
    Root := ObjectDef,
    "Foo" := Simple(map["__get__" := ReturnsStr]),
    "Bar" := Simple(map["test" := ReturnsStr, "_name" := Plain(StrT), "foo" := Held("Foo")])
  ]

  // ---------------------------------------------------------------------------
  // testProperty

  /** `Foo` is a simple class defining `name` and `__init__` itself, and no `__getattribute__`. */
  lemma PropertySlots(t: Table)
    requires t == WithProperty
    ensures Linear(t, "Foo") == [C("Foo"), C(Root)]
    ensures FindSlot(t, Linear(t, "Foo"), "name") == Defined("Foo", Property(StrT))
    ensures FindSlot(t, Linear(t, "Foo"), "__init__") == Defined("Foo", InitName)
    ensures FindSlot(t, Linear(t, "Foo"), "__new__") == Defined(Root, Function(FreshInstance, map[]))
    ensures Override(t, "Foo", "__getattribute__").None?
    ensures MetaOf(t, Linear(t, "Foo")).None?
  {
    assert SimpleIn(t, "Foo");
    SimpleLinear(t, "Foo");
    SimpleSlot(t, "Foo", "name");
    SimpleSlot(t, "Foo", "__init__");
    SimpleSlot(t, "Foo", "__new__");
    SimpleOverride(t, "Foo", "__getattribute__");
  }

  /** `Foo()` runs `__init__`, which sets `_name` to `str`. */
  lemma PropertyConstruct(t: Table)
    requires t == WithProperty
    ensures Construct(t, "Foo", []) == Obj("Foo", map["_name" := StrT])
  {
    assert SimpleIn(t, "Foo");
    SimpleNew(t, "Foo");
    SimpleInitWrites(t, "Foo");
    SimpleGoverned(t, "Foo", "_name");
    FreshInstanceOneWrite(t, "Foo", [], "_name", Const(StrT));
  }

  /** On a `Foo` whose own dictionary holds `_name: str`, `name` goes through the property and `_name` is read from the dictionary. */
  lemma PropertyInstanceReads(t: Table)
    requires t == WithProperty
    ensures InstanceRead(t, "Foo", map["_name" := StrT], "name") == Found(StrT)
    ensures InstanceRead(t, "Foo", map["_name" := StrT], "_name") == Found(StrT)
  {
    assert SimpleIn(t, "Foo");
    SimpleLinear(t, "Foo");
    SimpleOverride(t, "Foo", "__getattribute__");
    SimpleSlot(t, "Foo", "name");
    SimpleSlot(t, "Foo", "_name");
  }

  /** `Foo.name` on the class is the property object itself. */
  lemma PropertyClassRead(t: Table)
    requires t == WithProperty
    ensures ClassRead(t, "Foo", "name") == Found(Single(Inst("property")))
  {
    assert SimpleIn(t, "Foo");
    SimpleClassRead(t, "Foo", "name");
  }

  /**
   testProperty: on an instance `self.name` is the getter's `str` (so `test`
   returns `str`), while on the class `Foo.name` is the property object.
   */
  lemma PropertyRead(t: Table)
    requires t == WithProperty
    ensures ValueRead(t, Construct(t, "Foo", []), "name") == Found(StrT)
    ensures ValueRead(t, Construct(t, "Foo", []), "_name") == Found(StrT)
    ensures ClassRead(t, "Foo", "name") == Found(Single(Inst("property")))
  {
    PropertyConstruct(t);
    PropertyInstanceReads(t);
    PropertyClassRead(t);
  }

  // ---------------------------------------------------------------------------
  // testDescriptorSelf, testDescriptorInstance, testDescriptorClass

  /** The descriptor class `Foo`: its `__get__` returns `str` and it has no `__set__`. */
  lemma DescriptorGet(t: Table)
    requires SimpleIn(t, "Foo") && "__get__" in t["Foo"].dict && t["Foo"].dict["__get__"] == ReturnsStr
    requires "__set__" !in t["Foo"].dict
    ensures MethodResult(t, "Foo", "__get__") == Some(StrT)
    ensures MethodResult(t, "Foo", "__set__").None?
  {
    SimpleMethod(t, "Foo", "__get__");
    SimpleMethod(t, "Foo", "__set__");
  }

  /**
   An instance read of `foo` on a simple `Bar` that holds a `Foo` object under
   `foo` applies `Foo.__get__`, whatever the instance's own dictionary holds
   apart from `foo`.
   */
  lemma DescriptorApplied(t: Table, attrs: map<Name, TypeSet>)
    requires SimpleIn(t, "Foo") && "__get__" in t["Foo"].dict && t["Foo"].dict["__get__"] == ReturnsStr
    requires "__set__" !in t["Foo"].dict
    requires SimpleIn(t, "Bar") && "foo" in t["Bar"].dict && t["Bar"].dict["foo"] == Held("Foo")
    requires "__getattribute__" !in t["Bar"].dict
    requires "foo" !in attrs
    ensures InstanceRead(t, "Bar", attrs, "foo") == Found(StrT)
  {
    DescriptorGet(t);
    SimpleLinear(t, "Bar");
    SimpleSlot(t, "Bar", "foo");
    SimpleOverride(t, "Bar", "__getattribute__");
  }

  /** testDescriptorSelf: `self.foo` on a `Bar` is `__get__`'s `str`, not the `Foo` object. */
  lemma DescriptorSelfRead(t: Table)
    requires t == DescriptorSelf
    ensures InstanceRead(t, "Bar", map[], "foo") == Found(StrT)
    ensures InstanceRead(t, "Bar", map[], "foo") != Found(Single(Inst("Foo")))
  {
    assert SimpleIn(t, "Foo") && SimpleIn(t, "Bar");
    DescriptorApplied(t, map[]);
  }

  /** `Bar()` in testDescriptorInstance runs `Bar.__init__`, setting `_name` to `str`. */
  lemma DescriptorInstanceConstruct(t: Table)
    requires t == DescriptorInstance
    ensures Construct(t, "Bar", []) == Obj("Bar", map["_name" := StrT])
  {
    assert SimpleIn(t, "Bar");
    SimpleNew(t, "Bar");
    SimpleInitWrites(t, "Bar");
    SimpleGoverned(t, "Bar", "_name");
    FreshInstanceOneWrite(t, "Bar", [], "_name", Const(StrT));
  }

  /** On a `Bar` whose own dictionary holds `_name: str`, `_name` is read from the dictionary. */
  lemma DescriptorInstanceOwnRead(t: Table)
    requires t == DescriptorInstance
    ensures InstanceRead(t, "Bar", map["_name" := StrT], "_name") == Found(StrT)
  {
    assert SimpleIn(t, "Bar");
    SimpleLinear(t, "Bar");
    SimpleSlot(t, "Bar", "_name");
    SimpleOverride(t, "Bar", "__getattribute__");
  }

  /** On a `Bar` whose own dictionary holds `_name: str`, `foo` is `__get__`'s `str`. */
  lemma DescriptorInstanceFooRead(t: Table)
    requires t == DescriptorInstance
    ensures InstanceRead(t, "Bar", map["_name" := StrT], "foo") == Found(StrT)
  {
    assert SimpleIn(t, "Foo") && SimpleIn(t, "Bar");
    DescriptorApplied(t, map["_name" := StrT]);
  }

  /**
   testDescriptorInstance: `obj._name` on the instance passed to `__get__` is
   `str` (the summary's return type), and `self.foo` is that `str`.
   */
  lemma DescriptorInstanceRead(t: Table)
    requires t == DescriptorInstance
    ensures Construct(t, "Bar", []) == Obj("Bar", map["_name" := StrT])
    ensures ValueRead(t, Obj("Bar", map["_name" := StrT]), "_name") == Found(StrT)
    ensures ValueRead(t, Obj("Bar", map["_name" := StrT]), "foo") == Found(StrT)
  {
    DescriptorInstanceConstruct(t);
    DescriptorInstanceOwnRead(t);
    DescriptorInstanceFooRead(t);
  }

  /**
   testDescriptorClass: `objtype._name` on the owner class is `str` (the
   summary's return type), and `self.foo` is that `str`.
   */
  lemma DescriptorClassRead(t: Table)
    requires t == DescriptorClass
    ensures ClassRead(t, "Bar", "_name") == Found(StrT)
    ensures InstanceRead(t, "Bar", map[], "foo") == Found(StrT)
  {
    assert SimpleIn(t, "Foo") && SimpleIn(t, "Bar");
    SimpleLinear(t, "Bar");
    SimpleSlot(t, "Bar", "_name");
    DescriptorApplied(t, map[]);
  }
}
