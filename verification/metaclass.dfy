/**
 A metaclass hook. `EnumMeta(type)` defines `__getattribute__` returning
 `Any`; `Enum` declares it as its metaclass and `IntEnum(int, Enum)` inherits
 it. Reading `x` on `A(Enum)` or `B(IntEnum)` goes to the metaclass hook even
 though both classes define `x = 1`, and any read on the resulting `Any` is
 `Any` again.
 */
module MetaclassScenario {
  import opened Options
  import opened TypeSets
  import opened ClassModel
  import opened Linearization
  import opened Lookup
  import opened Builtins
  import opened MergeShapes

  /** testMetaclassGetAttribute: the `enum` stub and the two subclasses of the test. */
  const EnumModule: Table := map[
    Root := ObjectDef,
    TypeRoot := Simple(map[]),
    "int" := Simple(map[]),
    "EnumMeta" := ClassDef([Named(TypeRoot)], map["__getattribute__" := Function(Returns(Other(AnyT)), map[])], None),
    "Enum" := ClassDef([Named(Root)], map[], Some("EnumMeta")),
    "IntEnum" := ClassDef([Named("int"), Named("Enum")], map[], None),
    "A" := ClassDef([Named("Enum")], map["x" := Plain(IntT)], None),
    "B" := ClassDef([Named("IntEnum")], map["x" := Plain(IntT)], None)
  ]

  const EnumMetaOrder: seq<Entry> := [C("EnumMeta"), C(TypeRoot), C(Root)]
  const AOrder: seq<Entry> := [C("A"), C("Enum"), C(Root)]
  const BOrder: seq<Entry> := [C("B"), C("IntEnum"), C("int"), C("Enum"), C(Root)]

  /** `EnumMeta` derives from `type`, which derives from `object`. */
  lemma EnumMetaLinear(t: Table)
    requires t == EnumModule
    ensures Linear(t, "EnumMeta") == EnumMetaOrder
  {
    assert SimpleIn(t, TypeRoot);
    var none: set<Name> := {};
    assert none + {"EnumMeta"} == {"EnumMeta"};
    SimpleMro(t, TypeRoot, {"EnumMeta"});
    SingleInheritance(t, "EnumMeta", TypeRoot, {});
    assert [C("EnumMeta")] + [C(TypeRoot), C(Root)] == EnumMetaOrder;
  }

  /** The metaclass's `__getattribute__` is its own, not the root's, so it overrides and answers `Any`. */
  lemma EnumMetaHook(t: Table)
    requires t == EnumModule
    ensures Override(t, "EnumMeta", "__getattribute__") == Some(AnyT)
  {
    EnumMetaLinear(t);
    assert FirstSupplier(t, EnumMetaOrder, "__getattribute__", 0);
  }

  /** `Enum` derives from `object` alone; declaring a metaclass does not change its linearization. */
  lemma EnumMro(t: Table, v: set<Name>)
    requires t == EnumModule
    requires "Enum" !in v && Root !in v
    ensures Mro(t, "Enum", v) == Ok([C("Enum"), C(Root)])
  {
    SimpleMro(t, "Enum", v);
  }

  /** `A(Enum)` linearizes to `A, Enum, object`. */
  lemma ALinear(t: Table)
    requires t == EnumModule
    ensures Linear(t, "A") == AOrder
  {
    var none: set<Name> := {};
    assert none + {"A"} == {"A"};
    EnumMro(t, {"A"});
    SingleInheritance(t, "A", "Enum", {});
    assert [C("A")] + [C("Enum"), C(Root)] == AOrder;
  }

  /** The linearizations of `IntEnum`'s bases `int` and `Enum`. */
  lemma IntEnumBaseLins(t: Table, v: set<Name>)
    requires t == EnumModule
    requires "int" !in v && "Enum" !in v && Root !in v
    ensures BaseLins(t, [Named("int"), Named("Enum")], v) == Ok([[C("int"), C(Root)], [C("Enum"), C(Root)]])
  {
    assert SimpleIn(t, "int");
    SimpleMro(t, "int", v);
    EnumMro(t, v);
    BaseLinsFrom(t, [Named("int"), Named("Enum")], v, [[C("int"), C(Root)], [C("Enum"), C(Root)]]);
  }

  /** `IntEnum(int, Enum)` linearizes to `IntEnum, int, Enum, object`: the two-base C3 merge. */
  lemma IntEnumMro(t: Table, v: set<Name>)
    requires t == EnumModule
    requires "IntEnum" !in v && "int" !in v && "Enum" !in v && Root !in v
    ensures Mro(t, "IntEnum", v) == Ok([C("IntEnum"), C("int"), C("Enum"), C(Root)])
  {
    var lins: seq<seq<Entry>> := [[C("int"), C(Root)], [C("Enum"), C(Root)]];
    assert t["IntEnum"].bases == [Named("int"), Named("Enum")];
    IntEnumBaseLins(t, v + {"IntEnum"});
    assert BaseEntries([Named("int"), Named("Enum")]) == [C("int"), C("Enum")];
    assert lins + [[C("int"), C("Enum")]] == [[C("int"), C(Root)], [C("Enum"), C(Root)], [C("int"), C("Enum")]];
    TwoBaseMerge(C("int"), C("Enum"), C(Root));
    MroFrom(t, "IntEnum", v, lins, [C("int"), C("Enum"), C(Root)]);
    assert [C("IntEnum")] + [C("int"), C("Enum"), C(Root)] == [C("IntEnum"), C("int"), C("Enum"), C(Root)];
  }

  /** `B(IntEnum)` linearizes to `B, IntEnum, int, Enum, object`. */
  lemma BLinear(t: Table)
    requires t == EnumModule
    ensures Linear(t, "B") == BOrder
  {
    var none: set<Name> := {};
    assert none + {"B"} == {"B"};
    IntEnumMro(t, {"B"});
    SingleInheritance(t, "B", "IntEnum", {});
    assert [C("B")] + [C("IntEnum"), C("int"), C("Enum"), C(Root)] == BOrder;
  }

  /** Both `A` and `B` get `EnumMeta` from `Enum`, the first entry declaring a metaclass. */
  lemma EnumMetaInherited(t: Table)
    requires t == EnumModule
    ensures MetaOf(t, AOrder) == Some("EnumMeta")
    ensures MetaOf(t, BOrder) == Some("EnumMeta")
  {
    assert DeclaresMeta(t, AOrder[1]) && !DeclaresMeta(t, AOrder[0]);
    assert DeclaresMeta(t, BOrder[3]);
    assert forall j :: 0 <= j < 3 ==> !DeclaresMeta(t, BOrder[j]);
  }

  /** Both classes do define `x` themselves. */
  lemma ClassesDefineX(t: Table)
    requires t == EnumModule
    ensures FindSlot(t, Linear(t, "A"), "x") == Defined("A", Plain(IntT))
    ensures FindSlot(t, Linear(t, "B"), "x") == Defined("B", Plain(IntT))
  {
    ALinear(t);
    BLinear(t);
    assert FirstSupplier(t, AOrder, "x", 0);
    assert FirstSupplier(t, BOrder, "x", 0);
  }

  /**
   testMetaclassGetAttribute: `A.x` and `B.x` are `Any` although both classes
   define `x` as `int`, and `A.x.name` is `Any` again.
   */
  lemma MetaclassGetAttribute(t: Table)
    requires t == EnumModule
    ensures ClassRead(t, "A", "x") == Found(AnyT)
    ensures ClassRead(t, "B", "x") == Found(AnyT)
    ensures TypeRead(t, ClassRead(t, "A", "x").ty, "name") == Found(AnyT)
    ensures TypeRead(t, ClassRead(t, "B", "x").ty, "name") == Found(AnyT)
  {
    ALinear(t);
    BLinear(t);
    EnumMetaInherited(t);
    EnumMetaHook(t);
    MetaclassGetattributeIntercepts(t, "A", "x");
    MetaclassGetattributeIntercepts(t, "B", "x");
  }
}
