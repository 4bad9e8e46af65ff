/**
 The diamond `D(B, C)` over `A(object)`: `B` and `C` both define `y`, only
 `C` defines `z`, only `A` defines `x`. Lookup along `D, B, C, A, object`
 takes the first definition and never merges shadowed ones.
 */
module DiamondScenario {
  import opened Options
  import opened TypeSets
  import opened ClassModel
  import opened Linearization
  import opened Lookup
  import opened Builtins
  import opened MergeShapes

  const Diamond: Table := map[
    Root := ObjectDef,
    "A" := Simple(map["x" := Plain(IntT)]),
    "B" := ClassDef([Named("A")], map["y" := Plain(IntT)], None),
    "C" := ClassDef([Named("A")], map["y" := Plain(StrT), "z" := Plain(ComplexT)], None),
    "D" := ClassDef([Named("B"), Named("C")],
                    map["get_x" := Function(Returns(Other(IntT)), map[]),
                        "get_y" := Function(Returns(Other(IntT)), map[]),
                        "get_z" := Function(Returns(Other(ComplexT)), map[])], None)
  ]

  const DiamondOrder: seq<Entry> := [C("D"), C("B"), C("C"), C("A"), C(Root)]

  /** `B(A)` and `C(A)` linearize as single inheritance over `A, object`. */
  lemma SideMro(t: Table, side: Name, v: set<Name>)
    requires t == Diamond
    requires side == "B" || side == "C"
    requires side !in v && "A" !in v && Root !in v
    ensures Mro(t, side, v) == Ok([C(side), C("A"), C(Root)])
  {
    SimpleMro(t, "A", v + {side});
    SingleInheritance(t, side, "A", v);
    assert [C(side)] + [C("A"), C(Root)] == [C(side), C("A"), C(Root)];
  }

  /** The linearizations of `D`'s bases, computed with `D` in progress. */
  lemma DiamondBaseLins(t: Table)
    requires t == Diamond
    ensures BaseLins(t, [Named("B"), Named("C")], {"D"}) ==
            Ok([[C("B"), C("A"), C(Root)], [C("C"), C("A"), C(Root)]])
  {
    SideMro(t, "B", {"D"});
    SideMro(t, "C", {"D"});
    BaseLinsFrom(t, [Named("B"), Named("C")], {"D"},
                 [[C("B"), C("A"), C(Root)], [C("C"), C("A"), C(Root)]]);
  }

  /** testSuperDiamond: the linearization of `D` is `D, B, C, A, object`. */
  lemma DiamondLinear(t: Table)
    requires t == Diamond
    ensures Linear(t, "D") == DiamondOrder
  {
    var lins: seq<seq<Entry>> := [[C("B"), C("A"), C(Root)], [C("C"), C("A"), C(Root)]];
    assert t["D"].bases == [Named("B"), Named("C")];
    DiamondBaseLins(t);
    assert BaseEntries([Named("B"), Named("C")]) == [C("B"), C("C")];
    assert lins + [[C("B"), C("C")]] == [[C("B"), C("A"), C(Root)], [C("C"), C("A"), C(Root)], [C("B"), C("C")]];
    DiamondMerge(C("A"), C("B"), C("C"), C(Root));
    LinearFrom(t, "D", lins, [C("B"), C("C"), C("A"), C(Root)]);
  }

  /**
   testSuperDiamond: `super(D, self)` reads resume after `D`. `y` is `B`'s
   `int` (not merged with `C`'s `str`), `z` skips `B` and `A` to reach `C`'s
   `complex`, and `x` falls through to `A`'s `int`.
   */
  lemma SuperDiamond(t: Table)
    requires t == Diamond
    ensures SuperRead(t, "D", "D", "y") == Found(IntT)
    ensures SuperRead(t, "D", "D", "z") == Found(ComplexT)
    ensures SuperRead(t, "D", "D", "x") == Found(IntT)
  {
    DiamondLinear(t);
    var rest := DiamondOrder[1..];
    assert After(DiamondOrder, C("D")) == rest;
    assert FirstSupplier(t, rest, "y", 0);
    assert FirstSupplier(t, rest, "z", 1);
    assert FirstSupplier(t, rest, "x", 2);
  }

  /** No class along `D, B, C, A, object` defines `__getattribute__`. */
  lemma DiamondNoHookSlot(t: Table)
    requires t == Diamond
    ensures FindSlot(t, DiamondOrder, "__getattribute__").Miss?
  {
    assert forall i :: 0 <= i < |DiamondOrder| ==> !Supplies(t, DiamondOrder[i], "__getattribute__");
  }

  /** `D` and its ancestors define no `__getattribute__`. */
  lemma DiamondNoHook(t: Table)
    requires t == Diamond
    ensures Override(t, "D", "__getattribute__").None?
  {
    DiamondNoHookSlot(t);
    DiamondLinear(t);
  }

  /** Where `x`, `y` and `z` are first found along `D, B, C, A, object`. */
  lemma DiamondSuppliers(t: Table)
    requires t == Diamond
    ensures FirstSupplier(t, DiamondOrder, "y", 1) && t["B"].dict["y"] == Plain(IntT)
    ensures FirstSupplier(t, DiamondOrder, "z", 2) && t["C"].dict["z"] == Plain(ComplexT)
    ensures FirstSupplier(t, DiamondOrder, "x", 3) && t["A"].dict["x"] == Plain(IntT)
  {
  }

  /** The same order governs plain instance reads on `D()`: `y` is `int`, `z` is `complex`, `x` is `int`. */
  lemma DiamondInstanceReads(t: Table)
    requires t == Diamond
    ensures InstanceRead(t, "D", map[], "y") == Found(IntT)
    ensures InstanceRead(t, "D", map[], "z") == Found(ComplexT)
    ensures InstanceRead(t, "D", map[], "x") == Found(IntT)
  {
    DiamondLinear(t);
    DiamondNoHook(t);
    DiamondSuppliers(t);
    FirstMatchWins(t, "D", "y", 1, IntT);
    FirstMatchWins(t, "D", "z", 2, ComplexT);
    FirstMatchWins(t, "D", "x", 3, IntT);
  }
}
