/**
 Classes with bases of unknown origin. `Foo(Y)` and `Bar(X, Foo, Y)` with
 `X`, `Y` unresolvable still linearize, with an `Any` entry per unknown
 base; a class with an unknown ancestor never lacks an attribute; and
 both `Foo()` and `Bar(Foo, ?)` are constructed as ordinary instances.
 */
module UnknownBasesScenario {
  import opened Options
  import opened TypeSets
  import opened ClassModel
  import opened Linearization
  import opened Lookup
  import opened Construction
  import opened Builtins

  /** `class Foo(Y)` and `class Bar(X, Foo, Y)` with `X`, `Y` imported from nowhere. */
  const Unsolvable: Table := map[
    Root := ObjectDef,
    "Foo" := ClassDef([Unknown], map[], None),
    "Bar" := ClassDef([Unknown, Named("Foo"), Unknown], map[], None)
  ]

  /** `class Foo(object)` and `class Bar(Foo, __any_object__)`. */
  const PartlyKnown: Table := map[
    Root := ObjectDef,
    "Foo" := Simple(map[]),
    "Bar" := ClassDef([Named("Foo"), Unknown], map[], None)
  ]

  // ---------------------------------------------------------------------------
  // testMROWithUnsolvables

  /** The merge for `Bar(X, Foo, Y)`, last steps: `f`, then the remaining unknown entry. */
  lemma UnsolvableMergeTail(f: Entry)
    requires f.C?
    ensures Merge([[], [f, AnyEntry], [], [f, AnyEntry]]) == Some([f, AnyEntry])
  {
    var s1: seq<seq<Entry>> := [[], [f, AnyEntry], [], [f, AnyEntry]];
    var s2: seq<seq<Entry>> := [[], [AnyEntry], [], [AnyEntry]];
    MergeOfEmpties([[], [], [], []]);
    assert Drop(s2, AnyEntry) == [[], [], [], []];
    assert Pick(s2, 0) == Some(1) by {
      assert Pick(s2, 1) == Some(1);
    }
    MergeStep(s2, 1, []);
    assert [AnyEntry] + [] == [AnyEntry];
    assert Drop(s1, f) == s2;
    assert Pick(s1, 0) == Some(1) by {
      assert NotInTails(s1, f) by {
        assert forall j :: 0 <= j < |s1| ==> !InTail(s1[j], f);
      }
      assert Pick(s1, 1) == Some(1);
    }
    MergeStep(s1, 1, [AnyEntry]);
    assert [f] + [AnyEntry] == [f, AnyEntry];
  }

  /**
   The merge for `Bar(X, Foo, Y)`: the unknown entries never block, so the
   first unknown entry is taken, then `Foo`, then the last unknown entry.
   */
  lemma UnsolvableMerge(f: Entry)
    requires f.C?
    ensures Merge([[AnyEntry], [f, AnyEntry], [AnyEntry], [AnyEntry, f, AnyEntry]]) == Some([AnyEntry, f, AnyEntry])
  {
    var s0: seq<seq<Entry>> := [[AnyEntry], [f, AnyEntry], [AnyEntry], [AnyEntry, f, AnyEntry]];
    UnsolvableMergeTail(f);
    assert Drop(s0, AnyEntry) == [[], [f, AnyEntry], [], [f, AnyEntry]];
    assert Pick(s0, 0) == Some(0);
    MergeStep(s0, 0, [f, AnyEntry]);
    assert [AnyEntry] + [f, AnyEntry] == [AnyEntry, f, AnyEntry];
  }

  /** `Foo(Y)` linearizes to `Foo, Any`, also while `Bar` is in progress. */
  lemma FooMro(t: Table, v: set<Name>)
    requires t == Unsolvable && "Foo" !in v
    ensures Mro(t, "Foo", v) == Ok([C("Foo"), AnyEntry])
  {
    OnlyUnknownBase(t, "Foo", v);
  }

  /** The linearizations of `Bar`'s bases `X, Foo, Y`. */
  lemma BarBaseLins(t: Table)
    requires t == Unsolvable
    ensures BaseLins(t, [Unknown, Named("Foo"), Unknown], {"Bar"}) ==
            Ok([[AnyEntry], [C("Foo"), AnyEntry], [AnyEntry]])
  {
    FooMro(t, {"Bar"});
    BaseLinsFrom(t, [Unknown, Named("Foo"), Unknown], {"Bar"}, [[AnyEntry], [C("Foo"), AnyEntry], [AnyEntry]]);
  }

  /**
   testMROWithUnsolvables: `Foo` linearizes to `Foo, Any` and `Bar` to
   `Bar, Any, Foo, Any`; neither is an error.
   */
  lemma MroWithUnsolvables(t: Table)
    requires t == Unsolvable
    ensures Linear(t, "Foo") == [C("Foo"), AnyEntry] && Mro(t, "Foo", {}).Ok?
    ensures Linear(t, "Bar") == [C("Bar"), AnyEntry, C("Foo"), AnyEntry] && Mro(t, "Bar", {}).Ok?
  {
    FooMro(t, {});
    var lins: seq<seq<Entry>> := [[AnyEntry], [C("Foo"), AnyEntry], [AnyEntry]];
    assert t["Bar"].bases == [Unknown, Named("Foo"), Unknown];
    BarBaseLins(t);
    assert BaseEntries([Unknown, Named("Foo"), Unknown]) == [AnyEntry, C("Foo"), AnyEntry];
    assert lins + [[AnyEntry, C("Foo"), AnyEntry]] ==
           [[AnyEntry], [C("Foo"), AnyEntry], [AnyEntry], [AnyEntry, C("Foo"), AnyEntry]];
    UnsolvableMerge(C("Foo"));
    LinearFrom(t, "Bar", lins, [AnyEntry, C("Foo"), AnyEntry]);
    var none: set<Name> := {};
    assert none + {"Bar"} == {"Bar"};
    MroFrom(t, "Bar", none, lins, [AnyEntry, C("Foo"), AnyEntry]);
  }

  // ---------------------------------------------------------------------------
  // testInheritFromUnknown

  /**
   testInheritFromUnknown: a class deriving from an unknown value reads every
   attribute it does not define itself as `Any`, on instances and on the class.
   */
  lemma InheritFromUnknown(t: Table, n: Name)
    requires t == Unsolvable && n != "__class__"
    ensures InstanceRead(t, "Foo", map[], n) == Found(AnyT)
    ensures ClassRead(t, "Foo", n) == Found(AnyT)
  {
    OnlyUnknownBaseReadsAny(t, "Foo", map[], n);
  }

  /**
   `Foo()` for `class Foo(Y)` is an ordinary `Foo`: with no class defining
   `__new__` or `__init__`, the unknown base supplies neither, and the default
   makes a fresh instance.
   */
  lemma UnsolvableConstructs(t: Table)
    requires t == Unsolvable
    ensures Construct(t, "Foo", []) == Obj("Foo", map[])
  {
    MroWithUnsolvables(t);
    assert [C("Foo"), AnyEntry][1..] == [AnyEntry] && [AnyEntry][1..] == [];
    assert FindSlot(t, Linear(t, "Foo"), "__new__") == Opaque;
    assert FindSlot(t, Linear(t, "Foo"), "__init__") == Opaque;
    FreshInstanceNoWrites(t, "Foo", []);
  }

  // ---------------------------------------------------------------------------
  // testInheritFromUnknownAndInitialize

  /** The merge for `Bar(Foo, ?)` once `Foo` is taken: `object`, then the unknown entry. */
  lemma PartlyKnownMergeTail(o: Entry)
    requires o.C?
    ensures Merge([[o], [AnyEntry], [AnyEntry]]) == Some([o, AnyEntry])
  {
    var s1: seq<seq<Entry>> := [[o], [AnyEntry], [AnyEntry]];
    var s2: seq<seq<Entry>> := [[], [AnyEntry], [AnyEntry]];
    MergeOfEmpties([[], [], []]);
    assert Drop(s2, AnyEntry) == [[], [], []];
    assert Pick(s2, 0) == Some(1) by {
      assert Pick(s2, 1) == Some(1);
    }
    MergeStep(s2, 1, []);
    assert [AnyEntry] + [] == [AnyEntry];
    assert Drop(s1, o) == s2;
    assert Pick(s1, 0) == Some(0) by {
      assert NotInTails(s1, o) by {
        assert forall j :: 0 <= j < |s1| ==> !InTail(s1[j], o);
      }
    }
    MergeStep(s1, 0, [AnyEntry]);
    assert [o] + [AnyEntry] == [o, AnyEntry];
  }

  /** The merge for `Bar(Foo, ?)`: `Foo`, then `object` (in no tail), then the unknown entry. */
  lemma PartlyKnownMerge(f: Entry, o: Entry)
    requires f.C? && o.C? && f != o
    ensures Merge([[f, o], [AnyEntry], [f, AnyEntry]]) == Some([f, o, AnyEntry])
  {
    var s0: seq<seq<Entry>> := [[f, o], [AnyEntry], [f, AnyEntry]];
    PartlyKnownMergeTail(o);
    assert Drop(s0, f) == [[o], [AnyEntry], [AnyEntry]];
    assert Pick(s0, 0) == Some(0) by {
      assert NotInTails(s0, f) by {
        assert s0[0][1..] == [o] && s0[2][1..] == [AnyEntry];
        assert forall j :: 0 <= j < |s0| ==> !InTail(s0[j], f);
      }
    }
    MergeStep(s0, 0, [o, AnyEntry]);
    assert [f] + [o, AnyEntry] == [f, o, AnyEntry];
  }

  /** The linearizations of `Bar`'s bases `Foo, ?`. */
  lemma PartlyKnownBaseLins(t: Table)
    requires t == PartlyKnown
    ensures BaseLins(t, [Named("Foo"), Unknown], {"Bar"}) == Ok([[C("Foo"), C(Root)], [AnyEntry]])
  {
    SimpleMro(t, "Foo", {"Bar"});
    BaseLinsFrom(t, [Named("Foo"), Unknown], {"Bar"}, [[C("Foo"), C(Root)], [AnyEntry]]);
  }

  /** `Bar(Foo, ?)` linearizes to `Bar, Foo, object, Any`. */
  lemma PartlyKnownLinear(t: Table)
    requires t == PartlyKnown
    ensures Linear(t, "Bar") == [C("Bar"), C("Foo"), C(Root), AnyEntry]
  {
    var lins: seq<seq<Entry>> := [[C("Foo"), C(Root)], [AnyEntry]];
    assert t["Bar"].bases == [Named("Foo"), Unknown];
    PartlyKnownBaseLins(t);
    assert BaseEntries([Named("Foo"), Unknown]) == [C("Foo"), AnyEntry];
    assert lins + [[C("Foo"), AnyEntry]] == [[C("Foo"), C(Root)], [AnyEntry], [C("Foo"), AnyEntry]];
    PartlyKnownMerge(C("Foo"), C(Root));
    LinearFrom(t, "Bar", lins, [C("Foo"), C(Root), AnyEntry]);
  }

  /** `__new__` and `__init__` of `Bar(Foo, ?)` are the root's: found before the unknown entry. */
  lemma PartlyKnownSlots(t: Table)
    requires t == PartlyKnown
    ensures FindSlot(t, [C("Bar"), C("Foo"), C(Root), AnyEntry], "__new__") == Defined(Root, Function(FreshInstance, map[]))
    ensures FindSlot(t, [C("Bar"), C("Foo"), C(Root), AnyEntry], "__init__") ==
            Defined(Root, Function(Returns(Other(NoneT)), map[]))
  {
    assert FirstSupplier(t, [C("Bar"), C("Foo"), C(Root), AnyEntry], "__new__", 2);
    assert FirstSupplier(t, [C("Bar"), C("Foo"), C(Root), AnyEntry], "__init__", 2);
  }

  /** `Bar`'s `__new__` candidate is a fresh `Bar`, and its `__init__` writes nothing. */
  lemma PartlyKnownCandidate(t: Table)
    requires t == PartlyKnown
    ensures NewCandidate(t, "Bar") == Obj("Bar", map[])
    ensures IsInstanceOf(t, Obj("Bar", map[]), "Bar")
    ensures InitWrites(t, "Bar") == map[]
  {
    PartlyKnownLinear(t);
    PartlyKnownSlots(t);
  }

  /**
   testInheritFromUnknownAndInitialize: `Bar(duration=0)` is an instance of
   `Bar` even though one of its bases is unknown.
   */
  lemma InheritFromUnknownAndInitialize(t: Table)
    requires t == PartlyKnown
    ensures Construct(t, "Bar", [IntT]) == Obj("Bar", map[])
    ensures TypeOf(Construct(t, "Bar", [IntT])) == Single(Inst("Bar"))
  {
    PartlyKnownCandidate(t);
    assert RunInit(t, Obj("Bar", map[]), [IntT]).attrs == map[];
  }
}
