/**
 The builtin classes the scenarios rely on, reduced to what the class object
 model needs: the root class with its `__new__` (a fresh instance of the class
 passed in) and `__init__` (no writes), and names for builtin instance types.
 */
module Builtins {
  import opened Options
  import opened TypeSets
  import opened ClassModel
  import opened Linearization
  import opened Lookup
  import opened Writes
  import opened Construction

  const IntT: TypeSet := Single(Inst("int"))
  const StrT: TypeSet := Single(Inst("str"))
  const BoolT: TypeSet := Single(Inst("bool"))
  const FloatT: TypeSet := Single(Inst("float"))
  const ComplexT: TypeSet := Single(Inst("complex"))
  const NoneT: TypeSet := Single(Inst("NoneType"))

  /** `object`: no bases, `__new__(cls)` makes a fresh `cls`, `__init__` writes nothing. */
  const ObjectDef: ClassDef :=
    ClassDef([], map["__new__" := Function(FreshInstance, map[]),
                     "__init__" := Function(Returns(Other(NoneT)), map[])], None)

  /** A class deriving from `object` alone. */
  function Simple(dict: map<Name, Slot>): ClassDef {
    ClassDef([Named(Root)], dict, None)
  }

  /** Every table holding the root class linearizes it to itself alone. */
  lemma ObjectMro(t: Table, v: set<Name>)
    requires Root in t && t[Root] == ObjectDef && Root !in v
    ensures Mro(t, Root, v) == Ok([C(Root)])
  {
    NoBases(t, Root, v);
  }

  /** A class deriving from `object` alone linearizes to itself and `object`. */
  lemma SimpleMro(t: Table, c: Name, v: set<Name>)
    requires Root in t && t[Root] == ObjectDef && Root !in v
    requires c in t && t[c].bases == [Named(Root)] && c !in v && c != Root
    ensures Mro(t, c, v) == Ok([C(c), C(Root)])
  {
    ObjectMro(t, v + {c});
    SingleInheritance(t, c, Root, v);
    assert [C(c)] + [C(Root)] == [C(c), C(Root)];
  }

  /** `c` is a class deriving from `object` alone, with no metaclass, in a table holding the root class. */
  predicate SimpleIn(t: Table, c: Name) {
    Root in t && t[Root] == ObjectDef && c in t && c != Root &&
    t[c].bases == [Named(Root)] && t[c].meta.None?
  }

  /** A simple class linearizes to itself and `object`, and neither declares a metaclass. */
  lemma SimpleLinear(t: Table, c: Name)
    requires SimpleIn(t, c)
    ensures Linear(t, c) == [C(c), C(Root)]
    ensures MetaOf(t, Linear(t, c)).None?
  {
    SimpleMro(t, c, {});
    assert [C(c), C(Root)][1..] == [C(Root)];
    assert MetaOf(t, [C(Root)][1..]).None?;
  }

  /** Along `c, object` a name is found in `c`'s dictionary first, then in the root's, else nowhere. */
  lemma SimpleSlot(t: Table, c: Name, n: Name)
    requires SimpleIn(t, c)
    ensures FindSlot(t, [C(c), C(Root)], n) ==
            if n in t[c].dict then Defined(c, t[c].dict[n])
            else if n in ObjectDef.dict then Defined(Root, ObjectDef.dict[n])
            else Miss
  {
    assert [C(c), C(Root)][1..] == [C(Root)];
    assert [C(Root)][1..] == [];
  }

  /** On a simple class a hook is an override exactly when the class itself defines it as a function. */
  lemma SimpleOverride(t: Table, c: Name, n: Name)
    requires SimpleIn(t, c) && c != TypeRoot
    ensures Override(t, c, n) ==
            if n in t[c].dict && t[c].dict[n].Function? then Some(ResultType(t[c].dict[n].produces, c)) else None
  {
    SimpleLinear(t, c);
    SimpleSlot(t, c, n);
  }

  /** On a simple class a method's result comes from the class's own function, else from the root's. */
  lemma SimpleMethod(t: Table, c: Name, n: Name)
    requires SimpleIn(t, c)
    ensures MethodResult(t, c, n) ==
            if n in t[c].dict then
              (if t[c].dict[n].Function? then Some(ResultType(t[c].dict[n].produces, c)) else None)
            else if n in ObjectDef.dict then Some(ResultType(ObjectDef.dict[n].produces, c))
            else None
  {
    SimpleLinear(t, c);
    SimpleSlot(t, c, n);
  }

  /** A simple class's `__new__` is its own, else the root's, which makes a fresh instance. */
  lemma SimpleNew(t: Table, c: Name)
    requires SimpleIn(t, c)
    ensures NewCandidate(t, c) ==
            if "__new__" in t[c].dict then CallNew(t[c].dict["__new__"], c) else Obj(c, map[])
  {
    SimpleLinear(t, c);
    SimpleSlot(t, c, "__new__");
  }

  /** A simple class's `__init__` writes are those of its own `__init__` function, else none. */
  lemma SimpleInitWrites(t: Table, c: Name)
    requires SimpleIn(t, c)
    ensures InitWrites(t, c) ==
            if "__init__" in t[c].dict && t[c].dict["__init__"].Function? then t[c].dict["__init__"].writes
            else map[]
  {
    SimpleLinear(t, c);
    SimpleSlot(t, c, "__init__");
  }

  /** On a simple class a name is governed by a descriptor only when the class's own slot is a data descriptor. */
  lemma SimpleGoverned(t: Table, c: Name, n: Name)
    requires SimpleIn(t, c)
    ensures GovernedByDescriptor(t, c, n) <==> n in t[c].dict && IsData(t, t[c].dict[n])
  {
    SimpleLinear(t, c);
    SimpleSlot(t, c, n);
  }

  /** Calling a simple class that defines neither `__new__` nor `__init__` yields a fresh, empty instance. */
  lemma SimpleConstruct(t: Table, c: Name)
    requires SimpleIn(t, c) && "__new__" !in t[c].dict && "__init__" !in t[c].dict
    ensures Construct(t, c, []) == Obj(c, map[])
  {
    SimpleNew(t, c);
    SimpleInitWrites(t, c);
    FreshInstanceNoWrites(t, c, []);
  }

  /** Without a metaclass, a class-level read on a simple class sees its own dictionary, then the root's. */
  lemma SimpleClassRead(t: Table, c: Name, n: Name)
    requires SimpleIn(t, c)
    ensures ClassRead(t, c, n) ==
            if n in t[c].dict then Found(ViaClass(t, c, n, t[c].dict[n]))
            else if n in ObjectDef.dict then Found(ViaClass(t, Root, n, ObjectDef.dict[n]))
            else NoSuchAttribute
  {
    SimpleLinear(t, c);
    SimpleSlot(t, c, n);
  }

  /** An instance of a simple class is an instance of no other class but the root. */
  lemma SimpleInstanceOf(t: Table, b: Name, c: Name, attrs: map<Name, TypeSet>)
    requires SimpleIn(t, b)
    ensures IsInstanceOf(t, Obj(b, attrs), c) <==> c == b || c == Root
  {
    SimpleLinear(t, b);
  }

  /**
   On an instance of a simple class without `__getattribute__`, a name the
   classes do not define is read from the instance's own dictionary.
   */
  lemma SimpleOwnRead(t: Table, c: Name, attrs: map<Name, TypeSet>, n: Name)
    requires SimpleIn(t, c) && c != TypeRoot && "__getattribute__" !in t[c].dict
    requires n != "__class__" && n in attrs && n !in t[c].dict && n !in ObjectDef.dict
    ensures InstanceRead(t, c, attrs, n) == Found(attrs[n])
  {
    SimpleLinear(t, c);
    SimpleOverride(t, c, "__getattribute__");
    SimpleSlot(t, c, n);
  }
}
