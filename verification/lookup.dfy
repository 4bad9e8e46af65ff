/**
 Attribute reads. The instance protocol is, in order: a `__getattribute__`
 override (short-circuits everything), a data descriptor or property found on
 the class, the instance's own dictionary, the first class slot along the
 linearization (a non-data descriptor's `__get__` is applied), a
 `__getattr__` fallback, and otherwise no such attribute. Class-level reads
 consult the metaclass first. A read on a type-set distributes over its
 members; members lacking the name contribute nothing.
 */
module Lookup {
  import opened Options
  import opened TypeSets
  import opened ClassModel
  import opened Linearization

  datatype Hit = Defined(owner: Name, slot: Slot) | Opaque | Miss

  datatype Lookup = Found(ty: TypeSet) | NoSuchAttribute

  /** Entry `e` is a class that defines `n` in its own dictionary; an unknown entry defines nothing. */
  predicate Supplies(t: Table, e: Entry, n: Name) {
    e.C? && e.name in t && n in t[e.name].dict
  }

  /** Index `i` holds the first class of `mro` that defines `n`. */
  ghost predicate FirstSupplier(t: Table, mro: seq<Entry>, n: Name, i: int) {
    0 <= i < |mro| && Supplies(t, mro[i], n) && forall j :: 0 <= j < i ==> !Supplies(t, mro[j], n)
  }

  /**
   The slot of the first class along `mro` that defines `n`; shadowed slots
   are never seen. Unknown entries contribute no attributes of their own: only
   when every class lacks `n` does an unknown entry make the search `Opaque`
   (the `Any` fallback) instead of a miss.
   */
  function FindSlot(t: Table, mro: seq<Entry>, n: Name): (r: Hit)
    ensures r.Miss? <==> (forall i :: 0 <= i < |mro| ==> !Supplies(t, mro[i], n)) && AnyEntry !in mro
    ensures r.Opaque? <==> (forall i :: 0 <= i < |mro| ==> !Supplies(t, mro[i], n)) && AnyEntry in mro
    ensures forall i :: FirstSupplier(t, mro, n, i) ==> r == Defined(mro[i].name, t[mro[i].name].dict[n])
  {
    if |mro| == 0 then Miss
    else if Supplies(t, mro[0], n) then Defined(mro[0].name, t[mro[0].name].dict[n])
    else
      var r := FindSlot(t, mro[1..], n);
      assert forall i :: 1 <= i < |mro| ==> mro[i] == mro[1..][i - 1];
      assert forall i :: FirstSupplier(t, mro, n, i) ==> i > 0 && FirstSupplier(t, mro[1..], n, i - 1);
      assert AnyEntry in mro <==> mro[0] == AnyEntry || AnyEntry in mro[1..];
      if r.Miss? && mro[0].AnyEntry? then Opaque else r
  }

  /** The type a call of a function summary yields when invoked on class `cls`. */
  function ResultType(p: Produces, cls: Name): TypeSet {
    match p
    case Returns(v) => TypeOf(v)
    case FreshInstance => Single(Inst(cls))
  }

  /** The result type of method `n` as found along the linearization of `c`, if it is a function. */
  function MethodResult(t: Table, c: Name, n: Name): Option<TypeSet> {
    match FindSlot(t, Linear(t, c), n)
    case Defined(_, Function(p, _)) => Some(ResultType(p, c))
    case _ => None
  }

  /** Like `MethodResult`, but a definition on the root class or root metaclass is no override. */
  function Override(t: Table, c: Name, n: Name): Option<TypeSet> {
    match FindSlot(t, Linear(t, c), n)
    case Defined(owner, Function(p, _)) =>
      if owner == Root || owner == TypeRoot then None else Some(ResultType(p, c))
    case _ => None
  }

  /** The "get" result of a descriptor slot: a property's fget, or `__get__` of the held object's class. */
  function Getter(t: Table, s: Slot): Option<TypeSet> {
    match s
    case Property(fget) => Some(fget)
    case Held(d) => MethodResult(t, d, "__get__")
    case _ => None
  }

  /** A data descriptor has both get and set behaviour; every property is one. */
  predicate IsData(t: Table, s: Slot) {
    s.Property? || (s.Held? && Getter(t, s).Some? && MethodResult(t, s.cls, "__set__").Some?)
  }

  /** Reading a class slot through an instance: functions bind the instance, descriptors are applied. */
  function ViaInstance(t: Table, owner: Name, n: Name, s: Slot): TypeSet {
    match s
    case Plain(ty) => ty
    case Held(d) => if Getter(t, s).Some? then Getter(t, s).value else Single(Inst(d))
    case Function(_, _) => Single(Fn(owner, n, ToInstance))
    case ClassMethod(_) => Single(Fn(owner, n, ToClass))
    case StaticMethod(_) => Single(Fn(owner, n, Unbound))
    case Property(fget) => fget
  }

  /** Reading a class slot through the class: functions stay unbound, a property is the property object. */
  function ViaClass(t: Table, owner: Name, n: Name, s: Slot): TypeSet {
    match s
    case Plain(ty) => ty
    case Held(d) => if Getter(t, s).Some? then Getter(t, s).value else Single(Inst(d))
    case Function(_, _) => Single(Fn(owner, n, Unbound))
    case ClassMethod(_) => Single(Fn(owner, n, ToClass))
    case StaticMethod(_) => Single(Fn(owner, n, Unbound))
    case Property(_) => Single(Inst("property"))
  }

  /** Reads `n` on an instance of `c` whose own dictionary is `attrs`. */
  function InstanceRead(t: Table, c: Name, attrs: map<Name, TypeSet>, n: Name): Lookup {
    match Override(t, c, "__getattribute__")
    case Some(ty) => Found(ty)
    case None =>
      if n == "__class__" then Found(Single(Cls(c)))
      else
        var hit := FindSlot(t, Linear(t, c), n);
        if hit.Defined? && IsData(t, hit.slot) then Found(Getter(t, hit.slot).value)
        else if n in attrs then Found(attrs[n])
        else
          match hit
          case Defined(owner, s) => Found(ViaInstance(t, owner, n, s))
          case Opaque => Found(AnyT)
          case Miss =>
            match Override(t, c, "__getattr__")
            case Some(ty) => Found(ty)
            case None => NoSuchAttribute
  }

  /** Entry `e` is a class that declares a metaclass. */
  predicate DeclaresMeta(t: Table, e: Entry) {
    e.C? && e.name in t && t[e.name].meta.Some?
  }

  /** The metaclass declared by the first class along `mro` that declares one. */
  function MetaOf(t: Table, mro: seq<Entry>): (r: Option<Name>)
    ensures r.None? <==> forall i :: 0 <= i < |mro| ==> !DeclaresMeta(t, mro[i])
    ensures forall i :: 0 <= i < |mro| && DeclaresMeta(t, mro[i]) && (forall j :: 0 <= j < i ==> !DeclaresMeta(t, mro[j])) ==>
              r == t[mro[i].name].meta
  {
    if |mro| == 0 then None
    else if DeclaresMeta(t, mro[0]) then t[mro[0].name].meta
    else
      assert forall i :: 1 <= i < |mro| ==> mro[i] == mro[1..][i - 1];
      MetaOf(t, mro[1..])
  }

  function MetaOverride(t: Table, meta: Option<Name>, n: Name): Option<TypeSet> {
    if meta.Some? then Override(t, meta.value, n) else None
  }

  function MetaSlot(t: Table, meta: Option<Name>, n: Name): Hit {
    if meta.Some? then FindSlot(t, Linear(t, meta.value), n) else Miss
  }

  /** Reads `n` on the class object `c`; the metaclass is consulted before the class's own dictionary. */
  function ClassRead(t: Table, c: Name, n: Name): Lookup {
    var meta := MetaOf(t, Linear(t, c));
    match MetaOverride(t, meta, "__getattribute__")
    case Some(ty) => Found(ty)
    case None =>
      var mhit := MetaSlot(t, meta, n);
      if mhit.Defined? && IsData(t, mhit.slot) then Found(Getter(t, mhit.slot).value)
      else
        match FindSlot(t, Linear(t, c), n)
        case Defined(owner, s) => Found(ViaClass(t, owner, n, s))
        case Opaque => Found(AnyT)
        case Miss =>
          match mhit
          case Defined(owner, s) => Found(ViaInstance(t, owner, n, s))
          case Opaque => Found(AnyT)
          case Miss =>
            match MetaOverride(t, meta, "__getattr__")
            case Some(ty) => Found(ty)
            case None => NoSuchAttribute
  }

  /** The entries of `s` after the first occurrence of `e`; empty when `e` does not occur. */
  function After(s: seq<Entry>, e: Entry): (r: seq<Entry>)
    ensures e !in s ==> r == []
    ensures e in s ==> exists i :: 0 <= i < |s| && s[i] == e && e !in s[..i] && r == s[i + 1..]
  {
    if |s| == 0 then []
    else if s[0] == e then
      assert s[..0] == [];
      s[1..]
    else
      var r := After(s[1..], e);
      if e in s[1..] then
        var i :| 0 <= i < |s[1..]| && s[1..][i] == e && e !in s[1..][..i] && r == s[1..][i + 1..];
        assert s[..i + 1] == [s[0]] + s[1..][..i];
        assert s[i + 1] == e && r == s[i + 2..];
        r
      else r
  }

  /** `super(start, self).n` where `self` is an instance of `selfCls`: lookup resumes after `start`. */
  function SuperRead(t: Table, start: Name, selfCls: Name, n: Name): Lookup {
    match FindSlot(t, After(Linear(t, selfCls), C(start)), n)
    case Defined(owner, s) => Found(ViaInstance(t, owner, n, s))
    case Opaque => Found(AnyT)
    case Miss => NoSuchAttribute
  }

  /** Reads `n` on one member of a type-set. Functions are instances of the class `function`. */
  function AtomRead(t: Table, a: Atom, n: Name): Lookup {
    match a
    case Inst(c) => InstanceRead(t, c, map[], n)
    case Cls(c) => ClassRead(t, c, n)
    case Fn(_, _, _) => InstanceRead(t, "function", map[], n)
  }

  /** The atoms one member's result contributes to a distributed read. */
  function Contribution(l: Lookup): set<Atom> {
    if l.Found? && l.ty.Union? then l.ty.atoms else {}
  }

  /**
   A read distributed over a type-set, given the read `f` of each member:
   `Any` yields `Any`; a union yields the union of its members' results,
   members lacking the name contribute nothing, and only when every member
   lacks it is there no such attribute.
   */
  function Distribute(ts: TypeSet, f: Atom -> Lookup): (r: Lookup)
    ensures ts.AnyT? ==> r == Found(AnyT)
    ensures r.NoSuchAttribute? <==> ts.Union? && forall a :: a in ts.atoms ==> f(a).NoSuchAttribute?
    ensures ts.Union? ==> forall a :: a in ts.atoms && f(a).Found? ==> r.Found? && Le(f(a).ty, r.ty)
    ensures ts.Union? && r.Found? && r.ty.Union? ==>
              forall x :: x in r.ty.atoms ==> exists a :: a in ts.atoms && x in Contribution(f(a))
    ensures ts.Union? && r == Found(AnyT) ==> exists a :: a in ts.atoms && f(a) == Found(AnyT)
  {
    match ts
    case AnyT => Found(AnyT)
    case Union(atoms) =>
      if forall a :: a in atoms ==> f(a).NoSuchAttribute? then NoSuchAttribute
      else if exists a :: a in atoms && f(a) == Found(AnyT) then Found(AnyT)
      else
        var u := set a, x | a in atoms && x in Contribution(f(a)) :: x;
        assert forall a :: a in atoms && f(a).Found? ==> f(a).ty.Union? && f(a).ty.atoms <= u by {
          forall a | a in atoms && f(a).Found?
            ensures f(a).ty.Union? && f(a).ty.atoms <= u
          {
            assert f(a) != Found(AnyT);
            forall x | x in f(a).ty.atoms ensures x in u {
              assert x in Contribution(f(a));
            }
          }
        }
        Found(Union(u))
  }

  /** Reads `n` on a type-set, member by member. */
  function TypeRead(t: Table, ts: TypeSet, n: Name): Lookup {
    Distribute(ts, a => AtomRead(t, a, n))
  }

  /** Reads `n` on a run-time value. */
  function ValueRead(t: Table, v: Value, n: Name): Lookup {
    match v
    case Obj(c, attrs) => InstanceRead(t, c, attrs, n)
    case Other(ty) => TypeRead(t, ty, n)
  }

  // ---------------------------------------------------------------------------
  // Laws of the read protocol

  /** A `__getattribute__` override answers every instance read, whether or not the name is defined. */
  lemma GetattributeShortCircuits(t: Table, c: Name, attrs: map<Name, TypeSet>, n: Name)
    requires Override(t, c, "__getattribute__").Some?
    ensures InstanceRead(t, c, attrs, n) == Found(Override(t, c, "__getattribute__").value)
  {
  }

  /** A metaclass `__getattribute__` answers every class-level read, even of names the class defines. */
  lemma MetaclassGetattributeIntercepts(t: Table, c: Name, n: Name)
    requires MetaOverride(t, MetaOf(t, Linear(t, c)), "__getattribute__").Some?
    ensures ClassRead(t, c, n) == Found(MetaOverride(t, MetaOf(t, Linear(t, c)), "__getattribute__").value)
  {
  }

  /** A data descriptor beats the instance dictionary: the read is its getter, whatever `attrs` holds. */
  lemma DataDescriptorBeatsInstanceDict(t: Table, c: Name, attrs: map<Name, TypeSet>, n: Name, i: int)
    requires Override(t, c, "__getattribute__").None? && n != "__class__"
    requires FirstSupplier(t, Linear(t, c), n, i)
    requires IsData(t, t[Linear(t, c)[i].name].dict[n])
    ensures Getter(t, t[Linear(t, c)[i].name].dict[n]).Some?
    ensures InstanceRead(t, c, attrs, n) == Found(Getter(t, t[Linear(t, c)[i].name].dict[n]).value)
  {
  }

  /**
   A non-data descriptor (an object whose class defines `__get__` but not
   `__set__`) is applied on an instance read that the instance dictionary
   does not answer: the read yields `__get__`'s result, not the descriptor.
   */
  lemma NonDataDescriptorApplied(t: Table, c: Name, attrs: map<Name, TypeSet>, n: Name, i: int)
    requires Override(t, c, "__getattribute__").None? && n != "__class__" && n !in attrs
    requires FirstSupplier(t, Linear(t, c), n, i)
    requires t[Linear(t, c)[i].name].dict[n].Held?
    requires MethodResult(t, t[Linear(t, c)[i].name].dict[n].cls, "__get__").Some?
    ensures InstanceRead(t, c, attrs, n) ==
            Found(MethodResult(t, t[Linear(t, c)[i].name].dict[n].cls, "__get__").value)
  {
  }

  /** The instance dictionary shadows every class slot that is not a data descriptor. */
  lemma InstanceDictShadowsClass(t: Table, c: Name, attrs: map<Name, TypeSet>, n: Name)
    requires Override(t, c, "__getattribute__").None? && n != "__class__" && n in attrs
    requires forall i :: FirstSupplier(t, Linear(t, c), n, i) ==> !IsData(t, t[Linear(t, c)[i].name].dict[n])
    ensures InstanceRead(t, c, attrs, n) == Found(attrs[n])
  {
    var hit := FindSlot(t, Linear(t, c), n);
    if hit.Defined? {
      var mro := Linear(t, c);
      var i := FirstIndex(t, mro, n);
    }
  }

  /** When some entry supplies `n`, a first one exists. */
  lemma FirstIndex(t: Table, mro: seq<Entry>, n: Name) returns (i: int)
    requires exists k :: 0 <= k < |mro| && Supplies(t, mro[k], n)
    ensures FirstSupplier(t, mro, n, i)
  {
    var k :| 0 <= k < |mro| && Supplies(t, mro[k], n);
    i := 0;
    while !Supplies(t, mro[i], n)
      invariant 0 <= i <= k
      invariant forall j :: 0 <= j < i ==> !Supplies(t, mro[j], n)
      decreases k - i
    {
      i := i + 1;
    }
  }

  /**
   First match wins: the first class along the linearization that defines a
   plain `n` determines the read; definitions further along are not merged in.
   */
  lemma FirstMatchWins(t: Table, c: Name, n: Name, i: int, ty: TypeSet)
    requires Override(t, c, "__getattribute__").None? && n != "__class__"
    requires FirstSupplier(t, Linear(t, c), n, i)
    requires t[Linear(t, c)[i].name].dict[n] == Plain(ty)
    ensures InstanceRead(t, c, map[], n) == Found(ty)
  {
  }

  /**
   `__getattr__` is only a fallback: with no `__getattribute__` override, a
   read fails exactly when no class defines the name, no unknown entry stands
   in the linearization and no `__getattr__` exists, and yields
   `__getattr__`'s result exactly in the remaining miss case.
   */
  lemma GetattrOnlyOnMiss(t: Table, c: Name, attrs: map<Name, TypeSet>, n: Name)
    requires Override(t, c, "__getattribute__").None? && n != "__class__"
    ensures InstanceRead(t, c, attrs, n).NoSuchAttribute? <==>
              n !in attrs && (forall i :: 0 <= i < |Linear(t, c)| ==> !Supplies(t, Linear(t, c)[i], n)) &&
              AnyEntry !in Linear(t, c) && Override(t, c, "__getattr__").None?
    ensures n !in attrs && (forall i :: 0 <= i < |Linear(t, c)| ==> !Supplies(t, Linear(t, c)[i], n)) &&
            AnyEntry !in Linear(t, c) && Override(t, c, "__getattr__").Some? ==>
              InstanceRead(t, c, attrs, n) == Found(Override(t, c, "__getattr__").value)
  {
  }

  /** A class with an unknown ancestor never lacks an attribute, on instances or on the class. */
  lemma UnknownAncestorNeverMisses(t: Table, c: Name, attrs: map<Name, TypeSet>, n: Name)
    requires AnyEntry in Linear(t, c)
    ensures InstanceRead(t, c, attrs, n).Found?
    ensures ClassRead(t, c, n).Found?
  {
  }

  /**
   The `Any` fallback: once every class along the linearization lacks `n`, an
   unknown entry makes the read `Any`, on an instance that does not hold `n`
   and, without a metaclass, on the class.
   */
  lemma UnknownFallbackIsAny(t: Table, c: Name, attrs: map<Name, TypeSet>, n: Name)
    requires Override(t, c, "__getattribute__").None? && n != "__class__" && n !in attrs
    requires AnyEntry in Linear(t, c)
    requires forall i :: 0 <= i < |Linear(t, c)| ==> !Supplies(t, Linear(t, c)[i], n)
    ensures InstanceRead(t, c, attrs, n) == Found(AnyT)
    ensures MetaOf(t, Linear(t, c)).None? ==> ClassRead(t, c, n) == Found(AnyT)
  {
  }

  /**
   A class whose only base is unknown reads every name it does not define
   itself as `Any`, on instances and on the class, in every table.
   */
  lemma OnlyUnknownBaseReadsAny(t: Table, c: Name, attrs: map<Name, TypeSet>, n: Name)
    requires c in t && t[c].bases == [Unknown] && t[c].meta.None?
    requires "__getattribute__" !in t[c].dict
    requires n != "__class__" && n !in t[c].dict && n !in attrs
    ensures InstanceRead(t, c, attrs, n) == Found(AnyT)
    ensures ClassRead(t, c, n) == Found(AnyT)
  {
    OnlyUnknownBase(t, c, {});
    assert Linear(t, c) == [C(c), AnyEntry];
    assert FindSlot(t, Linear(t, c), "__getattribute__").Opaque?;
    UnknownFallbackIsAny(t, c, attrs, n);
  }

  /** Merging the reads of two parts of a type-set: a part lacking the name contributes nothing. */
  function MergeLookups(l1: Lookup, l2: Lookup): Lookup {
    if l1.NoSuchAttribute? then l2
    else if l2.NoSuchAttribute? then l1
    else Found(Join(l1.ty, l2.ty))
  }

  /** A distributed read of a single member is that member's read. */
  lemma DistributeSingle(x: Atom, f: Atom -> Lookup)
    ensures Distribute(Single(x), f) == f(x)
  {
    var r := Distribute(Single(x), f);
    if f(x).Found? && f(x).ty.Union? {
      assert r.ty.atoms == f(x).ty.atoms;
    }
  }

  /** Distributed reads commute with the merge of type-sets. */
  lemma DistributeOverJoin(a: TypeSet, b: TypeSet, f: Atom -> Lookup)
    ensures Distribute(Join(a, b), f) == MergeLookups(Distribute(a, f), Distribute(b, f))
  {
    var r, ra, rb := Distribute(Join(a, b), f), Distribute(a, f), Distribute(b, f);
    if a.Union? && b.Union? && r.Found? && r.ty.Union? {
      var m := MergeLookups(ra, rb);
      assert m.Found? && m.ty.Union?;
      assert r.ty.atoms == m.ty.atoms by {
        forall x | x in r.ty.atoms ensures x in m.ty.atoms {
          var y :| y in Join(a, b).atoms && x in Contribution(f(y));
        }
      }
    }
  }

  /** A read on a single member is that member's read. */
  lemma TypeReadSingle(t: Table, x: Atom, n: Name)
    ensures TypeRead(t, Single(x), n) == AtomRead(t, x, n)
  {
    DistributeSingle(x, a => AtomRead(t, a, n));
  }

  /** A read on the join of two type-sets merges the reads on each. */
  lemma TypeReadOverJoin(t: Table, a: TypeSet, b: TypeSet, n: Name)
    ensures TypeRead(t, Join(a, b), n) == MergeLookups(TypeRead(t, a, n), TypeRead(t, b, n))
  {
    DistributeOverJoin(a, b, x => AtomRead(t, x, n));
  }
}
