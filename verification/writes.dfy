/**
 Attribute writes. A write never narrows: the recorded type of the name
 becomes the merge of what it held and what is written. A write to an
 instance attribute that a data descriptor governs goes to the descriptor
 and leaves the instance dictionary alone.
 */
module Writes {
  import opened TypeSets
  import opened ClassModel
  import opened Linearization
  import opened Lookup

  /** The type of the object a class slot holds, as a plain value. */
  function StoredType(owner: Name, n: Name, s: Slot): TypeSet {
    match s
    case Plain(ty) => ty
    case Held(d) => Single(Inst(d))
    case Function(_, _) => Single(Fn(owner, n, Unbound))
    case ClassMethod(_) => Single(Fn(owner, n, ToClass))
    case StaticMethod(_) => Single(Fn(owner, n, Unbound))
    case Property(_) => Single(Inst("property"))
  }

  /** The type-set recorded for `n` in the dictionary of class `c`. */
  function ClassAttrType(t: Table, c: Name, n: Name): TypeSet {
    if c in t && n in t[c].dict then StoredType(c, n, t[c].dict[n]) else Nothing
  }

  /**
   `C.n = <ty>`: the class dictionary entry becomes a plain value whose type
   widens to include both what it held and `ty`; nothing else changes.
   */
  function ClassWrite(t: Table, c: Name, n: Name, ty: TypeSet): (r: Table)
    ensures SameShape(t, r)
    ensures forall k :: k in t && k != c ==> r[k] == t[k]
    ensures c in t ==> r[c].meta == t[c].meta && r[c].dict.Keys == t[c].dict.Keys + {n}
    ensures c in t ==> forall m :: m in t[c].dict && m != n ==> r[c].dict[m] == t[c].dict[m]
    ensures c in t ==> r[c].dict[n].Plain? && Le(ty, r[c].dict[n].ty) && Le(ClassAttrType(t, c, n), r[c].dict[n].ty)
    ensures c in t ==> forall u :: Le(ty, u) && Le(ClassAttrType(t, c, n), u) ==> Le(r[c].dict[n].ty, u)
    ensures c !in t ==> r == t
  {
    if c !in t then t
    else
      var widened := Join(ClassAttrType(t, c, n), ty);
      forall u | Le(ty, u) && Le(ClassAttrType(t, c, n), u)
        ensures Le(widened, u)
      {
        JoinIsLeast(ClassAttrType(t, c, n), ty, u);
      }
      t[c := t[c].(dict := t[c].dict[n := Plain(widened)])]
  }

  /** Writes to one name commute: the final type does not depend on their order. */
  lemma ClassWritesCommute(t: Table, c: Name, n: Name, a: TypeSet, b: TypeSet)
    ensures ClassWrite(ClassWrite(t, c, n, a), c, n, b) == ClassWrite(ClassWrite(t, c, n, b), c, n, a)
  {
    if c in t {
      var prior := ClassAttrType(t, c, n);
      var ab, ba := ClassWrite(ClassWrite(t, c, n, a), c, n, b), ClassWrite(ClassWrite(t, c, n, b), c, n, a);
      JoinAssociative(prior, a, b);
      JoinAssociative(prior, b, a);
      JoinCommutative(a, b);
      assert ab[c].dict[n] == ba[c].dict[n];
      assert ab[c].dict == ba[c].dict;
      assert ab[c] == ba[c];
    }
  }

  /** Writing the same type again changes nothing. */
  lemma ClassWriteIdempotent(t: Table, c: Name, n: Name, a: TypeSet)
    ensures ClassWrite(ClassWrite(t, c, n, a), c, n, a) == ClassWrite(t, c, n, a)
  {
    if c in t {
      var once := ClassWrite(t, c, n, a);
      var twice := ClassWrite(once, c, n, a);
      JoinAssociative(ClassAttrType(t, c, n), a, a);
      JoinIdempotent(a);
      assert twice[c].dict[n] == once[c].dict[n];
      assert twice[c].dict == once[c].dict;
      assert twice[c] == once[c];
    }
  }

  /**
   After a write, a class-level read of the name (on a class without a
   metaclass) sees every type ever recorded for it, not just the last write.
   */
  lemma ReadAfterClassWrite(t: Table, c: Name, n: Name, ty: TypeSet)
    requires c in t && MetaOf(t, Linear(t, c)).None?
    ensures ClassRead(ClassWrite(t, c, n, ty), c, n) == Found(Join(ClassAttrType(t, c, n), ty))
  {
    var u := ClassWrite(t, c, n, ty);
    LinearShapeOnly(t, u, c);
    var m := Linear(t, c);
    MetaOfSameMeta(t, u, m);
    assert FirstSupplier(u, m, n, 0);
  }

  /** The metaclass search sees only the `meta` fields, which writes keep. */
  lemma {:induction false} MetaOfSameMeta(t: Table, u: Table, mro: seq<Entry>)
    requires t.Keys == u.Keys && forall k :: k in t ==> t[k].meta == u[k].meta
    ensures MetaOf(t, mro) == MetaOf(u, mro)
    decreases |mro|
  {
    if |mro| > 0 {
      MetaOfSameMeta(t, u, mro[1..]);
    }
  }

  /** The slot a data descriptor provides for `n` on instances of `c`, if any. */
  predicate GovernedByDescriptor(t: Table, c: Name, n: Name) {
    var hit := FindSlot(t, Linear(t, c), n);
    hit.Defined? && IsData(t, hit.slot)
  }

  /**
   `obj.n = <ty>` on a value: an instance's own entry widens, unless a data
   descriptor governs the name; values known only by type are unaffected.
   */
  function InstanceWrite(t: Table, v: Value, n: Name, ty: TypeSet): (r: Value)
    ensures r.Obj? <==> v.Obj?
    ensures v.Obj? ==> r.cls == v.cls
    ensures v.Obj? ==> forall m :: m in v.attrs && m != n ==> m in r.attrs && r.attrs[m] == v.attrs[m]
    ensures v.Obj? && GovernedByDescriptor(t, v.cls, n) ==> r == v
    ensures v.Obj? && !GovernedByDescriptor(t, v.cls, n) ==>
              r.attrs.Keys == v.attrs.Keys + {n} && Le(ty, r.attrs[n]) && Le(AttrType(v.attrs, n), r.attrs[n])
    ensures v.Obj? && !GovernedByDescriptor(t, v.cls, n) ==>
              forall u :: Le(ty, u) && Le(AttrType(v.attrs, n), u) ==> Le(r.attrs[n], u)
    ensures v.Other? ==> r == v
  {
    match v
    case Other(_) => v
    case Obj(c, attrs) =>
      if GovernedByDescriptor(t, c, n) then v
      else
        forall u | Le(ty, u) && Le(AttrType(attrs, n), u)
          ensures Le(Join(AttrType(attrs, n), ty), u)
        {
          JoinIsLeast(AttrType(attrs, n), ty, u);
        }
        Obj(c, attrs[n := Join(AttrType(attrs, n), ty)])
  }

  /** After an instance write that no descriptor or hook intercepts, the read sees the widened type. */
  lemma ReadAfterInstanceWrite(t: Table, c: Name, attrs: map<Name, TypeSet>, n: Name, ty: TypeSet)
    requires Override(t, c, "__getattribute__").None? && n != "__class__"
    requires !GovernedByDescriptor(t, c, n)
    ensures ValueRead(t, InstanceWrite(t, Obj(c, attrs), n, ty), n) == Found(Join(AttrType(attrs, n), ty))
  {
  }
}
