/**
 Object construction. Calling a class first obtains a candidate value from
 `__new__` (the root's `__new__` makes a fresh instance of the class being
 constructed). `__init__` runs only when that candidate is an instance of the
 class being constructed (or of a subclass); otherwise the candidate is the
 result as it stands, with whatever attributes `__new__` gave it.
 */
module Construction {
  import opened Options
  import opened TypeSets
  import opened ClassModel
  import opened Linearization
  import opened Lookup
  import opened Writes

  /**
   Calls a `__new__` slot with `cls` as its first argument. A result known only
   by its type is put in normal form, so whether `__init__` runs depends on the
   result's type and not on how the summary is written.
   */
  function CallNew(s: Slot, cls: Name): (r: Value)
    ensures Normal(r)
    ensures s.Function? && s.produces.FreshInstance? ==> r == Obj(cls, map[])
    ensures s.Function? && s.produces.Returns? ==> TypeOf(r) == TypeOf(s.produces.v)
    ensures s.Function? && s.produces.Returns? && s.produces.v.Obj? ==> r == s.produces.v
    ensures s.StaticMethod? || s.ClassMethod? ==> TypeOf(r) == s.ret
  {
    match s
    case Function(FreshInstance, _) => Obj(cls, map[])
    case Function(Returns(v), _) => Normalize(v)
    case StaticMethod(ret) => AsValue(ret)
    case ClassMethod(ret) => AsValue(ret)
    case _ => Other(AnyT)
  }

  /**
   The candidate `__new__` produces for a call of class `c`. Without a
   `__new__` found on a class, and also when only an unknown entry could
   supply one, the default makes a fresh instance of `c`.
   */
  function NewCandidate(t: Table, c: Name): (r: Value)
    ensures Normal(r)
    ensures !FindSlot(t, Linear(t, c), "__new__").Defined? ==> r == Obj(c, map[])
  {
    match FindSlot(t, Linear(t, c), "__new__")
    case Defined(_, s) => CallNew(s, c)
    case Opaque => Obj(c, map[])
    case Miss => Obj(c, map[])
  }

  /** `v` is an instance of `c` or of a subclass of `c`. */
  predicate IsInstanceOf(t: Table, v: Value, c: Name) {
    v.Obj? && C(c) in Linear(t, v.cls)
  }

  /** The attribute writes the `__init__` found for instances of `d` performs on `self`. */
  function InitWrites(t: Table, d: Name): map<Name, Expr> {
    match FindSlot(t, Linear(t, d), "__init__")
    case Defined(_, Function(_, writes)) => writes
    case _ => map[]
  }

  /** `__init__` for instances of `d` writes `k` to the instance dictionary: no data descriptor takes the write. */
  predicate InitStores(t: Table, d: Name, k: Name) {
    k in InitWrites(t, d) && !GovernedByDescriptor(t, d, k)
  }

  /**
   `r` is instance `v` after `__init__` ran with argument types `args`: the
   class is kept, an entry `__init__` does not store is kept unchanged, a
   stored entry becomes the least type-set covering both its old type and the
   written type, and no other name appears.
   */
  ghost predicate InitApplied(t: Table, v: Value, args: seq<TypeSet>, r: Value)
    requires v.Obj?
  {
    var w := InitWrites(t, v.cls);
    r.Obj? && r.cls == v.cls &&
    (forall k :: k in r.attrs <==> k in v.attrs || InitStores(t, v.cls, k)) &&
    (forall k :: k in v.attrs && !InitStores(t, v.cls, k) ==> r.attrs[k] == v.attrs[k]) &&
    (forall k :: InitStores(t, v.cls, k) ==>
       Le(AttrType(v.attrs, k), r.attrs[k]) && Le(Eval(w[k], args), r.attrs[k]) &&
       forall u :: Le(AttrType(v.attrs, k), u) && Le(Eval(w[k], args), u) ==> Le(r.attrs[k], u))
  }

  /**
   Runs `__init__` on an instance: each write to `self` widens the instance's
   entry, except for names a data descriptor governs. Nothing is lost.
   */
  function RunInit(t: Table, v: Value, args: seq<TypeSet>): (r: Value)
    requires v.Obj?
    ensures InitApplied(t, v, args, r)
  {
    var w := InitWrites(t, v.cls);
    var keys := v.attrs.Keys + (set k | k in w && InitStores(t, v.cls, k));
    var r := Obj(v.cls, map k | k in keys ::
      if InitStores(t, v.cls, k) then Join(AttrType(v.attrs, k), Eval(w[k], args))
      else v.attrs[k]);
    assert forall k :: InitStores(t, v.cls, k) ==>
             forall u :: Le(AttrType(v.attrs, k), u) && Le(Eval(w[k], args), u) ==> Le(r.attrs[k], u) by {
      forall k, u | InitStores(t, v.cls, k) && Le(AttrType(v.attrs, k), u) && Le(Eval(w[k], args), u)
        ensures Le(r.attrs[k], u)
      {
        JoinIsLeast(AttrType(v.attrs, k), Eval(w[k], args), u);
      }
    }
    r
  }

  /**
   `c(*args)`. When the `__new__` candidate is not an instance of `c`, it is the
   result exactly as `__new__` made it. When it is, the result is that
   instance, still an instance of `c`, after `__init__`'s writes.
   */
  function Construct(t: Table, c: Name, args: seq<TypeSet>): (r: Value)
    ensures !IsInstanceOf(t, NewCandidate(t, c), c) ==> r == NewCandidate(t, c)
    ensures IsInstanceOf(t, NewCandidate(t, c), c) ==> IsInstanceOf(t, r, c) && InitApplied(t, NewCandidate(t, c), args, r)
  {
    var candidate := NewCandidate(t, c);
    if IsInstanceOf(t, candidate, c) then RunInit(t, candidate, args) else candidate
  }

  /** The class a type-set names when it is exactly one class object, `Type[d]`. */
  function ClassNamed(ty: TypeSet): (r: Option<Name>)
    ensures r.Some? <==> exists d :: ty == Single(Cls(d))
    ensures r.Some? ==> ty == Single(Cls(r.value))
  {
    if ty.Union? && |ty.atoms| == 1 && exists a :: a in ty.atoms && a.Cls? then
      var a :| a in ty.atoms && a.Cls?;
      assert ty.atoms == {a} by { SingletonSet(ty.atoms, a); }
      Some(a.cls)
    else None
  }

  /**
   Calls one member of a type-set. Calling a class constructs it. Calling a
   function yields its result type; a `__new__`-style function making a fresh
   instance makes one of the class passed as its first argument.
   */
  function CallAtom(t: Table, a: Atom, args: seq<TypeSet>): (r: TypeSet)
    ensures a.Cls? ==> r == TypeOf(NewCandidate(t, a.cls))
    ensures a.Fn? && a.owner in t && a.attr in t[a.owner].dict && t[a.owner].dict[a.attr].Function? &&
            t[a.owner].dict[a.attr].produces.FreshInstance? ==>
              if |args| > 0 && ClassNamed(args[0]).Some? then r == Single(Inst(ClassNamed(args[0]).value)) else r == AnyT
  {
    match a
    case Cls(c) => TypeOf(Construct(t, c, args))
    case Fn(owner, n, _) =>
      if owner in t && n in t[owner].dict then
        match t[owner].dict[n]
        case Function(FreshInstance, _) =>
          if |args| > 0 && ClassNamed(args[0]).Some? then Single(Inst(ClassNamed(args[0]).value)) else AnyT
        case Function(p, _) => ResultType(p, owner)
        case ClassMethod(ret) => ret
        case StaticMethod(ret) => ret
        case _ => AnyT
      else AnyT
    case Inst(c) =>
      match MethodResult(t, c, "__call__")
      case Some(ty) => ty
      case None => AnyT
  }

  // ---------------------------------------------------------------------------
  // Laws of construction

  /**
   Whether `__init__` runs depends only on the type of the candidate: a
   candidate in normal form is an instance of `c` exactly when its type is a
   single instance type whose class has `c` in its linearization.
   */
  lemma InstanceOfByType(t: Table, v: Value, c: Name)
    requires Normal(v)
    ensures IsInstanceOf(t, v, c) <==> exists d :: TypeOf(v) == Single(Inst(d)) && C(c) in Linear(t, d)
  {
    if v.Obj? {
      forall d | TypeOf(v) == Single(Inst(d))
        ensures d == v.cls
      {
        assert Inst(d) in Single(Inst(v.cls)).atoms;
      }
    }
  }

  /** Two candidates of the same type get the same decision, however `__new__`'s summary was written. */
  lemma SameTypeSameDecision(t: Table, v: Value, w: Value, c: Name)
    requires Normal(v) && Normal(w) && TypeOf(v) == TypeOf(w)
    ensures IsInstanceOf(t, v, c) <==> IsInstanceOf(t, w, c)
  {
    InstanceOfByType(t, v, c);
    InstanceOfByType(t, w, c);
  }

  /**
   Skip-init: when `__new__` yields something that is not an instance of the
   class being constructed, the result is exactly that value: its class and
   every attribute `__new__` set survive, and `__init__` adds nothing.
   */
  lemma SkipInit(t: Table, c: Name, args: seq<TypeSet>)
    requires !IsInstanceOf(t, NewCandidate(t, c), c)
    ensures Construct(t, c, args) == NewCandidate(t, c)
    ensures TypeOf(Construct(t, c, args)) == TypeOf(NewCandidate(t, c))
  {
  }

  /**
   When `__new__` makes a fresh instance (no override, or the root's), the
   result is an instance of the class itself and carries every write its
   `__init__` performs.
   */
  lemma FreshInstanceIsInitialised(t: Table, c: Name, args: seq<TypeSet>)
    requires NewCandidate(t, c) == Obj(c, map[])
    ensures Construct(t, c, args).Obj? && Construct(t, c, args).cls == c
    ensures forall k :: k in InitWrites(t, c) && !GovernedByDescriptor(t, c, k) ==>
              k in Construct(t, c, args).attrs &&
              Construct(t, c, args).attrs[k] == Eval(InitWrites(t, c)[k], args)
  {
    assert IsInstanceOf(t, NewCandidate(t, c), c);
    forall k | k in InitWrites(t, c) && !GovernedByDescriptor(t, c, k)
      ensures Construct(t, c, args).attrs[k] == Eval(InitWrites(t, c)[k], args)
    {
      JoinAnyAndNothing(Eval(InitWrites(t, c)[k], args));
    }
  }

  /**
   `__init__`'s writes are visible on the result only if `__init__` ran: with
   the candidate not an instance of `c`, an attribute absent from the
   candidate stays absent.
   */
  lemma InitEffectsOnlyWhenInstance(t: Table, c: Name, args: seq<TypeSet>, k: Name)
    requires NewCandidate(t, c).Obj? && k !in NewCandidate(t, c).attrs
    requires k in InitWrites(t, NewCandidate(t, c).cls)
    requires !GovernedByDescriptor(t, NewCandidate(t, c).cls, k)
    ensures k in Construct(t, c, args).attrs <==> IsInstanceOf(t, NewCandidate(t, c), c)
  {
  }

  /**
   A fresh instance whose `__init__` writes nothing a descriptor governs ends up
   with exactly those writes, each evaluated against the call's arguments.
   */
  lemma FreshInstanceAttrs(t: Table, c: Name, args: seq<TypeSet>)
    requires NewCandidate(t, c) == Obj(c, map[])
    requires forall k :: k in InitWrites(t, c) ==> !GovernedByDescriptor(t, c, k)
    ensures Construct(t, c, args) == Obj(c, map k | k in InitWrites(t, c) :: Eval(InitWrites(t, c)[k], args))
  {
    FreshInstanceIsInitialised(t, c, args);
    var r := Construct(t, c, args);
    var m := map k | k in InitWrites(t, c) :: Eval(InitWrites(t, c)[k], args);
    assert r.attrs.Keys == m.Keys;
  }

  /** With an `__init__` that writes nothing, a fresh instance keeps an empty dictionary. */
  lemma FreshInstanceNoWrites(t: Table, c: Name, args: seq<TypeSet>)
    requires NewCandidate(t, c) == Obj(c, map[])
    requires InitWrites(t, c) == map[]
    ensures Construct(t, c, args) == Obj(c, map[])
  {
    FreshInstanceAttrs(t, c, args);
    var none: map<Name, TypeSet> := map[];
    assert (map k | k in InitWrites(t, c) :: Eval(InitWrites(t, c)[k], args)) == none;
  }

  /** With an `__init__` that writes one attribute, a fresh instance holds exactly that attribute. */
  lemma FreshInstanceOneWrite(t: Table, c: Name, args: seq<TypeSet>, k: Name, e: Expr)
    requires NewCandidate(t, c) == Obj(c, map[])
    requires InitWrites(t, c) == map[k := e]
    requires !GovernedByDescriptor(t, c, k)
    ensures Construct(t, c, args) == Obj(c, map[k := Eval(e, args)])
  {
    FreshInstanceAttrs(t, c, args);
    assert (map x | x in InitWrites(t, c) :: Eval(InitWrites(t, c)[x], args)) == map[k := Eval(e, args)];
  }
}
