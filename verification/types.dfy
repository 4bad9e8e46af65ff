/** An optional value, used wherever a lookup may find nothing. */
module Options {
  datatype Option<+T> = None | Some(value: T)
}

/**
 Type-sets: what the inferencer knows about a value. A type-set is either the
 unconstrained `Any` boundary or a finite set of atoms, read as "the value is
 one of these". `Any` absorbs everything it is merged with.
 */
module TypeSets {

  type Name = string

  /** How a function object read off a class is bound. */
  datatype Binding = Unbound | ToInstance | ToClass

  datatype Atom =
    | Inst(cls: Name)                                 // an instance of the class `cls`
    | Cls(cls: Name)                                  // the class object itself, `Type[cls]`
    | Fn(owner: Name, attr: Name, binding: Binding)   // function `attr` defined in class `owner`

  datatype TypeSet = AnyT | Union(atoms: set<Atom>)

  /** The empty union: a value that contributes no possibility. */
  const Nothing: TypeSet := Union({})

  function Single(a: Atom): TypeSet {
    Union({a})
  }

  /** `a` is subsumed by `b`: every possibility of `a` is one of `b`. */
  predicate Le(a: TypeSet, b: TypeSet) {
    b.AnyT? || (a.Union? && a.atoms <= b.atoms)
  }

  /** Merge of the type-sets observed on two paths (or by two writes). */
  function Join(a: TypeSet, b: TypeSet): (r: TypeSet)
    ensures Le(a, r) && Le(b, r)
    ensures r.AnyT? <==> a.AnyT? || b.AnyT?
    ensures r.Union? ==> forall x :: x in r.atoms ==> x in a.atoms || x in b.atoms
  {
    if a.AnyT? || b.AnyT? then AnyT else Union(a.atoms + b.atoms)
  }

  /** Subsumption is a partial order. */
  lemma LeIsPartialOrder(a: TypeSet, b: TypeSet, c: TypeSet)
    ensures Le(a, a)
    ensures Le(a, b) && Le(b, a) ==> a == b
    ensures Le(a, b) && Le(b, c) ==> Le(a, c)
  {
  }

  /** The merge is the least upper bound under subsumption. */
  lemma JoinIsLeast(a: TypeSet, b: TypeSet, c: TypeSet)
    ensures Le(a, c) && Le(b, c) <==> Le(Join(a, b), c)
  {
  }

  lemma JoinIdempotent(a: TypeSet)
    ensures Join(a, a) == a
  {
  }

  lemma JoinCommutative(a: TypeSet, b: TypeSet)
    ensures Join(a, b) == Join(b, a)
  {
  }

  lemma JoinAssociative(a: TypeSet, b: TypeSet, c: TypeSet)
    ensures Join(Join(a, b), c) == Join(a, Join(b, c))
  {
  }

  /** `Any` absorbs, and the empty union is neutral. */
  lemma JoinAnyAndNothing(a: TypeSet)
    ensures Join(a, AnyT) == AnyT && Join(AnyT, a) == AnyT
    ensures Join(a, Nothing) == a && Join(Nothing, a) == a
  {
  }
}
