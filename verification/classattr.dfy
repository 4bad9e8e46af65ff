/**
 Writes through a class and through an alias of it. `Foo().__class__` is the
 class object `Foo` itself, so `OtherFoo.x = "bar"` writes the same entry as
 `Foo.x = 3`; the entry keeps both writes, `int or str`, on either name.
 */
module ClassAttrScenario {
  import opened Options
  import opened TypeSets
  import opened ClassModel
  import opened Linearization
  import opened Lookup
  import opened Writes
  import opened Construction
  import opened Builtins

  /** testClassAttr: `class Foo(object): pass`. */
  const Empty: Table := map[Root := ObjectDef, "Foo" := Simple(map[])]

  const IntOrStr: TypeSet := Union({Inst("int"), Inst("str")})

  /** `OtherFoo = Foo().__class__` is the class object `Foo`. */
  lemma ClassOfInstance(t: Table)
    requires t == Empty
    ensures ValueRead(t, Construct(t, "Foo", []), "__class__") == Found(Single(Cls("Foo")))
  {
    assert SimpleIn(t, "Foo");
    SimpleConstruct(t, "Foo");
    SimpleOverride(t, "Foo", "__getattribute__");
  }

  /** A class write keeps `Foo` a simple class. */
  lemma WriteKeepsSimple(t: Table, n: Name, ty: TypeSet)
    requires SimpleIn(t, "Foo")
    ensures SimpleIn(ClassWrite(t, "Foo", n, ty), "Foo")
  {
  }

  /** After `Foo.x = 3`, `Foo`'s entry for `x` is `int`. */
  lemma FirstWrite(t: Table)
    requires t == Empty
    ensures SimpleIn(ClassWrite(t, "Foo", "x", IntT), "Foo")
    ensures ClassAttrType(ClassWrite(t, "Foo", "x", IntT), "Foo", "x") == IntT
  {
    assert SimpleIn(t, "Foo");
    WriteKeepsSimple(t, "x", IntT);
    assert ClassAttrType(t, "Foo", "x") == Nothing;
    JoinAnyAndNothing(IntT);
  }

  /**
   testClassAttr: after `Foo.x = 3` and `OtherFoo.x = "bar"`, reading `x` on
   `Foo` or on the alias gives `int or str`, not just the last write.
   */
  lemma ClassAttrWidens(t: Table)
    requires t == Empty
    ensures ClassRead(ClassWrite(ClassWrite(t, "Foo", "x", IntT), "Foo", "x", StrT), "Foo", "x") == Found(IntOrStr)
    ensures TypeRead(ClassWrite(ClassWrite(t, "Foo", "x", IntT), "Foo", "x", StrT), Single(Cls("Foo")), "x") == Found(IntOrStr)
  {
    var t1 := ClassWrite(t, "Foo", "x", IntT);
    FirstWrite(t);
    SimpleLinear(t1, "Foo");
    ReadAfterClassWrite(t1, "Foo", "x", StrT);
    assert Join(IntT, StrT) == IntOrStr;
    TypeReadSingle(ClassWrite(t1, "Foo", "x", StrT), Cls("Foo"), "x");
  }

  /** The same final entry results whichever of the two writes comes first. */
  lemma ClassAttrOrderFree(t: Table)
    requires t == Empty
    ensures ClassWrite(ClassWrite(t, "Foo", "x", IntT), "Foo", "x", StrT) ==
            ClassWrite(ClassWrite(t, "Foo", "x", StrT), "Foo", "x", IntT)
  {
    ClassWritesCommute(t, "Foo", "x", IntT, StrT);
  }
}
