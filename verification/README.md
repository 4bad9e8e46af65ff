# pytype's class object model, in Dafny

This project models the rules pytype's abstract interpreter follows for classes.
The rules are pinned down by the scenarios in `pytype/tests/test_classes.py`.
Everything is pure, first-order and closed: a class table maps names to class
definitions (ordered bases, a dictionary of slots, an optional metaclass), and
inferred types are type-sets with an absorbing `Any`.

The model has four parts.

- **Linearization** (`mro.dfy`, module `Linearization`): the C3 merge of the
  bases' linearizations and the list of bases. A base that is unknown (`?`,
  `__any_object__`, an import from nowhere) is a single `Any` entry. An `Any`
  entry is always eligible as a merge head, so it never blocks a step of the
  merge, and it is never dropped.
- **Attribute reads** (`lookup.dfy`, module `Lookup`): on an instance, the
  order is
  1. a `__getattribute__` override;
  2. a data descriptor (a `property`, or an object whose class has both
     `__get__` and `__set__`) found along the linearization;
  3. the instance's own dictionary;
  4. the slot of the first class along the linearization that defines the
     name, with a non-data descriptor's `__get__` applied;
  5. `Any`, when no class defines the name but an unknown entry stands in the
     linearization: unknown entries contribute no attributes of their own;
  6. `__getattr__`;
  7. no such attribute.

  A read on a class consults the metaclass's `__getattribute__` first. A read
  on a type-set distributes over its members, and members lacking the name
  contribute nothing.
- **Writes** (`writes.dfy`, module `Writes`): a write widens the recorded
  type-set and never replaces it.
- **Construction** (`construct.dfy`, module `Construction`): calling a class
  takes the candidate that `__new__` yields; without a `__new__` defined on a
  class, it is a fresh instance. `__init__` runs on the candidate only when its
  type is an instance of the class being called or of a subclass.

Method bodies are not interpreted. A function slot carries a summary instead:
the value it returns, either a fixed value or "a fresh instance of the class
passed in", plus the attribute writes it performs on `self`. Each write's type
is either a constant or the type of a call argument.

The scenario files (`diamond.dfy`, `unknown_bases.dfy`, `descriptors.dfy`,
`hooks.dfy`, `metaclass.dfy`, `classtypes.dfy`, `classattr.dfy`,
`new_init.dfy`) each hold one test's classes as a table. They state the test's
expected types as lemmas. `builtins.dfy` holds the root class `object`, names
for the builtin instance types, and facts about classes that derive from
`object` alone. `merges.dfy` holds the C3 merges
of the shapes these hierarchies produce.

## Model

| member | source | states |
|---|---|---|
| TypeSets.Join | pytype/tests/test_classes.py:252-267 | The merge of two type-sets is an upper bound of both, is `Any` exactly when either side is, and adds no possibility that neither side had |
| TypeSets.JoinIsLeast | pytype/tests/test_classes.py:252-267 | The merge is the least upper bound: anything above both inputs is above their merge |
| TypeSets.JoinCommutative | pytype/tests/test_classes.py:252-267 | Merging is order-independent |
| TypeSets.JoinAssociative | pytype/tests/test_classes.py:252-267 | Merging is associative, so a run of writes can be grouped in any way |
| TypeSets.JoinIdempotent | pytype/tests/test_classes.py:252-267 | Merging a type-set with itself changes nothing |
| TypeSets.JoinAnyAndNothing | pytype/tests/test_classes.py:44-52 | `Any` absorbs every type-set, and the empty type-set is the unit of merging |
| TypeSets.LeIsPartialOrder | pytype/tests/test_classes.py:252-267 | Subsumption between type-sets is reflexive, antisymmetric and transitive |
| Linearization.Merge | pytype/tests/test_classes.py:210-239 | The C3 merge; it carries no contract itself, and `MergeSound` states what a success guarantees |
| Linearization.Mro | pytype/tests/test_classes.py:210-239 | The linearization or the first error (a cycle, an undefined class, a failed merge); it carries no contract itself, and `MroSound` states what a success guarantees |
| Linearization.MergeSound | pytype/tests/test_classes.py:210-239 | When the C3 merge succeeds, it keeps the order of every input list, holds exactly their entries, and holds no class twice |
| Linearization.MroSound | pytype/tests/test_classes.py:210-239 | A computed linearization starts with the class itself, names only defined classes not already in progress, holds no class twice, and keeps the order of every base's linearization and of the base list |
| Linearization.BaseLinSound | pytype/tests/test_classes.py:299-314 | An unknown base linearizes to one `Any` entry. A named base's linearization starts with that base. Neither holds a class twice |
| Linearization.BaseLinsSound | pytype/tests/test_classes.py:210-239 | A successful list of base linearizations has one entry per base, each equal to that base's own linearization |
| Linearization.Linear | pytype/tests/test_classes.py:299-314 | Every class has a non-empty linearization that starts with the class itself, also when C3 fails |
| Linearization.NoBases | pytype/tests/test_classes.py:210-239 | A class without bases linearizes to itself alone |
| Linearization.OnlyUnknownBase | pytype/tests/test_classes.py:44-52 | A class whose only base is unknown linearizes to itself followed by one `Any` entry |
| Linearization.SingleInheritance | pytype/tests/test_classes.py:471-500 | A class with one base linearizes to itself followed by that base's linearization |
| Linearization.LinearShapeOnly | pytype/tests/test_classes.py:252-267 | Linearization depends only on the base lists, so writes to class dictionaries never change it |
| Lookup.FindSlot | pytype/tests/test_classes.py:210-239 | A slot search returns the slot of the first class that defines the name. When no class defines it, the search is `Opaque` exactly when an `Any` entry is present, and misses otherwise |
| Lookup.InstanceRead | pytype/tests/test_classes.py:316-450 | The instance read protocol; it carries no contract itself. `GetattributeShortCircuits`, `DataDescriptorBeatsInstanceDict`, `InstanceDictShadowsClass`, `NonDataDescriptorApplied`, `FirstMatchWins`, `UnknownFallbackIsAny` and `GetattrOnlyOnMiss` state each step |
| Lookup.ClassRead | pytype/tests/test_classes.py:471-500 | The class read protocol; it carries no contract itself. `MetaclassGetattributeIntercepts`, `ReadAfterClassWrite` and `UnknownFallbackIsAny` state it |
| Lookup.MetaOf | pytype/tests/test_classes.py:471-500 | No metaclass exactly when no class along the linearization declares one; otherwise the one the first declaring class names |
| Lookup.SuperRead | pytype/tests/test_classes.py:210-239 | `super(start, self).n`; it carries no contract itself. `After` states where the search resumes and `DiamondScenario.SuperDiamond` shows it on the diamond |
| Lookup.TypeRead | pytype/tests/test_classes.py:502-524 | A read on a type-set; it carries no contract itself. `Distribute`, `TypeReadSingle` and `TypeReadOverJoin` state it |
| Lookup.ValueRead | pytype/tests/test_classes.py:581-617 | A read on a value: an instance's own dictionary takes part, a value known by type alone is read through `TypeRead`. It carries no contract itself; the scenario lemmas state its results |
| Lookup.After | pytype/tests/test_classes.py:210-239 | `super` resumes after the first occurrence of the starting class, or yields nothing when the class does not occur |
| Lookup.FirstMatchWins | pytype/tests/test_classes.py:210-239 | Without a hook, an instance read yields the plain slot of the first supplying class, whatever later classes define |
| Lookup.GetattributeShortCircuits | pytype/tests/test_classes.py:424-450 | A `__getattribute__` override answers every instance read with its return type, whether or not the name is defined |
| Lookup.MetaclassGetattributeIntercepts | pytype/tests/test_classes.py:471-500 | A metaclass `__getattribute__` answers every class-level read, even of names the class defines |
| Lookup.DataDescriptorBeatsInstanceDict | pytype/tests/test_classes.py:316-330 | A data descriptor found on the class decides an instance read, even when the instance's dictionary has the name |
| Lookup.NonDataDescriptorApplied | pytype/tests/test_classes.py:332-392 | A read of an object whose class defines `__get__` yields `__get__`'s result, not the object |
| Lookup.InstanceDictShadowsClass | pytype/tests/test_classes.py:316-330 | Without a data descriptor for the name, the instance's own entry wins over the class slot |
| Lookup.GetattrOnlyOnMiss | pytype/tests/test_classes.py:394-422 | Without `__getattribute__`, a read fails exactly when the instance and every class along the linearization lack the name, no `Any` entry is present, and no `__getattr__` exists. On such a miss, an existing `__getattr__`'s return type is the result |
| Lookup.UnknownAncestorNeverMisses | pytype/tests/test_classes.py:44-65 | With an unknown entry in the linearization, instance and class reads always find something |
| Lookup.UnknownFallbackIsAny | pytype/tests/test_classes.py:44-52 | When no class along the linearization defines the name and an `Any` entry is present, an instance read of a name the instance lacks is `Any`, and so is the class read when no metaclass is declared |
| Lookup.OnlyUnknownBaseReadsAny | pytype/tests/test_classes.py:44-52 | In every table, a class whose only base is unknown reads every name it does not define as `Any`, on instances and on the class |
| Lookup.Distribute | pytype/tests/test_classes.py:502-524 | A distributed read is `Any` on `Any` and fails only when every member lacks the name. It covers each member's result and adds nothing beyond them: every atom comes from some member, and `Any` only when some member reads `Any` |
| Lookup.DistributeSingle | pytype/tests/test_classes.py:502-524 | A distributed read on a one-member type-set is that member's read |
| Lookup.DistributeOverJoin | pytype/tests/test_classes.py:502-524 | Reading on a merged type-set equals merging the reads on each part |
| Lookup.TypeReadSingle | pytype/tests/test_classes.py:502-524 | A read on a one-member type-set is that member's read |
| Lookup.TypeReadOverJoin | pytype/tests/test_classes.py:502-524 | A read on the merge of two type-sets merges the reads on each |
| Writes.ClassWrite | pytype/tests/test_classes.py:252-267 | A class write leaves other classes, the bases and other names alone. The written entry becomes the least type-set covering both the old entry and the written type |
| Writes.ClassWritesCommute | pytype/tests/test_classes.py:252-267 | Two writes to the same class attribute give the same table in either order |
| Writes.ClassWriteIdempotent | pytype/tests/test_classes.py:252-267 | Repeating a class write changes nothing |
| Writes.ReadAfterClassWrite | pytype/tests/test_classes.py:252-267 | Without a metaclass, reading a written class attribute yields the old entry merged with the written type |
| Writes.GovernedByDescriptor | pytype/tests/test_classes.py:316-330 | The first class defining the name holds a data descriptor; it carries no contract itself. `DataDescriptorBeatsInstanceDict` and `InstanceWrite` state its effect on reads and writes |
| Writes.InstanceWrite | pytype/tests/test_classes.py:581-617 | An instance write widens the instance's own entry to the least type-set covering both the old entry and the written type, and keeps every other one, unless a data descriptor governs the name |
| Writes.ReadAfterInstanceWrite | pytype/tests/test_classes.py:581-617 | Without hooks or a descriptor, reading a written instance attribute yields the old entry merged with the written type |
| Construction.RunInit | pytype/tests/test_classes.py:581-617 | Running `__init__` keeps the class and keeps every entry `__init__` does not store unchanged. Each stored entry becomes the least type-set covering its old type and the written type. No other name appears |
| Construction.Construct | pytype/tests/test_classes.py:556-642 | When the `__new__` candidate is not an instance of the class, the call yields it exactly as `__new__` made it. When it is, the result is still an instance of the class, keeps every attribute `__init__` does not store, and holds each stored write widened by least upper bound |
| Construction.CallNew | pytype/tests/test_classes.py:556-579 | Calling a `__new__` summary yields a value in normal form with the summary's result type, and an instance value it returns is kept as it is; the root's `__new__` yields a fresh, empty instance of the class passed in |
| Construction.NewCandidate | pytype/tests/test_classes.py:78-114 | The candidate is in normal form, and is a fresh instance of the class when no class along the linearization defines `__new__`, unknown bases included |
| Construction.InstanceOfByType | pytype/tests/test_classes.py:619-642 | A candidate in normal form is an instance of `c` exactly when its type is a single instance type whose class has `c` in its linearization |
| Construction.SameTypeSameDecision | pytype/tests/test_classes.py:619-642 | Two candidates with the same type get the same skip-init decision |
| Construction.IsInstanceOf | pytype/tests/test_classes.py:556-579 | The skip-init test; it carries no contract itself. `InstanceOfByType` characterises it by the candidate's type |
| Construction.InitWrites | pytype/tests/test_classes.py:581-617 | The writes of the `__init__` found along the linearization; it carries no contract itself. `RunInit`'s contract states how they apply |
| Construction.CallAtom | pytype/tests/test_classes.py:526-579 | Calling a class yields the type of what its `__new__` produces; calling a `__new__` that makes a fresh instance yields an instance of the class passed as the first argument, and `Any` when that argument is not a single class |
| Construction.SkipInit | pytype/tests/test_classes.py:581-617 | When `__new__` yields a non-instance, the call's result and its type are exactly that value's |
| Construction.FreshInstanceIsInitialised | pytype/tests/test_classes.py:353-372 | A fresh instance from the root `__new__` is of the class itself and holds every `__init__` write that no data descriptor governs, at exactly the written type |
| Construction.InitEffectsOnlyWhenInstance | pytype/tests/test_classes.py:581-617 | A name that only `__init__` writes appears on the result exactly when the candidate is an instance of the class |
| Construction.FreshInstanceAttrs | pytype/tests/test_classes.py:316-330 | A fresh instance's dictionary is exactly its `__init__` writes, evaluated against the call's arguments |
| MergeShapes.DiamondMerge | pytype/tests/test_classes.py:210-239 | For any four distinct classes, the C3 merge of `[b, a, o]`, `[c, a, o]` and `[b, c]` is `b, c, a, o` |
| MergeShapes.TwoBaseMerge | pytype/tests/test_classes.py:471-500 | For any three distinct classes, the C3 merge of `[b, o]`, `[c, o]` and `[b, c]` is `b, c, o` |
| DiamondScenario.DiamondLinear | pytype/tests/test_classes.py:210-239 | `D(B, C)` over `B(A)`, `C(A)` linearizes to `D, B, C, A, object` |
| DiamondScenario.SuperDiamond | pytype/tests/test_classes.py:210-239 | `super(D, self)` reads: `y` is `B`'s `int` (not `C`'s `str`), `z` is `C`'s `complex`, `x` is `A`'s `int` |
| DiamondScenario.DiamondInstanceReads | pytype/tests/test_classes.py:210-239 | The same first-match order governs plain reads on a `D` instance |
| UnknownBasesScenario.UnsolvableMerge | pytype/tests/test_classes.py:299-314 | The merge for `Bar(X, Foo, Y)` with unknown `X`, `Y` succeeds, with unknown entries around `Foo` |
| UnknownBasesScenario.MroWithUnsolvables | pytype/tests/test_classes.py:299-314 | `Foo(Y)` and `Bar(X, Foo, Y)` both linearize without error |
| UnknownBasesScenario.InheritFromUnknown | pytype/tests/test_classes.py:44-65 | Every instance read and class read on a class with an unknown base is `Any` |
| UnknownBasesScenario.UnsolvableConstructs | pytype/tests/test_classes.py:78-114 | Calling a class whose only other entry is an unknown base gives an ordinary, empty instance of that class, as `x = Bar(duration=0)` is a `Bar`: the unknown entry supplies neither `__new__` nor `__init__` |
| UnknownBasesScenario.PartlyKnownLinear | pytype/tests/test_classes.py:78-114 | `Bar(Foo, ?)` linearizes to `Bar, Foo, object, Any` |
| UnknownBasesScenario.InheritFromUnknownAndInitialize | pytype/tests/test_classes.py:78-114 | `Bar(duration=0)` is a `Bar`, because the root `__new__` and `__init__` precede the unknown entry |
| DescriptorScenarios.PropertyConstruct | pytype/tests/test_classes.py:316-330 | `Foo()` runs `__init__`, so the instance holds `_name: str` |
| DescriptorScenarios.PropertyRead | pytype/tests/test_classes.py:316-330 | `self.name` on a `Foo` is the getter's `str`, and `Foo.name` on the class is the property object |
| DescriptorScenarios.DescriptorApplied | pytype/tests/test_classes.py:332-392 | In any table where `Bar.foo` holds a `Foo` whose class has `__get__` returning `str` and no `__set__`, reading `foo` on a `Bar` instance yields `str` |
| DescriptorScenarios.DescriptorSelfRead | pytype/tests/test_classes.py:332-351 | `self.foo` is `str`, not the `Foo` object |
| DescriptorScenarios.DescriptorInstanceRead | pytype/tests/test_classes.py:353-372 | `Bar()` holds `_name: str`, and `self.foo` is `str` |
| DescriptorScenarios.DescriptorClassRead | pytype/tests/test_classes.py:374-392 | `Bar._name` on the class is `str`, and `self.foo` is `str` |
| HookScenarios.GetattrAnswersMiss | pytype/tests/test_classes.py:394-422 | `Foo().foo` misses every class, so it is `__getattr__`'s `str` |
| HookScenarios.GetattrNotOnHit | pytype/tests/test_classes.py:394-422 | A name the class defines is read normally, without `__getattr__` |
| HookScenarios.GetattributeAnswersAll | pytype/tests/test_classes.py:424-450 | Every read on `A()`, `x` included, is `__getattribute__`'s `int` |
| HookScenarios.GetattributeBeatsInstanceDict | pytype/tests/test_classes.py:424-450 | `__getattribute__` wins even over the instance's own entry |
| MetaclassScenario.IntEnumMro | pytype/tests/test_classes.py:471-500 | `IntEnum(int, Enum)` linearizes to `IntEnum, int, Enum, object` |
| MetaclassScenario.EnumMetaInherited | pytype/tests/test_classes.py:471-500 | `A(Enum)` and `B(IntEnum)` both get `EnumMeta` from `Enum` |
| MetaclassScenario.ClassesDefineX | pytype/tests/test_classes.py:471-500 | Both `A` and `B` do define `x` as `int` themselves |
| MetaclassScenario.MetaclassGetAttribute | pytype/tests/test_classes.py:471-500 | `A.x` and `B.x` are `Any` despite `x = 1`, and `A.x.name` and `B.x.name` are `Any` |
| ClassTypeScenarios.ReturnClassType | pytype/tests/test_classes.py:502-524 | `Type[A].x` is `int`, `Type[A or B].x` is `int or str`, and `Type[int or B].x` is `str` because `int` contributes nothing |
| ClassTypeScenarios.CallClassType | pytype/tests/test_classes.py:526-540 | `B.MyA` is the class object `A`, and calling it yields an `A` |
| ClassAttrScenario.ClassOfInstance | pytype/tests/test_classes.py:252-267 | `Foo().__class__` is the class object `Foo` |
| ClassAttrScenario.ClassAttrWidens | pytype/tests/test_classes.py:252-267 | After `Foo.x = 3` and `OtherFoo.x = "bar"`, `x` reads as `int or str` on `Foo` and on its alias |
| ClassAttrScenario.ClassAttrOrderFree | pytype/tests/test_classes.py:252-267 | The two writes give the same table in either order |
| NewInitScenarios.NewReturnsOtherClass | pytype/tests/test_classes.py:556-579 | `a.A(42)` is the `B` its `__new__` returns, and `A.__init__` is skipped |
| NewInitScenarios.NewReturnsStr | pytype/tests/test_classes.py:556-579 | `C()` is the `str` its `__new__` returns |
| NewInitScenarios.RootNewOfBool | pytype/tests/test_classes.py:556-579 | Reading `__new__` on `object` gives the root's unbound `__new__`, and calling it with the class `bool` gives a `bool`: `object.__new__(bool)` is a `bool` |
| NewInitScenarios.ConstructA | pytype/tests/test_classes.py:581-617 | `A(a, b)` is a fresh `A` whose `__init__` wrote `x` |
| NewInitScenarios.NewOfBIsAWithY | pytype/tests/test_classes.py:581-617 | `A(3.14, 0)` followed by `v.y = False` is the `A` with `x: float` and `y: bool` |
| NewInitScenarios.NewAndInitDirect | pytype/tests/test_classes.py:581-617 | `x1 = A("hello", "world")` is an `A`, and `x1.x` is `str` |
| NewInitScenarios.NewAndInitReads | pytype/tests/test_classes.py:581-617 | `B(3.14)` is an `A`, with `x` as `float` and `y` as `bool` |
| NewInitScenarios.StubNewOwnClass | pytype/tests/test_classes.py:619-642 | `a.A(0)` is an `A`, and `A.__init__` runs on it |
| NewInitScenarios.StubNewSkipsInit | pytype/tests/test_classes.py:619-642 | `a.B()` is the `A` from `B.__new__`, and `B.__init__` is never called |

## Left out

- Interpreting method bodies is left out. Each body is a summary of its return value and its writes to `self`; arguments are the only inputs. Call-site argument inference (`__init__(self, name: str)`) is also out.
- Numeric promotion is left out. In testNewAndInit, `self.x = a + b` is summarised as the type of `a`. That gives the `str` and `float` the test expects for `x2` and `x4`. It does not give the class-level union `str or int or long or float or complex`.
- Unknown-solving (`List[int, ...]`), class decorators applied to `__any_object__`, and the `classmethod` pytd rendering (testClassMethod) are left out, because they need the solver and the builtins stubs.
- Loading stubs from a temporary directory, pytd output and `assertTypesMatchPytd` are left out. A class from a stub is modelled as a table entry whose slots carry the stub's annotations.
- Type parameters are left out: generic classes, and `self := A[N]` rebinding in testNewAndInitPyi. That scenario is modelled without them; its skip-init decision is kept.
- testSuperError is skipped and asserts nothing.
- testSuper and testSuperInInit are left out: their `super().__init__` calls happen inside bodies, which are not interpreted. `super` reads themselves are modelled by `Lookup.SuperRead`.
- testInheritFromList, testInheritFromClassobj, testBoundMethod, testCallClassAttr, testCallAlias, testGetType, testTypeAttribute and testTypeSubclass are left out. They rely on builtins (`list`, `type(...)`, `__name__`) or on pytd rendering rather than the class object model.
- Linearization.Linear: when C3 fails (a cycle, an undefined base, or an inconsistent order), the model falls back to the class followed by one `Any` entry. The tests do not show what pytype does there.
- testClassAttr carries a TODO that the expected type "should be just str"; the model follows the asserted `int or str`.
- `builtins.dfy` defines only `object` (with its `__new__` and `__init__`) and names for builtin instance types. Other builtins a scenario needs, such as `type` and `int` in the metaclass scenario, are plain classes with empty dictionaries in that scenario's own table. A property is a slot kind, not a class.
- `__new__` and `__init__` are found along the class's own linearization. A metaclass `__getattribute__` or data descriptor does not intercept them, as with Python's special-method lookup for calls.
- Lookup.MetaOf takes the metaclass of the first class along the linearization that declares one. It does not pick the most derived of several metaclasses and does not detect a metaclass conflict; the scenarios have a single metaclass chain.
- A `__new__` summary's `Returns` value cannot depend on the call's arguments. In testNewAndInit, the summary of `B.__new__` is the value for `B(3.14)`, which `NewOfBIsAWithY` derives from `A.__init__`; `B("s")` would also give `x: float`.
- A `__new__` whose result type is a union of several classes is not treated as an instance of the class being called, so `__init__` is skipped for all of them. pytype decides per possible class.
