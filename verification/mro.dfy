/**
 Method resolution order. A class's linearization is the class itself
 followed by the C3 merge of its bases' linearizations and the base list.
 A base of unknown origin linearizes to a single `AnyEntry`; such entries
 never block the merge and stand for "every further attribute is `Any`".
 */
module Linearization {
  import opened Options
  import opened TypeSets
  import opened ClassModel

  datatype Entry = C(name: Name) | AnyEntry

  datatype MroError = Cycle(at: Name) | Undefined(at: Name) | Inconsistent(at: Name)

  datatype Result<T> = Ok(value: T) | Err(error: MroError)

  // ---------------------------------------------------------------------------
  // Orders on sequences of entries

  /** `a` is a (not necessarily contiguous) subsequence of `b`. */
  predicate IsSubseq(a: seq<Entry>, b: seq<Entry>)
    decreases |b|
  {
    |a| == 0 || (|b| > 0 && if a[0] == b[0] then IsSubseq(a[1..], b[1..]) else IsSubseq(a, b[1..]))
  }

  /** `x` occurs in `s` before an occurrence of `y`. */
  ghost predicate Precedes(s: seq<Entry>, x: Entry, y: Entry) {
    exists i, j :: 0 <= i < j < |s| && s[i] == x && s[j] == y
  }

  /** No class entry occurs twice (unknown entries may repeat). */
  ghost predicate NoDupClasses(s: seq<Entry>) {
    forall i, j :: 0 <= i < j < |s| && s[i].C? ==> s[i] != s[j]
  }

  /** Every entry of a subsequence occurs in the longer sequence. */
  lemma {:induction false} SubseqMembers(a: seq<Entry>, b: seq<Entry>, x: Entry)
    requires IsSubseq(a, b) && x in a
    ensures x in b
    decreases |b|
  {
    if a[0] == b[0] {
      if x != a[0] {
        assert x in a[1..];
        SubseqMembers(a[1..], b[1..], x);
      }
    } else {
      SubseqMembers(a, b[1..], x);
    }
  }

  /** A subsequence keeps the relative order of its entries. */
  lemma {:induction false} SubseqKeepsOrder(a: seq<Entry>, b: seq<Entry>, x: Entry, y: Entry)
    requires IsSubseq(a, b) && Precedes(a, x, y)
    ensures Precedes(b, x, y)
    decreases |b|
  {
    var i, j :| 0 <= i < j < |a| && a[i] == x && a[j] == y;
    if a[0] == b[0] {
      if i == 0 {
        assert y in a[1..] by { assert a[1..][j - 1] == y; }
        SubseqMembers(a[1..], b[1..], y);
        var j' :| 0 <= j' < |b[1..]| && b[1..][j'] == y;
        assert b[0] == x && b[j' + 1] == y;
      } else {
        assert a[1..][i - 1] == x && a[1..][j - 1] == y;
        SubseqKeepsOrder(a[1..], b[1..], x, y);
        var i', j' :| 0 <= i' < j' < |b[1..]| && b[1..][i'] == x && b[1..][j'] == y;
        assert b[i' + 1] == x && b[j' + 1] == y;
      }
    } else {
      SubseqKeepsOrder(a, b[1..], x, y);
      var i', j' :| 0 <= i' < j' < |b[1..]| && b[1..][i'] == x && b[1..][j'] == y;
      assert b[i' + 1] == x && b[j' + 1] == y;
    }
  }

  // ---------------------------------------------------------------------------
  // The C3 merge

  function TotalLen(seqs: seq<seq<Entry>>): nat {
    if |seqs| == 0 then 0 else |seqs[0]| + TotalLen(seqs[1..])
  }

  /** All entries of all lists. */
  ghost function Elems(seqs: seq<seq<Entry>>): set<Entry> {
    set i, e | 0 <= i < |seqs| && e in seqs[i] :: e
  }

  predicate InTail(l: seq<Entry>, e: Entry) {
    |l| > 0 && e in l[1..]
  }

  predicate NotInTails(seqs: seq<seq<Entry>>, h: Entry)
    ensures NotInTails(seqs, h) <==> forall j :: 0 <= j < |seqs| ==> !InTail(seqs[j], h)
  {
    |seqs| == 0 || (!InTail(seqs[0], h) && NotInTails(seqs[1..], h))
  }

  /** A candidate may be taken next when it is in no list's tail; unknown entries always may. */
  predicate Eligible(seqs: seq<seq<Entry>>, h: Entry) {
    h.AnyEntry? || NotInTails(seqs, h)
  }

  /** The first list (from index `i` on) whose head is eligible. */
  function Pick(seqs: seq<seq<Entry>>, i: nat): (r: Option<nat>)
    requires i <= |seqs|
    decreases |seqs| - i
    ensures r.Some? ==> i <= r.value < |seqs| && |seqs[r.value]| > 0 && Eligible(seqs, seqs[r.value][0])
    ensures r.Some? ==> forall k :: i <= k < r.value && |seqs[k]| > 0 ==> !Eligible(seqs, seqs[k][0])
    ensures r.None? ==> forall k :: i <= k < |seqs| && |seqs[k]| > 0 ==> !Eligible(seqs, seqs[k][0])
  {
    if i == |seqs| then None
    else if |seqs[i]| > 0 && Eligible(seqs, seqs[i][0]) then Some(i)
    else Pick(seqs, i + 1)
  }

  function DropHead(l: seq<Entry>, h: Entry): seq<Entry> {
    if |l| > 0 && l[0] == h then l[1..] else l
  }

  /** Removes the chosen entry from the head of every list that starts with it. */
  function Drop(seqs: seq<seq<Entry>>, h: Entry): (r: seq<seq<Entry>>)
    ensures |r| == |seqs|
    ensures forall i :: 0 <= i < |seqs| ==> r[i] == DropHead(seqs[i], h)
  {
    if |seqs| == 0 then [] else [DropHead(seqs[0], h)] + Drop(seqs[1..], h)
  }

  lemma {:induction false} DropShrinks(seqs: seq<seq<Entry>>, k: nat)
    requires k < |seqs| && |seqs[k]| > 0
    ensures TotalLen(Drop(seqs, seqs[k][0])) < TotalLen(seqs)
  {
    var h := seqs[k][0];
    if k == 0 {
      DropNeverGrows(seqs[1..], h);
    } else {
      DropShrinks(seqs[1..], k - 1);
    }
    assert Drop(seqs, h)[1..] == Drop(seqs[1..], h);
  }

  lemma {:induction false} DropNeverGrows(seqs: seq<seq<Entry>>, h: Entry)
    ensures TotalLen(Drop(seqs, h)) <= TotalLen(seqs)
  {
    if |seqs| > 0 {
      DropNeverGrows(seqs[1..], h);
      assert Drop(seqs, h)[1..] == Drop(seqs[1..], h);
    }
  }

  lemma {:induction false} TotalLenZero(seqs: seq<seq<Entry>>)
    requires TotalLen(seqs) == 0
    ensures forall i :: 0 <= i < |seqs| ==> |seqs[i]| == 0
  {
    if |seqs| > 0 {
      TotalLenZero(seqs[1..]);
      assert forall i :: 1 <= i < |seqs| ==> seqs[i] == seqs[1..][i - 1];
    }
  }

  /** Dropping never introduces entries, and removes an eligible class entry entirely. */
  lemma DropElems(seqs: seq<seq<Entry>>, h: Entry)
    ensures Elems(Drop(seqs, h)) <= Elems(seqs)
    ensures h.C? && NotInTails(seqs, h) ==> h !in Elems(Drop(seqs, h))
  {
    var d := Drop(seqs, h);
    forall e | e in Elems(d)
      ensures e in Elems(seqs)
    {
      var i :| 0 <= i < |d| && e in d[i];
      assert e in seqs[i];
    }
  }

  /**
   The C3 merge: repeatedly take the first eligible head and drop it from
   every list head. Fails (`None`) when lists remain but no head is eligible.
   `MergeSound` states what a success guarantees.
   */
  function Merge(seqs: seq<seq<Entry>>): Option<seq<Entry>>
    decreases TotalLen(seqs)
  {
    if TotalLen(seqs) == 0 then Some([])
    else
      match Pick(seqs, 0)
      case None => None
      case Some(k) =>
        DropShrinks(seqs, k);
        match Merge(Drop(seqs, seqs[k][0]))
        case None => None
        case Some(rest) => Some([seqs[k][0]] + rest)
  }

  /**
   A successful merge keeps every input list as a subsequence (so each
   list's order is respected), introduces no entry that was not in some
   list, and lists no class twice.
   */
  lemma {:induction false} MergeSound(seqs: seq<seq<Entry>>)
    ensures Merge(seqs).Some? ==> forall i :: 0 <= i < |seqs| ==> IsSubseq(seqs[i], Merge(seqs).value)
    ensures Merge(seqs).Some? ==> forall k :: 0 <= k < |Merge(seqs).value| ==> Merge(seqs).value[k] in Elems(seqs)
    ensures Merge(seqs).Some? ==> NoDupClasses(Merge(seqs).value)
    decreases TotalLen(seqs)
  {
    if TotalLen(seqs) == 0 {
      TotalLenZero(seqs);
    } else if Pick(seqs, 0).Some? {
      var k := Pick(seqs, 0).value;
      var h := seqs[k][0];
      DropShrinks(seqs, k);
      MergeSound(Drop(seqs, h));
      if Merge(Drop(seqs, h)).Some? {
        var rest := Merge(Drop(seqs, h)).value;
        assert Merge(seqs) == Some([h] + rest);
        DropElems(seqs, h);
        assert h in seqs[k];
        var d := Drop(seqs, h);
        forall i | 0 <= i < |seqs|
          ensures IsSubseq(seqs[i], [h] + rest)
        {
          assert IsSubseq(d[i], rest);
        }
        forall k' | 0 <= k' < |[h] + rest|
          ensures ([h] + rest)[k'] in Elems(seqs)
        {
          if k' > 0 {
            assert ([h] + rest)[k'] == rest[k' - 1];
          }
        }
      }
    }
  }

  // ---------------------------------------------------------------------------
  // Linearization of a class

  /** The entries a declared base list contributes, in declaration order. */
  function BaseEntries(bases: seq<Base>): (r: seq<Entry>)
    ensures |r| == |bases|
    ensures forall i :: 0 <= i < |bases| ==> r[i] == (if bases[i].Named? then C(bases[i].cls) else AnyEntry)
  {
    if |bases| == 0 then []
    else [if bases[0].Named? then C(bases[0].cls) else AnyEntry] + BaseEntries(bases[1..])
  }

  /** Every class entry of `s` is defined in `t` and not in `v`. */
  ghost predicate Fresh(t: Table, v: set<Name>, s: seq<Entry>) {
    forall k :: 0 <= k < |s| && s[k].C? ==> s[k].name in t && s[k].name !in v
  }

  /**
   The linearization of class `c`, given the classes whose linearization is
   in progress (`visiting`, for cycle detection): the class followed by the
   merge of its bases' linearizations and its base list. A class reached
   again while in progress is a cycle; an undefined class or a failed merge
   is an error, and a base's error is the class's error.
   */
  function Mro(t: Table, c: Name, visiting: set<Name>): Result<seq<Entry>>
    decreases t.Keys - visiting, 0, 0
  {
    if c in visiting then Err(Cycle(c))
    else if c !in t then Err(Undefined(c))
    else
      match BaseLins(t, t[c].bases, visiting + {c})
      case Err(e) => Err(e)
      case Ok(lins) =>
        match Merge(lins + [BaseEntries(t[c].bases)])
        case None => Err(Inconsistent(c))
        case Some(out) => Ok([C(c)] + out)
  }

  /** The linearization a single declared base contributes. */
  function BaseLin(t: Table, b: Base, visiting: set<Name>): Result<seq<Entry>>
    decreases t.Keys - visiting, 1, 0
  {
    match b
    case Unknown => Ok([AnyEntry])
    case Named(n) => Mro(t, n, visiting)
  }

  /** The linearizations of a base list, or the first error among them. */
  function BaseLins(t: Table, bases: seq<Base>, visiting: set<Name>): Result<seq<seq<Entry>>>
    decreases t.Keys - visiting, 2, |bases|
  {
    if |bases| == 0 then Ok([])
    else
      match BaseLin(t, bases[0], visiting)
      case Err(e) => Err(e)
      case Ok(first) =>
        match BaseLins(t, bases[1..], visiting)
        case Err(e) => Err(e)
        case Ok(rest) => Ok([first] + rest)
  }

  /**
   A successful linearization starts with the class, lists no class twice,
   names only defined classes outside `visiting`, and keeps both every base's
   own linearization and the declared base order as subsequences of what
   follows the class (the C3 monotonicity and local-precedence guarantees).
   */
  lemma {:induction false} MroSound(t: Table, c: Name, v: set<Name>)
    ensures Mro(t, c, v).Ok? ==> c in t && c !in v
    ensures Mro(t, c, v).Ok? ==> |Mro(t, c, v).value| > 0 && Mro(t, c, v).value[0] == C(c)
    ensures Mro(t, c, v).Ok? ==> Fresh(t, v, Mro(t, c, v).value) && NoDupClasses(Mro(t, c, v).value)
    ensures Mro(t, c, v).Ok? ==> forall i :: 0 <= i < |t[c].bases| ==>
              BaseLin(t, t[c].bases[i], v + {c}).Ok? &&
              IsSubseq(BaseLin(t, t[c].bases[i], v + {c}).value, Mro(t, c, v).value[1..])
    ensures Mro(t, c, v).Ok? ==> IsSubseq(BaseEntries(t[c].bases), Mro(t, c, v).value[1..])
    decreases t.Keys - v, 0, 0
  {
    if c !in v && c in t && BaseLins(t, t[c].bases, v + {c}).Ok? {
      var bases := t[c].bases;
      var v' := v + {c};
      var lins := BaseLins(t, bases, v').value;
      var local := BaseEntries(bases);
      BaseLinsSound(t, bases, v');
      forall i | 0 <= i < |lins|
        ensures Fresh(t, v', lins[i])
      {
        BaseLinSound(t, bases[i], v');
      }
      assert Fresh(t, v', local) by {
        forall j | 0 <= j < |bases| && bases[j].Named?
          ensures bases[j].cls in t && bases[j].cls !in v'
        {
          BaseLinSound(t, bases[j], v');
        }
      }
      var seqs := lins + [local];
      MergeSound(seqs);
      if Merge(seqs).Some? {
        var out := Merge(seqs).value;
        assert forall i :: 0 <= i < |lins| ==> seqs[i] == lins[i];
        assert seqs[|lins|] == local;
        MergedFresh(t, v', seqs, out);
        assert v' - {c} == v;
        Prepend(c, v', t, out);
      }
    }
  }

  /** What `MroSound` guarantees, for the linearization one base contributes. */
  lemma {:induction false} BaseLinSound(t: Table, b: Base, v: set<Name>)
    ensures BaseLin(t, b, v).Ok? && b.Unknown? ==> BaseLin(t, b, v).value == [AnyEntry]
    ensures BaseLin(t, b, v).Ok? && b.Named? ==>
              |BaseLin(t, b, v).value| > 0 && BaseLin(t, b, v).value[0] == C(b.cls) && b.cls in t && b.cls !in v
    ensures BaseLin(t, b, v).Ok? ==> Fresh(t, v, BaseLin(t, b, v).value) && NoDupClasses(BaseLin(t, b, v).value)
    decreases t.Keys - v, 1, 0
  {
    if b.Named? {
      MroSound(t, b.cls, v);
    }
  }

  /** A successful list of base linearizations holds exactly each base's own. */
  lemma {:induction false} BaseLinsSound(t: Table, bases: seq<Base>, v: set<Name>)
    ensures BaseLins(t, bases, v).Ok? ==> |BaseLins(t, bases, v).value| == |bases|
    ensures BaseLins(t, bases, v).Ok? ==> forall i :: 0 <= i < |bases| ==>
              BaseLin(t, bases[i], v).Ok? && BaseLins(t, bases, v).value[i] == BaseLin(t, bases[i], v).value
    decreases t.Keys - v, 2, |bases|
  {
    if |bases| > 0 {
      BaseLinsSound(t, bases[1..], v);
      assert forall i :: 1 <= i < |bases| ==> bases[i] == bases[1..][i - 1];
    }
  }

  /** Entries drawn from fresh lists are fresh. */
  lemma MergedFresh(t: Table, v: set<Name>, seqs: seq<seq<Entry>>, out: seq<Entry>)
    requires forall i :: 0 <= i < |seqs| ==> Fresh(t, v, seqs[i])
    requires forall k :: 0 <= k < |out| ==> out[k] in Elems(seqs)
    ensures Fresh(t, v, out)
  {
    forall k | 0 <= k < |out| && out[k].C?
      ensures out[k].name in t && out[k].name !in v
    {
      var i :| 0 <= i < |seqs| && out[k] in seqs[i];
      var j :| 0 <= j < |seqs[i]| && seqs[i][j] == out[k];
    }
  }

  /** Putting the class in front of a fresh, duplicate-free merge keeps it duplicate-free. */
  lemma Prepend(c: Name, v: set<Name>, t: Table, out: seq<Entry>)
    requires c in v && c in t && Fresh(t, v, out) && NoDupClasses(out)
    ensures Fresh(t, v - {c}, [C(c)] + out)
    ensures NoDupClasses([C(c)] + out)
    ensures ([C(c)] + out)[1..] == out
  {
    var m := [C(c)] + out;
    forall i, j | 0 <= i < j < |m| && m[i].C?
      ensures m[i] != m[j]
    {
      if i > 0 {
        assert m[i] == out[i - 1] && m[j] == out[j - 1];
      } else {
        assert m[j] == out[j - 1];
      }
    }
  }

  /**
   The linearization used by attribute lookup: the class's own, or, when
   that fails, the class itself followed by an opaque `Any` tail.
   */
  function Linear(t: Table, c: Name): (r: seq<Entry>)
    ensures |r| > 0 && r[0] == C(c)
  {
    MroSound(t, c, {});
    match Mro(t, c, {})
    case Ok(m) => m
    case Err(_) => [C(c), AnyEntry]
  }

  // ---------------------------------------------------------------------------
  // Shapes of linearizations

  /** One merge step: the first eligible head, followed by the merge of what remains. */
  lemma MergeStep(seqs: seq<seq<Entry>>, k: nat, rest: seq<Entry>)
    requires Pick(seqs, 0) == Some(k)
    requires Merge(Drop(seqs, seqs[k][0])) == Some(rest)
    ensures Merge(seqs) == Some([seqs[k][0]] + rest)
  {
    TotalLenPositive(seqs, k);
  }

  /** A non-empty list makes the total length positive. */
  lemma {:induction false} TotalLenPositive(seqs: seq<seq<Entry>>, k: nat)
    requires k < |seqs| && |seqs[k]| > 0
    ensures TotalLen(seqs) > 0
    decreases k
  {
    if k > 0 {
      assert seqs[1..][k - 1] == seqs[k];
      TotalLenPositive(seqs[1..], k - 1);
    }
  }

  /** Lists that are all empty merge to the empty list. */
  lemma {:induction false} MergeOfEmpties(seqs: seq<seq<Entry>>)
    requires forall i :: 0 <= i < |seqs| ==> seqs[i] == []
    ensures TotalLen(seqs) == 0 && Merge(seqs) == Some([])
    decreases |seqs|
  {
    if |seqs| > 0 {
      MergeOfEmpties(seqs[1..]);
    }
  }

  lemma TotalLenSmall(a: seq<Entry>, b: seq<Entry>)
    ensures TotalLen([a]) == |a|
    ensures TotalLen([a, b]) == |a| + |b|
  {
    assert [a][1..] == [];
    assert [a, b][1..] == [b];
    assert [b][1..] == [];
  }

  /** A single duplicate-free list followed by an empty list merges to itself. */
  lemma {:induction false} MergeAlone(s: seq<Entry>)
    requires NoDupClasses(s)
    ensures Merge([s, []]) == Some(s)
    decreases |s|
  {
    var seqs := [s, []];
    TotalLenSmall(s, []);
    if |s| > 0 {
      assert Eligible(seqs, s[0]) by {
        if s[0].C? {
          assert forall j :: 0 <= j < |seqs| ==> !InTail(seqs[j], s[0]);
        }
      }
      assert Pick(seqs, 0) == Some(0);
      assert Drop(seqs, s[0]) == [s[1..], []];
      assert NoDupClasses(s[1..]) by {
        forall i, j | 0 <= i < j < |s[1..]| && s[1..][i].C?
          ensures s[1..][i] != s[1..][j]
        {
          assert s[1..][i] == s[i + 1] && s[1..][j] == s[j + 1];
        }
      }
      MergeAlone(s[1..]);
      MergeStep(seqs, 0, s[1..]);
      assert [s[0]] + s[1..] == s;
    }
  }

  /** A class without bases linearizes to itself alone. */
  lemma NoBases(t: Table, c: Name, v: set<Name>)
    requires c in t && c !in v && t[c].bases == []
    ensures Mro(t, c, v) == Ok([C(c)])
  {
    TotalLenSmall([], []);
    assert [] + [BaseEntries([])] == [[]];
    assert Merge([[]]) == Some([]);
    MroFrom(t, c, v, [], []);
    assert [C(c)] + [] == [C(c)];
  }

  /** A class whose only base is of unknown origin linearizes to itself and one `Any` entry. */
  lemma OnlyUnknownBase(t: Table, c: Name, v: set<Name>)
    requires c in t && c !in v && t[c].bases == [Unknown]
    ensures Mro(t, c, v) == Ok([C(c), AnyEntry])
  {
    var seqs: seq<seq<Entry>> := [[AnyEntry], [AnyEntry]];
    BaseLinsFrom(t, [Unknown], v + {c}, [[AnyEntry]]);
    assert BaseEntries([Unknown]) == [AnyEntry];
    assert [[AnyEntry]] + [[AnyEntry]] == seqs;
    TotalLenSmall([AnyEntry], [AnyEntry]);
    TotalLenSmall([], []);
    assert Pick(seqs, 0) == Some(0);
    assert Drop(seqs, AnyEntry) == [[], []];
    MergeStep(seqs, 0, []);
    assert Merge(seqs) == Some([AnyEntry]);
    MroFrom(t, c, v, [[AnyEntry]], [AnyEntry]);
    assert [C(c)] + [AnyEntry] == [C(c), AnyEntry];
  }

  /**
   Single inheritance: the linearization of a class with one base is the
   class followed by exactly the base's linearization.
   */
  lemma SingleInheritance(t: Table, c: Name, b: Name, v: set<Name>)
    requires c in t && c !in v && t[c].bases == [Named(b)]
    requires Mro(t, b, v + {c}).Ok?
    ensures Mro(t, c, v) == Ok([C(c)] + Mro(t, b, v + {c}).value)
  {
    var m := Mro(t, b, v + {c}).value;
    MroSound(t, b, v + {c});
    BaseLinsFrom(t, [Named(b)], v + {c}, [m]);
    assert BaseEntries([Named(b)]) == [C(b)];
    var seqs := [m] + [[C(b)]];
    assert seqs == [m, [C(b)]];
    TotalLenSmall(m, [C(b)]);
    assert Eligible(seqs, m[0]) by {
      assert forall j :: 0 <= j < |seqs| ==> !InTail(seqs[j], m[0]);
    }
    assert Pick(seqs, 0) == Some(0);
    assert Drop(seqs, C(b)) == [m[1..], []];
    assert NoDupClasses(m[1..]) by {
      forall i, j | 0 <= i < j < |m[1..]| && m[1..][i].C?
        ensures m[1..][i] != m[1..][j]
      {
        assert m[1..][i] == m[i + 1] && m[1..][j] == m[j + 1];
      }
    }
    MergeAlone(m[1..]);
    MergeStep(seqs, 0, m[1..]);
    assert [m[0]] + m[1..] == m;
    MroFrom(t, c, v, [m], m);
  }

  /** The base linearizations are assembled from each base's own. */
  lemma {:induction false} BaseLinsFrom(t: Table, bases: seq<Base>, v: set<Name>, lins: seq<seq<Entry>>)
    requires |lins| == |bases|
    requires forall i :: 0 <= i < |bases| ==> BaseLin(t, bases[i], v) == Ok(lins[i])
    ensures BaseLins(t, bases, v) == Ok(lins)
    decreases |bases|
  {
    if |bases| > 0 {
      BaseLinsFrom(t, bases[1..], v, lins[1..]);
      assert [lins[0]] + lins[1..] == lins;
    }
  }

  /** One linearization step, given the base linearizations and their merge. */
  lemma MroFrom(t: Table, c: Name, v: set<Name>, lins: seq<seq<Entry>>, out: seq<Entry>)
    requires c in t && c !in v
    requires BaseLins(t, t[c].bases, v + {c}) == Ok(lins)
    requires Merge(lins + [BaseEntries(t[c].bases)]) == Some(out)
    ensures Mro(t, c, v) == Ok([C(c)] + out)
  {
  }

  /** The linearization of a class, given its base linearizations and their merge. */
  lemma LinearFrom(t: Table, c: Name, lins: seq<seq<Entry>>, out: seq<Entry>)
    requires c in t
    requires BaseLins(t, t[c].bases, {c}) == Ok(lins)
    requires Merge(lins + [BaseEntries(t[c].bases)]) == Some(out)
    ensures Linear(t, c) == [C(c)] + out
  {
    var none: set<Name> := {};
    assert none + {c} == {c};
    MroFrom(t, c, none, lins, out);
  }

  /** Two tables with the same classes and the same base lists. */
  ghost predicate SameShape(t: Table, u: Table) {
    t.Keys == u.Keys && forall k :: k in t ==> t[k].bases == u[k].bases
  }

  /** Linearization depends only on the base lists, not on the class dictionaries. */
  lemma {:induction false} MroShapeOnly(t: Table, u: Table, c: Name, v: set<Name>)
    requires SameShape(t, u)
    ensures Mro(t, c, v) == Mro(u, c, v)
    decreases t.Keys - v, 0, 0
  {
    if c !in v && c in t {
      BaseLinsShapeOnly(t, u, t[c].bases, v + {c});
    }
  }

  lemma {:induction false} BaseLinsShapeOnly(t: Table, u: Table, bases: seq<Base>, v: set<Name>)
    requires SameShape(t, u)
    ensures BaseLins(t, bases, v) == BaseLins(u, bases, v)
    decreases t.Keys - v, 2, |bases|
  {
    if |bases| > 0 {
      if bases[0].Named? {
        MroShapeOnly(t, u, bases[0].cls, v);
      }
      BaseLinsShapeOnly(t, u, bases[1..], v);
    }
  }

  lemma LinearShapeOnly(t: Table, u: Table, c: Name)
    requires SameShape(t, u)
    ensures Linear(t, c) == Linear(u, c)
  {
    MroShapeOnly(t, u, c, {});
  }
}
