/**
 C3 merges of the shapes the class hierarchies in this model produce, stated
 over arbitrary distinct class entries so that each is proved once.
 */
module MergeShapes {
  import opened Options
  import opened ClassModel
  import opened Linearization

  /** Two copies of `[o]` (and an exhausted list) merge to `o`. */
  lemma LastMerge(o: Entry)
    requires o.C?
    ensures Merge([[o], [o], []]) == Some([o])
  {
    var s: seq<seq<Entry>> := [[o], [o], []];
    MergeOfEmpties([[], [], []]);
    assert Drop(s, o) == [[], [], []];
    assert NotInTails(s, o) by {
      assert forall j :: 0 <= j < |s| ==> !InTail(s[j], o);
    }
    assert Pick(s, 0) == Some(0);
    MergeStep(s, 0, []);
    assert [o] + [] == [o];
  }

  /** Two copies of `[a, o]` (and an exhausted list) merge to `a, o`. */
  lemma CommonTailMerge(a: Entry, o: Entry)
    requires a.C? && o.C? && a != o
    ensures Merge([[a, o], [a, o], []]) == Some([a, o])
  {
    var s2: seq<seq<Entry>> := [[a, o], [a, o], []];
    LastMerge(o);
    assert Drop(s2, a) == [[o], [o], []];
    assert NotInTails(s2, a) by {
      assert s2[0][1..] == [o] && s2[1][1..] == [o];
      assert forall j :: 0 <= j < |s2| ==> !InTail(s2[j], a);
    }
    assert Pick(s2, 0) == Some(0);
    MergeStep(s2, 0, [o]);
    assert [a] + [o] == [a, o];
  }

  /** In `[a, o], [c, a, o], [c]` the head `a` is blocked by the second list's tail, so `c` is picked. */
  lemma BlockedHeadPick(a: Entry, c: Entry, o: Entry)
    requires a.C? && c.C? && o.C? && a != c && a != o && c != o
    ensures Pick([[a, o], [c, a, o], [c]], 0) == Some(1)
    ensures Drop([[a, o], [c, a, o], [c]], c) == [[a, o], [a, o], []]
  {
    var s1: seq<seq<Entry>> := [[a, o], [c, a, o], [c]];
    assert !Eligible(s1, a) by {
      assert s1[1][1..] == [a, o];
      assert InTail(s1[1], a);
    }
    assert NotInTails(s1, c) by {
      assert s1[0][1..] == [o] && s1[1][1..] == [a, o] && s1[2][1..] == [];
      assert forall j :: 0 <= j < |s1| ==> !InTail(s1[j], c);
    }
    assert Pick(s1, 1) == Some(1);
  }

  /** With `a` still in the tail of `c`'s list, `c` is taken before `a`. */
  lemma BlockedHeadMerge(a: Entry, c: Entry, o: Entry)
    requires a.C? && c.C? && o.C? && a != c && a != o && c != o
    ensures Merge([[a, o], [c, a, o], [c]]) == Some([c, a, o])
  {
    CommonTailMerge(a, o);
    BlockedHeadPick(a, c, o);
    MergeStep([[a, o], [c, a, o], [c]], 1, [a, o]);
    assert [c] + [a, o] == [c, a, o];
  }

  /** In the diamond's lists the first head `b` is in no tail. */
  lemma DiamondPick(a: Entry, b: Entry, c: Entry, o: Entry)
    requires a.C? && b.C? && c.C? && o.C?
    requires a != b && a != c && a != o && b != c && b != o && c != o
    ensures Pick([[b, a, o], [c, a, o], [b, c]], 0) == Some(0)
    ensures Drop([[b, a, o], [c, a, o], [b, c]], b) == [[a, o], [c, a, o], [c]]
  {
    var s0: seq<seq<Entry>> := [[b, a, o], [c, a, o], [b, c]];
    assert NotInTails(s0, b) by {
      assert s0[0][1..] == [a, o] && s0[1][1..] == [a, o] && s0[2][1..] == [c];
      assert forall j :: 0 <= j < |s0| ==> !InTail(s0[j], b);
    }
  }

  /**
   The C3 merge of a diamond: with `b` and `c` both deriving from `a`, the
   lists `[b, a, o]`, `[c, a, o]` and `[b, c]` merge to `b, c, a, o`.
   */
  lemma DiamondMerge(a: Entry, b: Entry, c: Entry, o: Entry)
    requires a.C? && b.C? && c.C? && o.C?
    requires a != b && a != c && a != o && b != c && b != o && c != o
    ensures Merge([[b, a, o], [c, a, o], [b, c]]) == Some([b, c, a, o])
  {
    BlockedHeadMerge(a, c, o);
    DiamondPick(a, b, c, o);
    MergeStep([[b, a, o], [c, a, o], [b, c]], 0, [c, a, o]);
    assert [b] + [c, a, o] == [b, c, a, o];
  }

  /** In `[o], [c, o], [c]` the head `o` is blocked by the second list's tail, so `c` is picked. */
  lemma TwoBasePick(c: Entry, o: Entry)
    requires c.C? && o.C? && c != o
    ensures Pick([[o], [c, o], [c]], 0) == Some(1)
    ensures Drop([[o], [c, o], [c]], c) == [[o], [o], []]
  {
    var s: seq<seq<Entry>> := [[o], [c, o], [c]];
    assert !Eligible(s, o) by {
      assert s[1][1..] == [o];
      assert InTail(s[1], o);
    }
    assert NotInTails(s, c) by {
      assert s[0][1..] == [] && s[1][1..] == [o] && s[2][1..] == [];
      assert forall j :: 0 <= j < |s| ==> !InTail(s[j], c);
    }
    assert Pick(s, 1) == Some(1);
  }

  /** With `o` still in the tail of `c`'s list, `c` is taken before `o`. */
  lemma TwoBaseTail(c: Entry, o: Entry)
    requires c.C? && o.C? && c != o
    ensures Merge([[o], [c, o], [c]]) == Some([c, o])
  {
    LastMerge(o);
    TwoBasePick(c, o);
    MergeStep([[o], [c, o], [c]], 1, [o]);
    assert [c] + [o] == [c, o];
  }

  /** In the lists of two bases over `o`, the first head `b` is in no tail. */
  lemma TwoBaseFirstPick(b: Entry, c: Entry, o: Entry)
    requires b.C? && c.C? && o.C? && b != c && b != o && c != o
    ensures Pick([[b, o], [c, o], [b, c]], 0) == Some(0)
    ensures Drop([[b, o], [c, o], [b, c]], b) == [[o], [c, o], [c]]
  {
    var s: seq<seq<Entry>> := [[b, o], [c, o], [b, c]];
    assert NotInTails(s, b) by {
      assert s[0][1..] == [o] && s[1][1..] == [o] && s[2][1..] == [c];
      assert forall j :: 0 <= j < |s| ==> !InTail(s[j], b);
    }
  }

  /**
   Two bases `b` and `c` that both derive from `o` alone: the lists
   `[b, o]`, `[c, o]` and `[b, c]` merge to `b, c, o`.
   */
  lemma TwoBaseMerge(b: Entry, c: Entry, o: Entry)
    requires b.C? && c.C? && o.C? && b != c && b != o && c != o
    ensures Merge([[b, o], [c, o], [b, c]]) == Some([b, c, o])
  {
    TwoBaseTail(c, o);
    TwoBaseFirstPick(b, c, o);
    MergeStep([[b, o], [c, o], [b, c]], 0, [c, o]);
    assert [b] + [c, o] == [b, c, o];
  }
}
