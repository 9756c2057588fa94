/**
 The index a leader commits: the largest that a strict majority of the servers has reached.
 */
module Medians {
  import opened Handlers

  /** How many of the indices are at least this one. */
  function Count(s: seq<nat>, index: nat): (c: nat)
    ensures c <= |s|
  {
    if s == [] then 0 else (if s[0] >= index then 1 else 0) + Count(s[1..], index)
  }

  predicate SortedDown(s: seq<nat>) {
    forall i, j :: 0 <= i <= j < |s| ==> s[i] >= s[j]
  }

  lemma {:induction false} InsertSorts(x: nat, s: seq<nat>)
    requires SortedDown(s)
    ensures SortedDown(Insert(x, s))
    ensures Insert(x, s) != [] && Insert(x, s)[0] == if s == [] || x >= s[0] then x else s[0]
  {
    if s != [] && x < s[0] {
      InsertSorts(x, s[1..]);
    }
  }

  lemma {:induction false} InsertCounts(x: nat, s: seq<nat>, index: nat)
    ensures Count(Insert(x, s), index) == (if x >= index then 1 else 0) + Count(s, index)
  {
    if s != [] && x < s[0] {
      InsertCounts(x, s[1..], index);
      assert ([s[0]] + Insert(x, s[1..]))[1..] == Insert(x, s[1..]);
    } else {
      assert ([x] + s)[1..] == s;
    }
  }

  lemma {:induction false} DescendingSorts(s: seq<nat>)
    ensures SortedDown(Descending(s))
  {
    if s != [] {
      DescendingSorts(s[1..]);
      InsertSorts(s[0], Descending(s[1..]));
    }
  }

  lemma {:induction false} DescendingCounts(s: seq<nat>, index: nat)
    ensures Count(Descending(s), index) == Count(s, index)
  {
    if s != [] {
      DescendingCounts(s[1..], index);
      InsertCounts(s[0], Descending(s[1..]), index);
    }
  }

  /** In a sorted sequence, those of at least some index come first. */
  lemma {:induction false} CountSorted(s: seq<nat>, index: nat)
    requires SortedDown(s)
    ensures forall i :: 0 <= i < |s| ==> (s[i] >= index <==> i < Count(s, index))
  {
    if s != [] {
      CountSorted(s[1..], index);
      if s[0] < index {
        assert Count(s[1..], index) == 0 by {
          if s[1..] != [] {
            assert s[1..][0] == s[1];
          }
        }
      }
      forall i | 0 <= i < |s| ensures s[i] >= index <==> i < Count(s, index) {
        if i > 0 { assert s[i] == s[1..][i - 1]; }
      }
    }
  }

  /** The index is reached by more than half of them exactly when it is at most the middle one. */
  lemma MedianIsLargestMajority(s: seq<nat>, index: nat)
    requires s != []
    ensures index <= Median(s) <==> 2 * Count(s, index) > |s|
  {
    DescendingSorts(s);
    DescendingCounts(s, index);
    var d := Descending(s);
    CountSorted(d, index);
    assert d[|s| / 2] >= index <==> |s| / 2 < Count(d, index);
  }
}
