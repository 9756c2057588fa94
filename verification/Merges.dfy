/**
 What merging the batch of an append request into a log comes to.
 */
module Merges {
  import opened Types
  import opened Log

  /** Both sequences have entries of the same term at each of the first `k` positions. */
  predicate AgreeUpTo(a: seq<Entry>, b: seq<Entry>, k: nat) {
    k <= |a| && k <= |b| && forall i :: 0 <= i < k ==> a[i].term == b[i].term
  }

  /** Nothing more agrees: one of them ends here, or their terms conflict. */
  predicate PartAt(a: seq<Entry>, b: seq<Entry>, k: nat) {
    k == |a| || k == |b| || (k < |a| && k < |b| && a[k].term != b[k].term)
  }

  lemma {:induction false} AgreementIs(a: seq<Entry>, b: seq<Entry>, k: nat)
    requires AgreeUpTo(a, b, k) && PartAt(a, b, k)
    ensures Agreement(a, b) == k
  {
    if k > 0 {
      assert a[0].term == b[0].term;
      AgreementIs(a[1..], b[1..], k - 1);
    }
  }

  /**
   Merging does nothing when the whole batch agrees with the log. Otherwise it cuts the log where the
   batch first departs from it, by a conflict or by running past its end, and puts the rest there.
   */
  lemma MergeCases(log: Log, first: nat, batch: seq<Entry>, k: nat)
    requires log.start <= first <= log.End()
    requires var tail := log.Slice(first, log.End());
      AgreeUpTo(tail, batch, k) && PartAt(tail, batch, k)
    ensures k == |batch| ==> log.Merge(first, batch) == log
    ensures k < |batch| ==>
      && log.Merge(first, batch).start == log.start
      && log.Merge(first, batch).entries == log.CutAt(first + k).entries + batch[k..]
    ensures k < |batch| && first + k == log.End() ==>
      log.Merge(first, batch).entries == log.entries + batch[log.End() - first..]
  {
    var at := first - log.start;
    SliceToEnd(log, first);
    AgreementIs(log.entries[at..], batch, k);
    MergeAtIs(log.entries, at, batch, k);
  }

  lemma MergeAtIs(entries: seq<Entry>, at: nat, batch: seq<Entry>, keep: nat)
    requires at <= |entries| && keep == Agreement(entries[at..], batch)
    ensures MergeAt(entries, at, batch)
      == if keep == |batch| then entries else entries[..at + keep] + batch[keep..]
  {}

  /** The entries have the batch's terms from this position on. */
  predicate Holds(entries: seq<Entry>, at: nat, batch: seq<Entry>) {
    && at + |batch| <= |entries|
    && forall i :: 0 <= i < |batch| ==> entries[at + i].term == batch[i].term
  }

  /** The batch is in the log once it is merged, and the log below it is as it was. */
  lemma MergeHolds(log: Log, first: nat, batch: seq<Entry>)
    requires log.start <= first <= log.End()
    ensures log.Merge(first, batch).start == log.start
    ensures Holds(log.Merge(first, batch).entries, first - log.start, batch)
    ensures log.Merge(first, batch).entries[..first - log.start] == log.entries[..first - log.start]
  {
    MergeAtHolds(log.entries, first - log.start, batch);
  }

  lemma MergeAtHolds(entries: seq<Entry>, at: nat, batch: seq<Entry>)
    requires at <= |entries|
    ensures Holds(MergeAt(entries, at, batch), at, batch)
    ensures MergeAt(entries, at, batch)[..at] == entries[..at]
  {
    var keep := Agreement(entries[at..], batch);
    AgreementParts(entries[at..], batch);
    var r := MergeAt(entries, at, batch);
    forall i | 0 <= i < |batch| ensures at + |batch| <= |r| && r[at + i].term == batch[i].term {
      if i < keep {
        assert r[at + i] == entries[at + i] == entries[at..][i];
      } else {
        assert r[at + i] == batch[keep..][i - keep];
      }
    }
  }

  /** A request that arrives again, or after a longer one from the same index, changes nothing. */
  lemma MergeStale(log: Log, first: nat, batch: seq<Entry>, j: nat)
    requires log.start <= first <= log.End() && j <= |batch|
    ensures log.Merge(first, batch).Merge(first, batch[..j]) == log.Merge(first, batch)
  {
    var r := log.Merge(first, batch);
    MergeHolds(log, first, batch);
    var tail := r.Slice(first, r.End());
    forall i | 0 <= i < j ensures tail[i].term == batch[..j][i].term {
      assert tail[i] == r.entries[first - r.start + i];
    }
    MergeCases(r, first, batch[..j], j);
  }
}
