/**
 The value of a server's log: the entries it retains, the first of which has index `start`.
 */
module Log {
  import opened Types

  datatype Log = Log(start: nat, entries: seq<Entry>) {

    function End(): nat {
      start + |entries|
    }

    function LastTerm(): nat {
      TermOfLast(entries)
    }

    function At(index: nat): Entry
      requires start <= index < End()
    {
      entries[index - start]
    }

    /** The term at an index: 0 before the log begins, unknown once the index is compacted. */
    function TermAt(index: nat): nat
      requires index < End()
    {
      if index == 0 then 0
      else if index >= start then At(index).term
      else TERM_UNKNOWN
    }

    function Append(entry: Entry): Log {
      this.(entries := entries + [entry])
    }

    function Slice(from: nat, to: nat): seq<Entry>
      requires start <= from <= to <= End()
    {
      entries[from - start..to - start]
    }

    /** This log without its entries from `index` on. */
    function CutAt(index: nat): Log
      requires start <= index <= End()
    {
      this.(entries := entries[..index - start])
    }

    /** This log without its first `count` entries. */
    function Forget(count: nat): Log
      requires count <= |entries|
    {
      Log(start + count, entries[count..])
    }

    /** The batch of an append request, whose first entry belongs at index `first`, merged in. */
    function Merge(first: nat, batch: seq<Entry>): Log
      requires start <= first <= End()
    {
      this.(entries := MergeAt(entries, first - start, batch))
    }
  }

  lemma SliceToEnd(log: Log, from: nat)
    requires log.start <= from <= log.End()
    ensures log.Slice(from, log.End()) == log.entries[from - log.start..]
  {}

  function TermOfLast(entries: seq<Entry>): nat {
    if entries == [] then 0 else entries[|entries| - 1].term
  }

  /** The number of leading positions at which both sequences have entries of the same term. */
  function Agreement(a: seq<Entry>, b: seq<Entry>): (k: nat)
    ensures k <= |a| && k <= |b|
  {
    if a == [] || b == [] || a[0].term != b[0].term then 0
    else 1 + Agreement(a[1..], b[1..])
  }

  lemma {:induction false} AgreementParts(a: seq<Entry>, b: seq<Entry>)
    ensures forall i :: 0 <= i < Agreement(a, b) ==> a[i].term == b[i].term
    ensures var k := Agreement(a, b); k < |a| && k < |b| ==> a[k].term != b[k].term
  {
    if a != [] && b != [] && a[0].term == b[0].term {
      AgreementParts(a[1..], b[1..]);
      forall i | 0 <= i < Agreement(a, b) ensures a[i].term == b[i].term {
        if i > 0 {
          assert a[1..][i - 1].term == b[1..][i - 1].term;
        }
      }
    }
  }

  function MergeAt(entries: seq<Entry>, at: nat, batch: seq<Entry>): seq<Entry>
    requires at <= |entries|
  {
    Spliced(entries, at, batch, Agreement(entries[at..], batch))
  }

  /** The entries with those of the batch after the first `keep` in place of all from there on. */
  function Spliced(entries: seq<Entry>, at: nat, batch: seq<Entry>, keep: nat): seq<Entry>
    requires at + keep <= |entries| && keep <= |batch|
  {
    if keep == |batch| then entries
    else entries[..at + keep] + batch[keep..]
  }
}
