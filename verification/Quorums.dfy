/**
 Majorities of a group of servers numbered from 0.
 */
module Quorums {

  function Everyone(n: nat): (r: set<nat>)
    ensures forall i: nat :: i in r <==> i < n
  {
    if n == 0 then {} else Everyone(n - 1) + {n - 1}
  }

  lemma EveryoneCounted(n: nat)
    ensures |Everyone(n)| == n
  {
    if n > 0 {
      EveryoneCounted(n - 1);
    }
  }

  predicate Majority(q: set<nat>, n: nat) {
    q <= Everyone(n) && 2 * |q| > n
  }

  /** Any two majorities of the same group share a server. */
  lemma MajoritiesMeet(a: set<nat>, b: set<nat>, n: nat) returns (i: nat)
    requires Majority(a, n) && Majority(b, n)
    ensures i in a && i in b && i < n
  {
    EveryoneCounted(n);
    SubsetCounted(a + b, Everyone(n));
    assert |a + b| == |a| + |b| - |a * b|;
    assert a * b != {};
    i :| i in a * b;
  }

  lemma SubsetCounted<T>(a: set<T>, b: set<T>)
    requires a <= b
    ensures |a| <= |b|
  {
    if a != {} {
      var x :| x in a;
      SubsetCounted(a - {x}, b - {x});
    }
  }
}
