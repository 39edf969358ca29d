/** Counting distinct indices. */
module Counting {

  ghost function Elems(a: seq<nat>): set<nat> { set x | x in a }

  /** Indices below n, each at most once. */
  ghost predicate Indices(a: seq<nat>, n: nat) {
    && (forall i :: 0 <= i < |a| ==> a[i] < n)
    && (forall i, j :: 0 <= i < j < |a| ==> a[i] != a[j])
  }

  lemma {:induction false} Range(n: nat, a: set<nat>)
    requires forall x :: x in a ==> x < n
    ensures |a| <= n
  {
    if n == 0 {
      assert a == {};
    } else {
      Range(n - 1, a - {n - 1});
      assert a <= (a - {n - 1}) + {n - 1};
      if n - 1 in a { assert |a - {n - 1}| == |a| - 1; } else { assert a - {n - 1} == a; }
    }
  }

  lemma {:induction false} ElemsSize(a: seq<nat>, n: nat)
    requires Indices(a, n)
    ensures |Elems(a)| == |a|
  {
    if a == [] {
      assert Elems(a) == {};
    } else {
      var b, x := a[..|a| - 1], a[|a| - 1];
      ElemsSize(b, n);
      assert Elems(a) == Elems(b) + {x};
      assert x !in Elems(b);
    }
  }

  /** If one more index is missing from the list, the list is shorter than n. */
  lemma Pigeonhole(a: seq<nat>, n: nat, x: nat)
    requires Indices(a, n) && x < n && x !in a
    ensures |a| < n
  {
    var b: seq<nat> := a + [x];
    ElemsSize(b, n);
    Range(n, Elems(b));
  }

  /** A list of n of them has them all. */
  lemma Covers(a: seq<nat>, n: nat)
    requires Indices(a, n) && |a| == n
    ensures forall x: nat :: x < n ==> x in a
  {
    forall x: nat | x < n ensures x in a {
      if x !in a { Pigeonhole(a, n, x); }
    }
  }
}
