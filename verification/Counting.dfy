// Sums over finite sequences and the pigeonhole principle, used by the counting arguments
// about workers, barriers and stop tokens.
module Counting {

  function Sum(xs: seq<nat>): nat {
    if xs == [] then 0 else xs[0] + Sum(xs[1..])
  }

  lemma {:induction false} SumUpdate(xs: seq<nat>, i: nat, v: nat)
    requires i < |xs|
    ensures Sum(xs[i := v]) + xs[i] == Sum(xs) + v
  {
    if i == 0 {
      assert xs[0 := v][1..] == xs[1..];
    } else {
      SumUpdate(xs[1..], i - 1, v);
      assert xs[i := v][1..] == xs[1..][i - 1 := v];
    }
  }

  lemma {:induction false} SumAppend(xs: seq<nat>, v: nat)
    ensures Sum(xs + [v]) == Sum(xs) + v
  {
    if xs != [] {
      SumAppend(xs[1..], v);
      assert (xs + [v])[1..] == xs[1..] + [v];
    } else {
      assert Sum([v]) == v + Sum([v][1..]);
    }
  }

  lemma {:induction false} SumAtLeast(xs: seq<nat>, i: nat)
    requires i < |xs|
    ensures xs[i] <= Sum(xs)
  {
    if i > 0 {
      SumAtLeast(xs[1..], i - 1);
    }
  }

  lemma {:induction false} SumZero(xs: seq<nat>)
    requires forall i :: 0 <= i < |xs| ==> xs[i] == 0
    ensures Sum(xs) == 0
  {
    if xs != [] {
      SumZero(xs[1..]);
    }
  }

  lemma MultiplyStep(a: nat, b: nat)
    requires a > 0
    ensures a * b == (a - 1) * b + b
  {
  }

  ghost predicate Distinct(xs: seq<nat>) {
    forall i, j :: 0 <= i < j < |xs| ==> xs[i] != xs[j]
  }

  ghost function Below(n: nat): (b: set<nat>)
    ensures |b| == n
    ensures forall x: nat :: x in b <==> x < n
  {
    if n == 0 then {} else Below(n - 1) + {n - 1}
  }

  ghost function Elements(xs: seq<nat>): (e: set<nat>)
    ensures forall x :: x in e <==> x in xs
    ensures Distinct(xs) ==> |e| == |xs|
  {
    if xs == [] then {} else
      assert forall x :: x in xs <==> x == xs[0] || x in xs[1..];
      Elements(xs[1..]) + {xs[0]}
  }

  lemma SubsetSize<T>(a: set<T>, b: set<T>)
    requires a <= b
    ensures |a| <= |b|
    ensures |a| == |b| ==> a == b
  {
    assert b == a + (b - a);
  }

  // n different numbers below n are all the numbers below n.
  lemma Pigeonhole(xs: seq<nat>, n: nat)
    requires Distinct(xs) && |xs| == n
    requires forall i :: 0 <= i < n ==> xs[i] < n
    ensures forall x :: 0 <= x < n ==> x in xs
  {
    SubsetSize(Elements(xs), Below(n));
    forall x | 0 <= x < n ensures x in xs {
      assert x in Below(n);
    }
  }
}
