/**
 Sums and counts over sequences, and how one update changes them.
 */
module Sums {

  function Sum<T>(xs: seq<T>, f: T -> real): real {
    if xs == [] then 0.0 else Sum(xs[..|xs| - 1], f) + f(xs[|xs| - 1])
  }

  function Count<T>(xs: seq<T>, f: T -> int): int {
    if xs == [] then 0 else Count(xs[..|xs| - 1], f) + f(xs[|xs| - 1])
  }

  lemma {:induction false} SumUpdate<T>(xs: seq<T>, i: nat, x: T, f: T -> real)
    requires i < |xs|
    ensures Sum(xs[i := x], f) == Sum(xs, f) - f(xs[i]) + f(x)
    decreases |xs|
  {
    var n := |xs| - 1;
    if i == n {
      assert xs[i := x][..n] == xs[..n];
    } else {
      SumUpdate(xs[..n], i, x, f);
      assert xs[i := x][..n] == xs[..n][i := x];
    }
  }

  lemma {:induction false} CountUpdate<T>(xs: seq<T>, i: nat, x: T, f: T -> int)
    requires i < |xs|
    ensures Count(xs[i := x], f) == Count(xs, f) - f(xs[i]) + f(x)
    decreases |xs|
  {
    var n := |xs| - 1;
    if i == n {
      assert xs[i := x][..n] == xs[..n];
    } else {
      CountUpdate(xs[..n], i, x, f);
      assert xs[i := x][..n] == xs[..n][i := x];
    }
  }

  lemma {:induction false} CountNonNegative<T(!new)>(xs: seq<T>, f: T -> int)
    requires forall i :: 0 <= i < |xs| ==> f(xs[i]) >= 0
    ensures Count(xs, f) >= 0
  {
    if xs != [] {
      CountNonNegative(xs[..|xs| - 1], f);
    }
  }

  lemma {:induction false} SumSplit<T(!new)>(xs: seq<T>, f: T -> real, g: T -> real, h: T -> real)
    requires forall x :: f(x) == g(x) + h(x)
    ensures Sum(xs, f) == Sum(xs, g) + Sum(xs, h)
  {
    if xs != [] {
      SumSplit(xs[..|xs| - 1], f, g, h);
    }
  }

  /** The positions where f is 1. */
  function Ones<T>(xs: seq<T>, f: T -> int): set<nat> {
    set i: nat | i < |xs| && f(xs[i]) == 1
  }

  lemma {:induction false} OnesAreCounted<T(!new)>(xs: seq<T>, f: T -> int)
    requires forall i :: 0 <= i < |xs| ==> f(xs[i]) == 0 || f(xs[i]) == 1
    ensures |Ones(xs, f)| == Count(xs, f)
  {
    if xs != [] {
      var n: nat := |xs| - 1;
      OnesAreCounted(xs[..n], f);
      assert forall i :: 0 <= i < n ==> xs[..n][i] == xs[i];
      if f(xs[n]) == 1 {
        assert Ones(xs, f) == Ones(xs[..n], f) + {n};
      } else {
        assert Ones(xs, f) == Ones(xs[..n], f);
      }
    }
  }

  /** A set no larger than one it maps into without collisions. */
  lemma {:induction false} InjectionBound(a: set<nat>, b: set<nat>, f: map<nat, nat>)
    requires forall x :: x in a ==> x in f && f[x] in b
    requires forall x, y :: x in a && y in a && x != y ==> f[x] != f[y]
    ensures |a| <= |b|
    decreases |a|
  {
    if a != {} {
      var x :| x in a;
      InjectionBound(a - {x}, b - {f[x]}, f);
    }
  }
}
