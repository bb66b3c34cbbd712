module Totals {
  /** Sums over sequences, for what the threads of a protocol have between them. */

  ghost function Total<X>(f: X -> nat, xs: seq<X>): nat {
    if xs == [] then 0 else f(xs[0]) + Total(f, xs[1..])
  }

  /** Replacing one element changes the sum by the difference. */
  lemma {:induction false} TotalUpdate<X>(f: X -> nat, xs: seq<X>, i: nat, x: X)
    requires i < |xs|
    ensures Total(f, xs[i := x]) + f(xs[i]) == Total(f, xs) + f(x)
  {
    if i == 0 {
      assert xs[i := x][1..] == xs[1..];
    } else {
      assert xs[i := x][1..] == xs[1..][i - 1 := x];
      TotalUpdate(f, xs[1..], i - 1, x);
    }
  }

  lemma {:induction false} TotalAtLeast<X>(f: X -> nat, xs: seq<X>, i: nat)
    requires i < |xs|
    ensures f(xs[i]) <= Total(f, xs)
  {
    if i > 0 {
      TotalAtLeast(f, xs[1..], i - 1);
    }
  }

  lemma {:induction false} TotalZero<X>(f: X -> nat, xs: seq<X>)
    requires forall i :: 0 <= i < |xs| ==> f(xs[i]) == 0
    ensures Total(f, xs) == 0
  {
    if xs != [] {
      TotalZero(f, xs[1..]);
    }
  }

  /** A positive sum has a positive term. */
  lemma {:induction false} TotalPositive<X>(f: X -> nat, xs: seq<X>)
    requires Total(f, xs) > 0
    ensures exists i :: 0 <= i < |xs| && f(xs[i]) > 0
  {
    if f(xs[0]) == 0 {
      TotalPositive(f, xs[1..]);
      var i :| 0 <= i < |xs[1..]| && f(xs[1..][i]) > 0;
      assert f(xs[i + 1]) > 0;
    }
  }
}
