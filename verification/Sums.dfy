/** Finite sums over worker numbers, the bookkeeping device of every counting
    argument about the pool: one step touches one worker, so it changes one term. */
module Sums {

  function SumTo(f: nat -> int, k: nat): int {
    if k == 0 then 0 else SumTo(f, k - 1) + f(k - 1)
  }

  /** Two families that differ at most at v have sums that differ by that one term. */
  lemma {:induction false} SumPointUpdate(f: nat -> int, g: nat -> int, k: nat, v: nat)
    requires v < k
    requires forall w: nat :: w < k && w != v ==> f(w) == g(w)
    ensures SumTo(g, k) == SumTo(f, k) - f(v) + g(v)
  {
    if v == k - 1 {
      SumSame(f, g, k - 1);
    } else {
      SumPointUpdate(f, g, k - 1, v);
    }
  }

  lemma {:induction false} SumSame(f: nat -> int, g: nat -> int, k: nat)
    requires forall w: nat :: w < k ==> f(w) == g(w)
    ensures SumTo(f, k) == SumTo(g, k)
  {
    if k != 0 { SumSame(f, g, k - 1); }
  }

  lemma {:induction false} SumMonotone(f: nat -> int, g: nat -> int, k: nat)
    requires forall w: nat :: w < k ==> f(w) <= g(w)
    ensures SumTo(f, k) <= SumTo(g, k)
  {
    if k != 0 { SumMonotone(f, g, k - 1); }
  }

  lemma {:induction false} SumNonNegative(f: nat -> int, k: nat)
    requires forall w: nat :: w < k ==> f(w) >= 0
    ensures SumTo(f, k) >= 0
    ensures forall w: nat :: w < k ==> f(w) <= SumTo(f, k)
  {
    if k != 0 { SumNonNegative(f, k - 1); }
  }

  lemma {:induction false} SumBounded(f: nat -> int, k: nat, bound: nat)
    requires forall w: nat :: w < k ==> f(w) <= bound
    ensures SumTo(f, k) <= k * bound
  {
    if k != 0 { SumBounded(f, k - 1, bound); }
  }

  /** A positive sum has a positive term. */
  lemma {:induction false} SumPositive(f: nat -> int, k: nat) returns (w: nat)
    requires SumTo(f, k) > 0
    ensures w < k && f(w) > 0
  {
    if f(k - 1) > 0 {
      w := k - 1;
    } else {
      w := SumPositive(f, k - 1);
    }
  }

  /** Two different terms of a non-negative family fit into its sum. */
  lemma SumTwo(f: nat -> int, k: nat, u: nat, v: nat)
    requires u < k && v < k && u != v
    requires forall w: nat :: w < k ==> f(w) >= 0
    ensures f(u) + f(v) <= SumTo(f, k)
  {
    var g := (w: nat) => if w == u then 0 else f(w);
    SumPointUpdate(f, g, k, u);
    SumNonNegative(g, k);
    assert g(v) == f(v);
  }
}
