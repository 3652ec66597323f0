/** Finite sums `f(0) + ... + f(n-1)` of real-valued index functions, accumulated
    left to right, with the rearrangements needed to relate the two ways of
    bracketing a product of three matrices. */
module Sums {
  import opened Vectors

  function Sum(n: nat, f: nat -> real): real
    decreases n
  {
    if n == 0 then 0.0 else Sum(n - 1, f) + f(n - 1)
  }

  /** Sums of functions that agree below `n` agree. */
  lemma {:induction false} SumExt(n: nat, f: nat -> real, g: nat -> real)
    requires forall k: nat :: k < n ==> f(k) == g(k)
    ensures Sum(n, f) == Sum(n, g)
    decreases n
  {
    if n > 0 {
      SumExt(n - 1, f, g);
    }
  }

  /** The sum of a pointwise sum is the sum of the sums. */
  lemma {:induction false} SumAdd(n: nat, f: nat -> real, g: nat -> real, h: nat -> real)
    requires forall k: nat :: k < n ==> h(k) == f(k) + g(k)
    ensures Sum(n, h) == Sum(n, f) + Sum(n, g)
    decreases n
  {
    if n > 0 {
      SumAdd(n - 1, f, g, h);
    }
  }

  /** A common factor comes out of a sum. */
  lemma {:induction false} SumScale(n: nat, f: nat -> real, s: real, h: nat -> real)
    requires forall k: nat :: k < n ==> h(k) == s * f(k)
    ensures Sum(n, h) == s * Sum(n, f)
    decreases n
  {
    if n > 0 {
      SumScale(n - 1, f, s, h);
      assert s * Sum(n, f) == s * Sum(n - 1, f) + s * f(n - 1);
    }
  }

  /** A sum of zeros is zero. */
  lemma {:induction false} SumZero(n: nat, f: nat -> real)
    requires forall k: nat :: k < n ==> f(k) == 0.0
    ensures Sum(n, f) == 0.0
    decreases n
  {
    if n > 0 {
      SumZero(n - 1, f);
    }
  }

  /** Row `k` and column `l` of a two-index function. */
  function RowOf(g: (nat, nat) -> real, k: nat): nat -> real {
    (l: nat) => g(k, l)
  }

  function ColOf(g: (nat, nat) -> real, l: nat): nat -> real {
    (k: nat) => g(k, l)
  }

  /** `k |-> sum over l < m of g(k, l)` and `l |-> sum over k < n of g(k, l)`. */
  function RowSums(m: nat, g: (nat, nat) -> real): nat -> real {
    (k: nat) => Sum(m, RowOf(g, k))
  }

  function ColSums(n: nat, g: (nat, nat) -> real): nat -> real {
    (l: nat) => Sum(n, ColOf(g, l))
  }

  /** A finite double sum may be taken in either order. */
  lemma {:induction false} SumSwap(n: nat, m: nat, g: (nat, nat) -> real)
    ensures Sum(n, RowSums(m, g)) == Sum(m, ColSums(n, g))
    decreases n
  {
    if n == 0 {
      SumZero(m, ColSums(0, g));
    } else {
      SumSwap(n - 1, m, g);
      SumAdd(m, ColSums(n - 1, g), RowOf(g, n - 1), ColSums(n, g));
    }
  }

  /** The k-th product of two sequences, zero past the end of either. */
  function Terms(a: seq<real>, b: seq<real>): nat -> real {
    (k: nat) => if k < |a| && k < |b| then a[k] * b[k] else 0.0
  }

  /** The left fold `Dot` is the sum of the products. */
  lemma {:induction false} DotIsSum(a: seq<real>, b: seq<real>)
    requires |a| == |b|
    ensures Dot(a, b) == Sum(|a|, Terms(a, b))
    decreases |a|
  {
    if |a| > 0 {
      var n := |a| - 1;
      DotIsSum(a[..n], b[..n]);
      SumExt(n, Terms(a[..n], b[..n]), Terms(a, b));
    }
  }
}
