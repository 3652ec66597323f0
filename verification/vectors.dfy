/** Sums of pairwise products over sequences of reals.

    Both `multiply` and `mDot` start an accumulator at zero and add one product per
    step, lowest index first. `Dot` is that left fold, so the model keeps the
    source's accumulation order even though over the reals the order is immaterial.
 */
module Vectors {

  /** `((0 + a[0]*b[0]) + a[1]*b[1]) + ... + a[n-1]*b[n-1]`. */
  function Dot(a: seq<real>, b: seq<real>): real
    requires |a| == |b|
    decreases |a|
  {
    if |a| == 0 then 0.0
    else Dot(a[..|a| - 1], b[..|b| - 1]) + a[|a| - 1] * b[|b| - 1]
  }

  /** One more step of the accumulation loop: the fold over the first `k + 1`
      positions is the fold over the first `k` plus the product at `k`. */
  lemma DotPrefixStep(a: seq<real>, b: seq<real>, k: nat)
    requires |a| == |b| && k < |a|
    ensures Dot(a[..k + 1], b[..k + 1]) == Dot(a[..k], b[..k]) + a[k] * b[k]
  {
    assert a[..k + 1][..k] == a[..k];
    assert b[..k + 1][..k] == b[..k];
  }

  /** `e` holds 1.0 at position `j` and 0.0 everywhere else (no 1.0 at all when `j`
      lies outside the sequence). */
  ghost predicate IsIndicator(e: seq<real>, j: int) {
    forall k :: 0 <= k < |e| ==> e[k] == (if k == j then 1.0 else 0.0)
  }

  /** Folding against an indicator picks out one entry, or yields zero when the
      indicator is all zeros. */
  lemma {:induction false} DotIndicatorRight(a: seq<real>, e: seq<real>, j: int)
    requires |a| == |e| && IsIndicator(e, j)
    ensures Dot(a, e) == if 0 <= j < |a| then a[j] else 0.0
    decreases |a|
  {
    if |a| > 0 {
      var n := |a| - 1;
      assert IsIndicator(e[..n], j);
      DotIndicatorRight(a[..n], e[..n], j);
    }
  }

  /** The fold does not depend on which operand comes first. */
  lemma {:induction false} DotSymmetric(a: seq<real>, b: seq<real>)
    requires |a| == |b|
    ensures Dot(a, b) == Dot(b, a)
    decreases |a|
  {
    if |a| > 0 {
      DotSymmetric(a[..|a| - 1], b[..|b| - 1]);
    }
  }

  /** Indicator on the left operand. */
  lemma DotIndicatorLeft(e: seq<real>, b: seq<real>, j: int)
    requires |e| == |b| && IsIndicator(e, j)
    ensures Dot(e, b) == if 0 <= j < |b| then b[j] else 0.0
  {
    DotSymmetric(e, b);
    DotIndicatorRight(b, e, j);
  }
}
