/** Associativity of `multiply` over the reals. With IEEE doubles the two bracketings
    only agree up to rounding; over exact reals they are equal. */
module Algebra {
  import opened Sums
  import opened Dense
  import opened Arithmetic

  /** The shapes for which both `(a * b) * c` and `a * (b * c)` are defined. */
  predicate Chain(a: Matrix, b: Matrix, c: Matrix) {
    a.Valid() && b.Valid() && c.Valid() && a.cols == b.rows && b.cols == c.rows
  }

  /** `(k, l) |-> a(i, k) * b(k, l) * c(l, j)`: the terms both bracketings of cell
      `(i, j)` add up. */
  function TripleTerms(a: Matrix, b: Matrix, c: Matrix, i: nat, j: nat): (nat, nat) -> real
    requires Chain(a, b, c) && i < a.rows && j < c.cols
  {
    (k: nat, l: nat) =>
      if k < a.cols && l < b.cols then a.data[i][k] * b.data[k][l] * c.data[l][j] else 0.0
  }

  /** Cell `(i, j)` of `(a * b) * c` sums the triple terms column of `b` by column. */
  lemma LeftBracketCell(a: Matrix, b: Matrix, c: Matrix, i: nat, j: nat)
    requires Chain(a, b, c) && i < a.rows && j < c.cols
    ensures Multiply(Multiply(a, b).value, c).value.data[i][j]
            == Sum(b.cols, ColSums(a.cols, TripleTerms(a, b, c, i, j)))
  {
    var p := Multiply(a, b).value;
    var g := TripleTerms(a, b, c, i, j);
    DotIsSum(p.data[i], Column(c, j));
    forall l: nat | l < b.cols
      ensures Terms(p.data[i], Column(c, j))(l) == ColSums(a.cols, g)(l)
    {
      DotIsSum(a.data[i], Column(b, l));
      SumScale(a.cols, Terms(a.data[i], Column(b, l)), c.data[l][j], ColOf(g, l));
    }
    SumExt(b.cols, Terms(p.data[i], Column(c, j)), ColSums(a.cols, g));
  }

  /** Cell `(i, j)` of `a * (b * c)` sums the triple terms row of `b` by row. */
  lemma RightBracketCell(a: Matrix, b: Matrix, c: Matrix, i: nat, j: nat)
    requires Chain(a, b, c) && i < a.rows && j < c.cols
    ensures Multiply(a, Multiply(b, c).value).value.data[i][j]
            == Sum(a.cols, RowSums(b.cols, TripleTerms(a, b, c, i, j)))
  {
    var q := Multiply(b, c).value;
    var g := TripleTerms(a, b, c, i, j);
    DotIsSum(a.data[i], Column(q, j));
    forall k: nat | k < a.cols
      ensures Terms(a.data[i], Column(q, j))(k) == RowSums(b.cols, g)(k)
    {
      DotIsSum(b.data[k], Column(c, j));
      SumScale(b.cols, Terms(b.data[k], Column(c, j)), a.data[i][k], RowOf(g, k));
    }
    SumExt(a.cols, Terms(a.data[i], Column(q, j)), RowSums(b.cols, g));
  }

  /** `(a * b) * c == a * (b * c)` whenever the shapes chain. */
  lemma MultiplyAssociative(a: Matrix, b: Matrix, c: Matrix)
    requires Chain(a, b, c)
    ensures Multiply(a, b).Ok? && Multiply(b, c).Ok?
    ensures Multiply(Multiply(a, b).value, c) == Multiply(a, Multiply(b, c).value)
  {
    var left := Multiply(Multiply(a, b).value, c).value;
    var right := Multiply(a, Multiply(b, c).value).value;
    forall i, j | 0 <= i < a.rows && 0 <= j < c.cols
      ensures left.data[i][j] == right.data[i][j]
    {
      LeftBracketCell(a, b, c, i, j);
      RightBracketCell(a, b, c, i, j);
      SumSwap(a.cols, b.cols, TripleTerms(a, b, c, i, j));
    }
    SameEntriesEqual(left, right);
  }
}
