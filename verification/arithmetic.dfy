/** The arithmetic of the `Matrix` class: `multiply`, `add`, `mDot` and the two free
    `operator*` overloads. Every operation reads its operands and returns a new value;
    a shape violation yields `DimensionMismatch` and no matrix.
 */
module Arithmetic {
  import opened Outcomes
  import opened Vectors
  import opened Dense

  /** Column `j` of `m`, top to bottom: the entries `m(k, j)` that the innermost
      multiply loop walks through. */
  function Column(m: Matrix, j: nat): (c: seq<real>)
    requires m.Valid() && j < m.cols
    ensures |c| == m.rows
    ensures forall k :: 0 <= k < m.rows ==> c[k] == m.data[k][j]
  {
    seq(m.rows, k requires 0 <= k < m.rows => m.data[k][j])
  }

  /** `a.multiply(b)` (and `a * b`): requires `a.cols == b.rows`; cell `(i, j)` of the
      `a.rows x b.cols` result is the left-fold sum over `k` of `a(i, k) * b(k, j)`. */
  function Multiply(a: Matrix, b: Matrix): (r: Result<Matrix>)
    requires a.Valid() && b.Valid()
    ensures r.Err? <==> a.cols != b.rows
    ensures r.Err? ==> r.error == DimensionMismatch
    ensures r.Ok? ==> && r.value.Valid()
                      && r.value.rows == a.rows
                      && r.value.cols == b.cols
    ensures r.Ok? ==> forall i, j :: 0 <= i < a.rows && 0 <= j < b.cols ==>
                        r.value.data[i][j] == Dot(a.data[i], Column(b, j))
  {
    if a.cols != b.rows then Err(DimensionMismatch)
    else
      Ok(Matrix(a.rows, b.cols,
                seq(a.rows, i requires 0 <= i < a.rows =>
                  seq(b.cols, j requires 0 <= j < b.cols => Dot(a.data[i], Column(b, j))))))
  }

  /** `a.add(b)`: both dimensions must agree; the result is the cellwise sum. */
  function Add(a: Matrix, b: Matrix): (r: Result<Matrix>)
    requires a.Valid() && b.Valid()
    ensures r.Err? <==> a.rows != b.rows || a.cols != b.cols
    ensures r.Err? ==> r.error == DimensionMismatch
    ensures r.Ok? ==> && r.value.Valid()
                      && r.value.rows == a.rows
                      && r.value.cols == a.cols
    ensures r.Ok? ==> forall i, j :: 0 <= i < a.rows && 0 <= j < a.cols ==>
                        r.value.data[i][j] == a.data[i][j] + b.data[i][j]
  {
    if a.cols != b.cols || a.rows != b.rows then Err(DimensionMismatch)
    else
      Ok(Matrix(a.rows, a.cols,
                seq(a.rows, i requires 0 <= i < a.rows =>
                  seq(a.cols, j requires 0 <= j < a.cols => a.data[i][j] + b.data[i][j]))))
  }

  /** `a.mDot(b)`: both operands must be single rows of equal length; the result is
      the left-fold sum of `a(0, i) * b(0, i)`. */
  function MDot(a: Matrix, b: Matrix): (r: Result<real>)
    requires a.Valid() && b.Valid()
    ensures r.Err? <==> a.rows != 1 || b.rows != 1 || a.cols != b.cols
    ensures r.Err? ==> r.error == DimensionMismatch
    ensures r.Ok? ==> r.value == Dot(a.data[0], b.data[0])
  {
    if a.rows != 1 || b.rows != 1 || a.cols != b.cols then Err(DimensionMismatch)
    else Ok(Dot(a.data[0], b.data[0]))
  }

  /** `a * scalar`: same shape, every cell `a(i, j) * scalar`. */
  function Scale(a: Matrix, scalar: real): (m: Matrix)
    requires a.Valid()
    ensures m.Valid() && m.rows == a.rows && m.cols == a.cols
    ensures forall i, j :: 0 <= i < a.rows && 0 <= j < a.cols ==>
              m.data[i][j] == a.data[i][j] * scalar
  {
    Matrix(a.rows, a.cols,
           seq(a.rows, i requires 0 <= i < a.rows =>
             seq(a.cols, j requires 0 <= j < a.cols => a.data[i][j] * scalar)))
  }

  // ---------------------------------------------------------------------------
  // Laws

  /** Row `i` of `identity(n)` is the indicator of position `i`. */
  lemma IdentityRow(n: nat, i: nat)
    requires i < n
    ensures IsIndicator(Identity(n).data[i], i)
  {
  }

  /** Column `j` of `identity(n)` is the indicator of position `j`. */
  lemma IdentityColumn(n: nat, j: nat)
    requires j < n
    ensures IsIndicator(Column(Identity(n), j), j)
  {
  }

  /** `a * identity(a.cols) == a`. */
  lemma MultiplyIdentityRight(a: Matrix)
    requires a.Valid()
    ensures Multiply(a, Identity(a.cols)) == Ok(a)
  {
    var p := Multiply(a, Identity(a.cols)).value;
    forall i, j | 0 <= i < a.rows && 0 <= j < a.cols
      ensures p.data[i][j] == a.data[i][j]
    {
      IdentityColumn(a.cols, j);
      DotIndicatorRight(a.data[i], Column(Identity(a.cols), j), j);
    }
    SameEntriesEqual(p, a);
  }

  /** `identity(a.rows) * a == a`. */
  lemma MultiplyIdentityLeft(a: Matrix)
    requires a.Valid()
    ensures Multiply(Identity(a.rows), a) == Ok(a)
  {
    var p := Multiply(Identity(a.rows), a).value;
    forall i, j | 0 <= i < a.rows && 0 <= j < a.cols
      ensures p.data[i][j] == a.data[i][j]
    {
      IdentityRow(a.rows, i);
      DotIndicatorLeft(Identity(a.rows).data[i], Column(a, j), i);
    }
    SameEntriesEqual(p, a);
  }

  /** Multiplying by a zero matrix of compatible shape gives a zero matrix. */
  lemma MultiplyZerosRight(a: Matrix, c: nat)
    requires a.Valid()
    ensures Multiply(a, Zeros(a.cols, c)) == Ok(Zeros(a.rows, c))
  {
    var z := Zeros(a.cols, c);
    var p := Multiply(a, z).value;
    forall i, j | 0 <= i < a.rows && 0 <= j < c
      ensures p.data[i][j] == 0.0
    {
      assert IsIndicator(Column(z, j), -1);
      DotIndicatorRight(a.data[i], Column(z, j), -1);
    }
    SameEntriesEqual(p, Zeros(a.rows, c));
  }

  /** The zero matrix of the same shape is neutral for `add`. */
  lemma AddZerosLeft(a: Matrix)
    requires a.Valid()
    ensures Add(Zeros(a.rows, a.cols), a) == Ok(a)
  {
    SameEntriesEqual(Add(Zeros(a.rows, a.cols), a).value, a);
  }

  /** `add` does not depend on operand order, including on which shape mismatches. */
  lemma AddCommutative(a: Matrix, b: Matrix)
    requires a.Valid() && b.Valid()
    ensures Add(a, b) == Add(b, a)
  {
    if Add(a, b).Ok? {
      SameEntriesEqual(Add(a, b).value, Add(b, a).value);
    }
  }

  /** Adding two constant matrices of one shape gives the constant matrix of the sum,
      so `zeros(r, c) + ones(r, c) == filled(r, c, 1.0)`. */
  lemma AddFilled(r: nat, c: nat, x: real, y: real)
    ensures Add(Filled(r, c, x), Filled(r, c, y)) == Ok(Filled(r, c, x + y))
  {
    SameEntriesEqual(Add(Filled(r, c, x), Filled(r, c, y)).value, Filled(r, c, x + y));
  }

  /** `mDot` does not depend on operand order. */
  lemma MDotSymmetric(a: Matrix, b: Matrix)
    requires a.Valid() && b.Valid()
    ensures MDot(a, b) == MDot(b, a)
  {
    if MDot(a, b).Ok? {
      DotSymmetric(a.data[0], b.data[0]);
    }
  }

  /** The dot product of two row vectors is the single cell of the 1 x 1 product of
      the first with the second laid out as a column. */
  lemma MDotIsProductWithColumn(a: Matrix, b: Matrix, col: Matrix)
    requires a.Valid() && b.Valid() && col.Valid()
    requires a.rows == 1 && b.rows == 1 && col.cols == 1 && col.rows == b.cols
    requires forall k :: 0 <= k < b.cols ==> col.data[k][0] == b.data[0][k]
    ensures MDot(a, b).Ok? <==> Multiply(a, col).Ok?
    ensures MDot(a, b).Ok? ==> MDot(a, b).value == Multiply(a, col).value.data[0][0]
  {
    if a.cols == b.cols {
      assert Column(col, 0) == b.data[0];
    }
  }

  /** Scaling by 1.0 is the identity. */
  lemma ScaleOne(a: Matrix)
    requires a.Valid()
    ensures Scale(a, 1.0) == a
  {
    SameEntriesEqual(Scale(a, 1.0), a);
  }

  /** Scaling by 0.0 gives the zero matrix of the same shape. */
  lemma ScaleZero(a: Matrix)
    requires a.Valid()
    ensures Scale(a, 0.0) == Zeros(a.rows, a.cols)
  {
    SameEntriesEqual(Scale(a, 0.0), Zeros(a.rows, a.cols));
  }

  /** Scaling twice is scaling once by the product of the scalars. */
  lemma ScaleTwice(a: Matrix, s: real, t: real)
    requires a.Valid()
    ensures Scale(Scale(a, s), t) == Scale(a, s * t)
  {
    SameEntriesEqual(Scale(Scale(a, s), t), Scale(a, s * t));
  }

  /** Adding a matrix to itself is scaling it by 2.0. */
  lemma AddSelfIsDouble(a: Matrix)
    requires a.Valid()
    ensures Add(a, a) == Ok(Scale(a, 2.0))
  {
    SameEntriesEqual(Add(a, a).value, Scale(a, 2.0));
  }
}
