/** The loops of the source, step for step, each proved to compute the value the
    corresponding definition in `Dense` or `Arithmetic` describes.

    The cell reads in `multiply` and `mDot` go through the bounds-checked accessor in
    the source; on valid operands those checks always pass, so the loops read the
    rows directly.
 */
module Kernels {
  import opened Outcomes
  import opened Vectors
  import opened Dense
  import opened Arithmetic

  /** The nested-literal constructor's loop: append rows one by one, throwing at the
      first row whose length differs from the first row's. */
  method FromRowsLoop(init: seq<seq<real>>) returns (r: Result<Matrix>)
    ensures r == FromRows(init)
  {
    if |init| == 0 {
      return Ok(Matrix(0, 0, []));
    }
    var cols := |init[0]|;
    var data: seq<seq<real>> := [];
    var k := 0;
    while k < |init|
      invariant 0 <= k <= |init|
      invariant data == init[..k]
      invariant forall i :: 0 <= i < k ==> |init[i]| == cols
    {
      if |init[k]| != cols {
        return Err(DimensionMismatch);
      }
      data := data + [init[k]];
      k := k + 1;
    }
    assert data == init;
    return Ok(Matrix(|init|, cols, data));
  }

  /** `multiply`: a zero result of shape `a.rows x b.cols`, filled cell by cell; the
      innermost loop over `k` accumulates the products left to right. */
  method MultiplyLoop(a: Matrix, b: Matrix) returns (r: Result<Matrix>)
    requires a.Valid() && b.Valid()
    ensures r == Multiply(a, b)
  {
    if a.cols != b.rows {
      return Err(DimensionMismatch);
    }
    var res := Sized(a.rows, b.cols);
    var i := 0;
    while i < a.rows
      invariant 0 <= i <= a.rows
      invariant res.Valid() && res.rows == a.rows && res.cols == b.cols
      invariant forall i', j' :: 0 <= i' < i && 0 <= j' < b.cols ==>
                  res.data[i'][j'] == Dot(a.data[i'], Column(b, j'))
    {
      var j := 0;
      while j < b.cols
        invariant 0 <= j <= b.cols
        invariant res.Valid() && res.rows == a.rows && res.cols == b.cols
        invariant forall i', j' :: 0 <= i' < i && 0 <= j' < b.cols ==>
                    res.data[i'][j'] == Dot(a.data[i'], Column(b, j'))
        invariant forall j' :: 0 <= j' < j ==> res.data[i][j'] == Dot(a.data[i], Column(b, j'))
      {
        var sum := 0.0;
        var k := 0;
        while k < a.cols
          invariant 0 <= k <= a.cols
          invariant sum == Dot(a.data[i][..k], Column(b, j)[..k])
        {
          DotPrefixStep(a.data[i], Column(b, j), k);
          sum := sum + a.data[i][k] * b.data[k][j];
          k := k + 1;
        }
        assert a.data[i][..k] == a.data[i];
        assert Column(b, j)[..k] == Column(b, j);
        res := Write(res, i, j, sum);
        j := j + 1;
      }
      i := i + 1;
    }
    SameEntriesEqual(res, Multiply(a, b).value);
    return Ok(res);
  }

  /** `add`: a zero result of the common shape, each cell overwritten with the sum of
      the operands' cells. */
  method AddLoop(a: Matrix, b: Matrix) returns (r: Result<Matrix>)
    requires a.Valid() && b.Valid()
    ensures r == Add(a, b)
  {
    if a.cols != b.cols || a.rows != b.rows {
      return Err(DimensionMismatch);
    }
    var res := Sized(a.rows, a.cols);
    var i := 0;
    while i < a.rows
      invariant 0 <= i <= a.rows
      invariant res.Valid() && res.rows == a.rows && res.cols == a.cols
      invariant forall i', j' :: 0 <= i' < i && 0 <= j' < a.cols ==>
                  res.data[i'][j'] == a.data[i'][j'] + b.data[i'][j']
    {
      var j := 0;
      while j < a.cols
        invariant 0 <= j <= a.cols
        invariant res.Valid() && res.rows == a.rows && res.cols == a.cols
        invariant forall i', j' :: 0 <= i' < i && 0 <= j' < a.cols ==>
                    res.data[i'][j'] == a.data[i'][j'] + b.data[i'][j']
        invariant forall j' :: 0 <= j' < j ==> res.data[i][j'] == a.data[i][j'] + b.data[i][j']
      {
        res := Write(res, i, j, a.data[i][j] + b.data[i][j]);
        j := j + 1;
      }
      i := i + 1;
    }
    SameEntriesEqual(res, Add(a, b).value);
    return Ok(res);
  }

  /** `mDot`: one accumulator over the shared length of two row vectors. */
  method MDotLoop(a: Matrix, b: Matrix) returns (r: Result<real>)
    requires a.Valid() && b.Valid()
    ensures r == MDot(a, b)
  {
    if a.rows != 1 || b.rows != 1 || a.cols != b.cols {
      return Err(DimensionMismatch);
    }
    var res := 0.0;
    var i := 0;
    while i < a.cols
      invariant 0 <= i <= a.cols
      invariant res == Dot(a.data[0][..i], b.data[0][..i])
    {
      DotPrefixStep(a.data[0], b.data[0], i);
      res := res + a.data[0][i] * b.data[0][i];
      i := i + 1;
    }
    assert a.data[0][..i] == a.data[0];
    assert b.data[0][..i] == b.data[0];
    return Ok(res);
  }

  /** `operator*(A, scalar)`: a zero result of `A`'s shape, each cell overwritten with
      `A(i, j) * scalar`. */
  method ScaleLoop(a: Matrix, scalar: real) returns (m: Matrix)
    requires a.Valid()
    ensures m == Scale(a, scalar)
  {
    var res := Sized(a.rows, a.cols);
    var i := 0;
    while i < a.rows
      invariant 0 <= i <= a.rows
      invariant res.Valid() && res.rows == a.rows && res.cols == a.cols
      invariant forall i', j' :: 0 <= i' < i && 0 <= j' < a.cols ==>
                  res.data[i'][j'] == a.data[i'][j'] * scalar
    {
      var j := 0;
      while j < a.cols
        invariant 0 <= j <= a.cols
        invariant res.Valid() && res.rows == a.rows && res.cols == a.cols
        invariant forall i', j' :: 0 <= i' < i && 0 <= j' < a.cols ==>
                    res.data[i'][j'] == a.data[i'][j'] * scalar
        invariant forall j' :: 0 <= j' < j ==> res.data[i][j'] == a.data[i][j'] * scalar
      {
        res := Write(res, i, j, a.data[i][j] * scalar);
        j := j + 1;
      }
      i := i + 1;
    }
    SameEntriesEqual(res, Scale(a, scalar));
    return res;
  }

  /** `identity(n)`: `zeros(n, n)`, then 1.0 stored on each diagonal cell in turn. */
  method IdentityLoop(n: nat) returns (m: Matrix)
    ensures m == Identity(n)
  {
    m := Zeros(n, n);
    var i := 0;
    while i < n
      invariant 0 <= i <= n
      invariant m.Valid() && m.rows == n && m.cols == n
      invariant forall p, q :: 0 <= p < n && 0 <= q < n ==>
                  m.data[p][q] == (if p == q && p < i then 1.0 else 0.0)
    {
      m := Write(m, i, i, 1.0);
      i := i + 1;
    }
    SameEntriesEqual(m, Identity(n));
  }
}
