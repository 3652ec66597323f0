/** Storage, construction and element access of the dense `Matrix` class.

    The class keeps its entries as a vector of row vectors together with the two
    dimensions. Every constructor leaves exactly `rows` rows of `cols` entries each;
    that is the `Valid` predicate below, which every operation requires of its
    operands and guarantees of its results. A `Matrix` here is an immutable value:
    an element write returns the updated matrix.
 */
module Dense {
  import opened Outcomes

  datatype Matrix = Matrix(rows: nat, cols: nat, data: seq<seq<real>>) {

    /** The class invariant: `rows` rows, each holding `cols` entries. */
    predicate Valid() {
      && |data| == rows
      && forall i :: 0 <= i < |data| ==> |data[i]| == cols
    }

    /** `(i, j)` names a cell of this matrix. */
    predicate InRange(i: int, j: int) {
      0 <= i < rows && 0 <= j < cols
    }
  }

  /** Two valid matrices of the same shape that agree in every cell are the same value. */
  lemma SameEntriesEqual(m: Matrix, n: Matrix)
    requires m.Valid() && n.Valid() && m.rows == n.rows && m.cols == n.cols
    requires forall i, j :: 0 <= i < m.rows && 0 <= j < m.cols ==> m.data[i][j] == n.data[i][j]
    ensures m == n
  {
    forall i | 0 <= i < m.rows
      ensures m.data[i] == n.data[i]
    {
      assert forall j :: 0 <= j < m.cols ==> m.data[i][j] == n.data[i][j];
    }
  }

  // ---------------------------------------------------------------------------
  // Constructors

  /** `Matrix(r, c, val)`: `r` rows, each `c` copies of `val`. */
  function Constant(r: nat, c: nat, val: real): (m: Matrix)
    ensures m.Valid() && m.rows == r && m.cols == c
    ensures forall i, j :: 0 <= i < r && 0 <= j < c ==> m.data[i][j] == val
  {
    Matrix(r, c, seq(r, _ => seq(c, _ => val)))
  }

  /** `Matrix(r, c)`: the row vectors are built with `std::vector<double>(c)`, whose
      entries are value-initialised, that is 0.0. */
  function Sized(r: nat, c: nat): (m: Matrix)
    ensures m.Valid() && m.rows == r && m.cols == c
    ensures forall i, j :: 0 <= i < r && 0 <= j < c ==> m.data[i][j] == 0.0
  {
    Constant(r, c, 0.0)
  }

  /** The nested-literal constructor. `rows` is the number of inner lists and `cols`
      the length of the first; a later row of another length raises
      `DimensionMismatch`. An empty literal gives the 0 x 0 matrix. */
  function FromRows(init: seq<seq<real>>): (r: Result<Matrix>)
    ensures r.Ok? <==> forall i :: 0 <= i < |init| ==> |init[i]| == |init[0]|
    ensures r.Err? ==> r.error == DimensionMismatch
    ensures r.Ok? ==> && r.value.Valid()
                      && r.value.rows == |init|
                      && r.value.cols == (if |init| == 0 then 0 else |init[0]|)
                      && r.value.data == init
  {
    if |init| == 0 then Ok(Matrix(0, 0, []))
    else if forall i :: 0 <= i < |init| ==> |init[i]| == |init[0]| then
      Ok(Matrix(|init|, |init[0]|, init))
    else Err(DimensionMismatch)
  }

  /** Reading a valid matrix back through the nested-literal constructor rebuilds it
      (a matrix with no rows has no first row to take `cols` from, so it must be 0 x 0). */
  lemma FromRowsOfRows(m: Matrix)
    requires m.Valid() && (m.rows > 0 || m.cols == 0)
    ensures FromRows(m.data) == Ok(m)
  {
  }

  // ---------------------------------------------------------------------------
  // Factories

  /** `zeros(r, c)`: every entry 0.0. */
  function Zeros(r: nat, c: nat): (m: Matrix)
    ensures m.Valid() && m.rows == r && m.cols == c
    ensures forall i, j :: 0 <= i < r && 0 <= j < c ==> m.data[i][j] == 0.0
  {
    Constant(r, c, 0.0)
  }

  /** `ones(r, c)`: every entry 1.0. */
  function Ones(r: nat, c: nat): (m: Matrix)
    ensures m.Valid() && m.rows == r && m.cols == c
    ensures forall i, j :: 0 <= i < r && 0 <= j < c ==> m.data[i][j] == 1.0
  {
    Constant(r, c, 1.0)
  }

  /** `filled(r, c, val)`: every entry `val`. */
  function Filled(r: nat, c: nat, val: real): (m: Matrix)
    ensures m.Valid() && m.rows == r && m.cols == c
    ensures forall i, j :: 0 <= i < r && 0 <= j < c ==> m.data[i][j] == val
  {
    Constant(r, c, val)
  }

  /** The factories are the sized constructors with a fixed fill value, and the
      zero-filled constructor is the value-filled one with 0.0. */
  lemma FactoriesAreConstructors(r: nat, c: nat, val: real)
    ensures Zeros(r, c) == Sized(r, c) == Constant(r, c, 0.0)
    ensures Ones(r, c) == Constant(r, c, 1.0)
    ensures Filled(r, c, val) == Constant(r, c, val)
  {
  }

  /** The matrix `identity(n)` holds after its loop has set the first `k` diagonal
      cells of `zeros(n, n)` to 1.0. */
  function DiagonalUpTo(n: nat, k: nat): (m: Matrix)
    requires k <= n
    ensures m.Valid() && m.rows == n && m.cols == n
    ensures forall i, j :: 0 <= i < n && 0 <= j < n ==>
              m.data[i][j] == (if i == j && i < k then 1.0 else 0.0)
    decreases k
  {
    if k == 0 then Zeros(n, n)
    // the store `m(i, i) = 1.0` is bounds-checked in the source, and always in range
    else Write(DiagonalUpTo(n, k - 1), k - 1, k - 1, 1.0)
  }

  /** `identity(n)`: n x n, 1.0 on the main diagonal and 0.0 elsewhere. */
  function Identity(n: nat): (m: Matrix)
    ensures m.Valid() && m.rows == n && m.cols == n
    ensures forall i, j :: 0 <= i < n && 0 <= j < n ==>
              m.data[i][j] == (if i == j then 1.0 else 0.0)
  {
    DiagonalUpTo(n, n)
  }

  // ---------------------------------------------------------------------------
  // Access

  /** The checked read `operator()(i, j) const`. */
  function Get(m: Matrix, i: int, j: int): (r: Result<real>)
    requires m.Valid()
    ensures r.Ok? <==> m.InRange(i, j)
    ensures r.Ok? ==> r.value == m.data[i][j]
    ensures r.Err? ==> r.error == IndexOutOfRange
  {
    if i < 0 || i >= m.rows || j < 0 || j >= m.cols then Err(IndexOutOfRange)
    else Ok(m.data[i][j])
  }

  /** An unchecked store into cell `(i, j)`, as done through `res[i][j] = ...` or
      through a checked reference whose check has already passed. */
  function Write(m: Matrix, i: nat, j: nat, v: real): (w: Matrix)
    requires m.Valid() && m.InRange(i, j)
    ensures w.Valid() && w.rows == m.rows && w.cols == m.cols
    ensures w.data[i][j] == v
    ensures forall i', j' :: 0 <= i' < m.rows && 0 <= j' < m.cols && (i' != i || j' != j) ==>
              w.data[i'][j'] == m.data[i'][j']
  {
    m.(data := m.data[i := m.data[i][j := v]])
  }

  /** A write through the checked reference `operator()(i, j)`: out of range it
      raises `IndexOutOfRange` and nothing is stored. */
  function Set(m: Matrix, i: int, j: int, v: real): (r: Result<Matrix>)
    requires m.Valid()
    ensures r.Ok? <==> m.InRange(i, j)
    ensures r.Err? ==> r.error == IndexOutOfRange
    ensures r.Ok? ==> r.value.Valid() && r.value.rows == m.rows && r.value.cols == m.cols
  {
    if i < 0 || i >= m.rows || j < 0 || j >= m.cols then Err(IndexOutOfRange)
    else Ok(Write(m, i, j, v))
  }

  /** After a successful checked write, reading the written cell gives the stored
      value and reading any other position, in range or not, gives what it gave
      before the write. */
  lemma SetThenGet(m: Matrix, i: int, j: int, v: real, i': int, j': int)
    requires m.Valid() && Set(m, i, j, v).Ok?
    ensures Get(Set(m, i, j, v).value, i, j) == Ok(v)
    ensures (i' != i || j' != j) ==> Get(Set(m, i, j, v).value, i', j') == Get(m, i', j')
  {
  }

  /** The unchecked row access `operator[](i)`: the row vector, whose entries are
      exactly what the checked accessor reads in that row. */
  function Row(m: Matrix, i: nat): (r: seq<real>)
    requires m.Valid() && i < m.rows
    ensures |r| == m.cols
    ensures forall j :: 0 <= j < m.cols ==> Get(m, i, j) == Ok(r[j])
  {
    m.data[i]
  }
}
