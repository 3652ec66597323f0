# Dense real matrices: a Dafny model

This project models the dense `Matrix` class of the math_library repository
(`main.cpp`). A matrix holds `rows` row vectors of `cols` doubles each. It is built
with a sized constructor, a value-filled constructor, a nested-literal constructor
or one of the factories `zeros`, `ones`, `filled` and `identity`. It is read and
written through the bounds-checked `operator()(i, j)` and the unchecked row access
`operator[](i)`. It is combined with `multiply`, `add`, the row-vector dot product
`mDot`, and the two free `operator*` overloads (matrix times matrix, and matrix
times scalar).

The model is functional. `Dense.Matrix` is an immutable datatype with the class
invariant `Valid()`: exactly `rows` rows of `cols` entries each. Each operation is
a pure function returning `Outcomes.Result`. `DimensionMismatch` stands for the
source's `std::invalid_argument` throws and `IndexOutOfRange` for its
`std::out_of_range` throw. Entries are Dafny `real`s.

The sums in `multiply` and `mDot` are the left fold `Vectors.Dot`, which adds one
product per step, lowest index first, as the loops do. The module `Kernels` repeats
each loop of the source step for step, including the innermost `k` loop of
`multiply` and the per-cell store `res(i, j) = sum`. Each loop is proved to compute
exactly the value the functional definition describes.

Modules:
- `Outcomes` holds the error kinds and the result type.
- `Vectors` holds the left-fold dot product and its indicator and symmetry lemmas.
- `Sums` holds finite sums and the exchange of a double sum.
- `Dense` holds storage, constructors, factories and access.
- `Arithmetic` holds `multiply`, `add`, `mDot`, the scalar product and their laws.
- `Kernels` holds the loops of the source.
- `Algebra` holds associativity of `multiply`.
- `Demo` holds the sample values of the program's entry point and concrete shape and bounds failures.

`nRows()` and `nCols()` are the datatype fields `rows` and `cols`. The free
`operator*(A, B)` (main.cpp:149-151) only calls `A.multiply(B)`, so it is
`Arithmetic.Multiply` itself.

The class stores nested row vectors (main.cpp:14), not a flat buffer. The `Matrix`
of `main.cpp` has no `subtract`, `divide`, `row` view, `size` or `empty`.

## Model

| member | source | states |
|---|---|---|
| Dense.Constant | main.cpp:20-21 | `Matrix(r, c, val)` is a valid r x c matrix with every entry `val` |
| Dense.Sized | main.cpp:18-19 | `Matrix(r, c)` is a valid r x c matrix whose value-initialised entries are all 0.0 |
| Dense.FromRows | main.cpp:31-43 | the literal constructor succeeds exactly when every row is as long as the first; it fails with DimensionMismatch otherwise; on success the matrix is valid, `rows` is the number of rows, `cols` the first row's length, and the data are the given rows |
| Dense.FromRowsOfRows | main.cpp:31-43 | the literal constructor applied to the rows of a valid matrix (0 x 0 if it has no rows) gives that matrix back |
| Dense.Zeros | main.cpp:46-48 | `zeros(r, c)` is a valid r x c matrix of 0.0 |
| Dense.Ones | main.cpp:50-52 | `ones(r, c)` is a valid r x c matrix of 1.0 |
| Dense.Filled | main.cpp:54-56 | `filled(r, c, val)` is a valid r x c matrix of `val` |
| Dense.FactoriesAreConstructors | main.cpp:46-56 | `zeros`, `ones` and `filled` are the value-filled constructor with 0.0, 1.0 and `val`; the zero-filled constructor equals `zeros` |
| Dense.DiagonalUpTo | main.cpp:59-62 | after `k` rounds of the identity loop over `zeros(n, n)`, the first `k` diagonal cells are 1.0 and every other cell is 0.0 |
| Dense.Identity | main.cpp:58-64 | `identity(n)` is n x n with 1.0 where i == j and 0.0 elsewhere |
| Dense.Get | main.cpp:75-78 | the checked read succeeds exactly when 0 <= i < rows and 0 <= j < cols and returns that cell; otherwise it fails with IndexOutOfRange |
| Dense.Set | main.cpp:70-73 | a write through the checked reference succeeds exactly for in-range indices and keeps the shape and validity; otherwise it fails with IndexOutOfRange |
| Dense.SetThenGet | main.cpp:70-78 | after a successful checked write, the written cell reads back the stored value and every other position, in range or not, reads as before |
| Dense.Write | main.cpp:80-82 | an unchecked store through a row reference changes the addressed cell and no other, and keeps the shape |
| Dense.Row | main.cpp:84-86 | the unchecked row access returns a `cols`-long row whose entries are what the checked accessor reads in that row |
| Arithmetic.Column | main.cpp:103-105 | the entries `m(k, j)` the innermost multiply loop reads, top to bottom |
| Arithmetic.Multiply | main.cpp:97-110 | `multiply` fails with DimensionMismatch exactly when `a.cols != b.rows`; otherwise the result is a valid `a.rows x b.cols` matrix whose cell (i, j) is the left-fold sum over k of `a(i, k) * b(k, j)` |
| Arithmetic.Add | main.cpp:112-123 | `add` fails with DimensionMismatch unless both dimensions agree; otherwise the result has the common shape and cell (i, j) is `a[i][j] + b[i][j]` |
| Arithmetic.MDot | main.cpp:126-134 | `mDot` fails with DimensionMismatch unless both operands are single rows of equal length; otherwise it is the left-fold sum of `a(0, i) * b(0, i)` |
| Arithmetic.Scale | main.cpp:153-163 | matrix times scalar keeps the shape and multiplies every cell by the scalar |
| Arithmetic.MultiplyIdentityRight | main.cpp:97-110 | `a * identity(a.cols) == a` for every valid `a` |
| Arithmetic.MultiplyIdentityLeft | main.cpp:97-110 | `identity(a.rows) * a == a` for every valid `a` |
| Arithmetic.MultiplyZerosRight | main.cpp:97-110 | `a * zeros(a.cols, c) == zeros(a.rows, c)` |
| Arithmetic.AddZerosLeft | main.cpp:112-123 | `zeros(r, c) + a == a` for every valid r x c `a` |
| Arithmetic.AddCommutative | main.cpp:112-123 | `add` gives the same outcome, value or error, in either operand order |
| Arithmetic.AddFilled | main.cpp:112-123 | `filled(r, c, x) + filled(r, c, y) == filled(r, c, x + y)` |
| Arithmetic.MDotSymmetric | main.cpp:126-134 | `mDot` gives the same outcome in either operand order |
| Arithmetic.MDotIsProductWithColumn | main.cpp:126-134 | `mDot` of two row vectors succeeds exactly when `multiply` of the first by the second laid out as a column succeeds, and equals the single cell of that product |
| Arithmetic.ScaleOne | main.cpp:153-163 | scaling by 1.0 returns the matrix unchanged |
| Arithmetic.ScaleZero | main.cpp:153-163 | scaling by 0.0 gives the zero matrix of the same shape |
| Arithmetic.ScaleTwice | main.cpp:153-163 | scaling by `s` then `t` equals scaling by `s * t` |
| Arithmetic.AddSelfIsDouble | main.cpp:112-123 | `a + a` equals `a` scaled by 2.0 |
| Kernels.FromRowsLoop | main.cpp:31-43 | the row-appending loop with its length check computes exactly the literal constructor's outcome |
| Kernels.MultiplyLoop | main.cpp:97-110 | the triple loop with `k` innermost, accumulating into `sum` and storing `res(i, j)`, computes exactly `Multiply`, error included |
| Kernels.AddLoop | main.cpp:112-123 | the double loop storing `res[i][j]` computes exactly `Add`, error included |
| Kernels.MDotLoop | main.cpp:126-134 | the accumulation loop computes exactly `MDot`, error included |
| Kernels.ScaleLoop | main.cpp:153-163 | the double loop storing `result(i, j)` computes exactly `Scale` |
| Kernels.IdentityLoop | main.cpp:58-64 | `zeros(n, n)` with 1.0 stored on each diagonal cell in turn is exactly `Identity(n)` |
| Algebra.MultiplyAssociative | main.cpp:97-110 | for chaining shapes, `(a * b) * c == a * (b * c)` exactly over the reals |
| Demo.DemoProduct | main.cpp:168-180 | `{{1,2,3},{4,5,6}}.multiply({{1,2},{3,4},{5,6}})` is `{{22,28},{49,64}}` |
| Demo.DemoDot | main.cpp:178-181 | `{{4,5,6}}.mDot({{1,2,3}})` is 32 |
| Demo.DotOfThree | main.cpp:128-133 | the accumulation over three positions is `((0 + a0*b0) + a1*b1) + a2*b2` |
| Demo.RaggedLiteralRejected | main.cpp:37-39 | the literal `{{1,2,3},{4,5}}` fails with DimensionMismatch |
| Demo.ShapeErrors | main.cpp:97-113 | a 2 x 3 times a 2 x 2, and a 2 x 3 plus a 3 x 2, fail with DimensionMismatch |
| Demo.RowPastEndRejected | main.cpp:70-78 | reading or writing (2, 0) of a 2 x 3 matrix fails with IndexOutOfRange |
| Demo.ZerosPlusOnes | main.cpp:46-52 | `zeros(2, 2) + ones(2, 2) == filled(2, 2, 1.0)` |

## Left out

- `print()` (main.cpp:139-146) and the console output of `main()` (main.cpp:182-188) are I/O. The sample matrices of `main()` appear only as the `Demo` lemmas.
- `matrix.cpp` declares a flat-buffer variant with `subtract`, `operator/`, `row` spans, `size` and `empty`. It has no bodies, so there is no behaviour to model.
- IEEE double arithmetic is not modelled: rounding, NaN and infinity, and the numerical effect of summation order. Entries are exact reals. `Dot` still adds in the source's order, but over the reals that order makes no difference.
- Dimensions are `nat`. In the source a negative `int` dimension, passed to a sized constructor or to `zeros`, `ones`, `filled` or `identity` (main.cpp:18-21, main.cpp:46-64), converts to a huge `size_t` and makes `std::vector` throw `std::length_error` (or an allocation failure), a third error kind. Typing dimensions as `nat` drops that error. 32-bit overflow of `int` indices and dimensions is not modelled either.
- Element indices are `int`, so the negative-index branch of the checked accessor is modelled. The unchecked row access requires `i < rows`, because an out-of-range index is undefined behaviour in the source.
- An empty nested literal is undefined behaviour in the source, since it reads the size of the first row of an empty list. `Dense.FromRows` maps it to the 0 x 0 matrix.
- The mutable `operator[]` hands out a reference to the row vector, through which a caller could also resize the row and break the class invariant. `Dense.Row` covers reads of the row and stores into one cell (`Dense.Write`), not resizing.
- The source's `operator*(const Matrix&, double)` fills `result` but flows off its end without a `return` statement (main.cpp:163), so every call to it is undefined behaviour. `Arithmetic.Scale` returns the filled `result`, the evidently intended value.
- The messages carried by the exceptions are not modelled, only their kind.
- Copying, ownership and aliasing of the row storage are not modelled. Matrices are immutable values, so no two of them can share storage.
- The commented-out `FastMatrix` stub (main.cpp:6-8) has no behaviour.
