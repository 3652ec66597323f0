/** The sample values the program's entry point builds, and concrete shape and
    bounds failures (a 2 x 3 times a 2 x 2, a 2 x 3 plus a 3 x 2, row 2 of a 2 x 3),
    as facts about the model. */
module Demo {
  import opened Outcomes
  import opened Vectors
  import opened Dense
  import opened Arithmetic

  /** `{{1,2,3},{4,5,6}}.multiply({{1,2},{3,4},{5,6}})` is `{{22,28},{49,64}}`. */
  lemma DemoProduct()
    ensures FromRows([[1.0, 2.0, 3.0], [4.0, 5.0, 6.0]]).Ok?
    ensures FromRows([[1.0, 2.0], [3.0, 4.0], [5.0, 6.0]]).Ok?
    ensures Multiply(FromRows([[1.0, 2.0, 3.0], [4.0, 5.0, 6.0]]).value,
                     FromRows([[1.0, 2.0], [3.0, 4.0], [5.0, 6.0]]).value)
            == Ok(Matrix(2, 2, [[22.0, 28.0], [49.0, 64.0]]))
  {
    var a := FromRows([[1.0, 2.0, 3.0], [4.0, 5.0, 6.0]]).value;
    var b := FromRows([[1.0, 2.0], [3.0, 4.0], [5.0, 6.0]]).value;
    var p := Multiply(a, b).value;
    var c0 := Column(b, 0);
    var c1 := Column(b, 1);
    assert c0 == [1.0, 3.0, 5.0];
    assert c1 == [2.0, 4.0, 6.0];
    assert Dot([1.0, 2.0, 3.0], c0) == 22.0 by { DotOfThree([1.0, 2.0, 3.0], c0); }
    assert Dot([1.0, 2.0, 3.0], c1) == 28.0 by { DotOfThree([1.0, 2.0, 3.0], c1); }
    assert Dot([4.0, 5.0, 6.0], c0) == 49.0 by { DotOfThree([4.0, 5.0, 6.0], c0); }
    assert Dot([4.0, 5.0, 6.0], c1) == 64.0 by { DotOfThree([4.0, 5.0, 6.0], c1); }
    SameEntriesEqual(p, Matrix(2, 2, [[22.0, 28.0], [49.0, 64.0]]));
  }

  /** `{{4,5,6}}.mDot({{1,2,3}})` is 32. */
  lemma DemoDot()
    ensures FromRows([[4.0, 5.0, 6.0]]).Ok? && FromRows([[1.0, 2.0, 3.0]]).Ok?
    ensures MDot(FromRows([[4.0, 5.0, 6.0]]).value, FromRows([[1.0, 2.0, 3.0]]).value) == Ok(32.0)
  {
    DotOfThree([4.0, 5.0, 6.0], [1.0, 2.0, 3.0]);
  }

  /** The left fold written out for length three. */
  lemma DotOfThree(a: seq<real>, b: seq<real>)
    requires |a| == 3 && |b| == 3
    ensures Dot(a, b) == ((0.0 + a[0] * b[0]) + a[1] * b[1]) + a[2] * b[2]
  {
    DotPrefixStep(a, b, 0);
    DotPrefixStep(a, b, 1);
    DotPrefixStep(a, b, 2);
    assert a[..3] == a && b[..3] == b;
  }

  /** A literal whose second row is shorter than its first is rejected. */
  lemma RaggedLiteralRejected()
    ensures FromRows([[1.0, 2.0, 3.0], [4.0, 5.0]]) == Err(DimensionMismatch)
  {
    var init := [[1.0, 2.0, 3.0], [4.0, 5.0]];
    assert |init[1]| != |init[0]|;
  }

  /** A 2 x 3 times a 2 x 2, and a 2 x 3 plus a 3 x 2, are shape errors. */
  lemma ShapeErrors()
    ensures Multiply(Zeros(2, 3), Zeros(2, 2)) == Err(DimensionMismatch)
    ensures Add(Zeros(2, 3), Zeros(3, 2)) == Err(DimensionMismatch)
  {
  }

  /** Row index 2 of a 2 x 3 matrix is out of range, for reads and for writes. */
  lemma RowPastEndRejected(v: real)
    ensures Get(Zeros(2, 3), 2, 0) == Err(IndexOutOfRange)
    ensures Set(Zeros(2, 3), 2, 0, v) == Err(IndexOutOfRange)
  {
  }

  /** `zeros(2, 2) + ones(2, 2) == filled(2, 2, 1.0)`. */
  lemma ZerosPlusOnes()
    ensures Add(Zeros(2, 2), Ones(2, 2)) == Ok(Filled(2, 2, 1.0))
  {
    AddFilled(2, 2, 0.0, 1.0);
  }
}
