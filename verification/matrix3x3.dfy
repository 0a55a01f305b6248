/** `Matrix3x3`: 3x3 matrices for 2-D affine maps, over exact reals. A
    matrix is a record of its nine entries; the constructor validates the
    nested-array form the source takes, and `Values` gives it back. */
module Matrix3x3 {
  import opened Wrappers

  /** Entry `mij` sits in row `i`, column `j`. */
  datatype Matrix = Matrix(
    m00: real, m01: real, m02: real,
    m10: real, m11: real, m12: real,
    m20: real, m21: real, m22: real)

  function Get(m: Matrix, i: nat, j: nat): real
    requires i < 3 && j < 3
  {
    if i == 0 then (if j == 0 then m.m00 else if j == 1 then m.m01 else m.m02)
    else if i == 1 then (if j == 0 then m.m10 else if j == 1 then m.m11 else m.m12)
    else (if j == 0 then m.m20 else if j == 1 then m.m21 else m.m22)
  }

  /** `getValues`: the rows as nested arrays. */
  function Values(m: Matrix): (v: seq<seq<real>>)
    ensures |v| == 3 && forall i :: 0 <= i < 3 ==> |v[i]| == 3
    ensures forall i, j :: 0 <= i < 3 && 0 <= j < 3 ==> v[i][j] == Get(m, i, j)
  {
    [[m.m00, m.m01, m.m02], [m.m10, m.m11, m.m12], [m.m20, m.m21, m.m22]]
  }

  /** The constructor: an error unless there are exactly three rows and no
      row has a length other than three. */
  function Make(values: seq<seq<real>>): (r: Result<Matrix>)
    ensures r.Success? <==> |values| == 3 && !(exists row :: row in values && |row| != 3)
    ensures r.Success? ==> Values(r.value) == values
    ensures r.Failure? ==> r.error == "Matrix must be 3x3."
  {
    if |values| != 3 || exists i :: 0 <= i < |values| && |values[i]| != 3 then
      Failure("Matrix must be 3x3.")
    else
      var m := Matrix(
        values[0][0], values[0][1], values[0][2],
        values[1][0], values[1][1], values[1][2],
        values[2][0], values[2][1], values[2][2]);
      assert Values(m) == values by {
        var v := Values(m);
        assert v[0] == values[0] && v[1] == values[1] && v[2] == values[2];
      }
      Success(m)
  }

  /** Every matrix survives the trip through its nested-array form. */
  lemma MakeValues(m: Matrix)
    ensures Make(Values(m)) == Success(m)
  {
  }

  /** The bottom row is [0, 0, 1]: the matrix is a 2-D affine map. */
  predicate Affine(m: Matrix) {
    m.m20 == 0.0 && m.m21 == 0.0 && m.m22 == 1.0
  }

  /** The image of the point (x, y), taken as (x, y, 1). */
  function Transform(m: Matrix, x: real, y: real): (real, real) {
    (m.m00 * x + m.m01 * y + m.m02, m.m10 * x + m.m11 * y + m.m12)
  }

  function Identity(): (r: Matrix)
    ensures forall i, j :: 0 <= i < 3 && 0 <= j < 3 ==> Get(r, i, j) == (if i == j then 1.0 else 0.0)
    ensures Affine(r)
    ensures forall x, y :: Transform(r, x, y) == (x, y)
  {
    Matrix(1.0, 0.0, 0.0,
           0.0, 1.0, 0.0,
           0.0, 0.0, 1.0)
  }

  function Translation(tx: real, ty: real): (r: Matrix)
    ensures Affine(r)
    ensures forall x, y :: Transform(r, x, y) == (x + tx, y + ty)
  {
    Matrix(1.0, 0.0, tx,
           0.0, 1.0, ty,
           0.0, 0.0, 1.0)
  }

  function Scale(sx: real, sy: real): (r: Matrix)
    ensures Affine(r)
    ensures forall x, y :: Transform(r, x, y) == (sx * x, sy * y)
  {
    var r := Matrix(sx, 0.0, 0.0,
                    0.0, sy, 0.0,
                    0.0, 0.0, 1.0);
    assert forall x, y :: Transform(r, x, y).0 == sx * x && Transform(r, x, y).1 == sy * y;
    r
  }

  /** The sum over k < n of a[i][k] * b[k][j]. */
  function SumProducts(a: Matrix, b: Matrix, i: nat, j: nat, n: nat): real
    requires i < 3 && j < 3 && n <= 3
  {
    if n == 0 then 0.0 else SumProducts(a, b, i, j, n - 1) + Get(a, i, n - 1) * Get(b, n - 1, j)
  }

  /** Entry `[i][j]` of the product as the source's loop body writes it. */
  function Cell(a: Matrix, b: Matrix, i: nat, j: nat): real
    requires i < 3 && j < 3
  {
    Get(a, i, 0) * Get(b, 0, j) + Get(a, i, 1) * Get(b, 1, j) + Get(a, i, 2) * Get(b, 2, j)
  }

  lemma CellIsSum(a: Matrix, b: Matrix, i: nat, j: nat)
    requires i < 3 && j < 3
    ensures Cell(a, b, i, j) == SumProducts(a, b, i, j, 3)
  {
    assert SumProducts(a, b, i, j, 1) == Get(a, i, 0) * Get(b, 0, j);
  }

  /** Row-by-column product; the result is always a valid 3x3 matrix. */
  function Multiply(a: Matrix, b: Matrix): (r: Matrix)
    ensures forall i, j :: 0 <= i < 3 && 0 <= j < 3 ==> Get(r, i, j) == SumProducts(a, b, i, j, 3)
    ensures Make(Values(r)).Success?
  {
    var r := Matrix(
      Cell(a, b, 0, 0), Cell(a, b, 0, 1), Cell(a, b, 0, 2),
      Cell(a, b, 1, 0), Cell(a, b, 1, 1), Cell(a, b, 1, 2),
      Cell(a, b, 2, 0), Cell(a, b, 2, 1), Cell(a, b, 2, 2));
    assert forall i, j :: 0 <= i < 3 && 0 <= j < 3 ==> Get(r, i, j) == Cell(a, b, i, j);
    forall i, j | 0 <= i < 3 && 0 <= j < 3
      ensures Cell(a, b, i, j) == SumProducts(a, b, i, j, 3)
    {
      CellIsSum(a, b, i, j);
    }
    MakeValues(r);
    r
  }

  lemma IdentityNeutral(m: Matrix)
    ensures Multiply(Identity(), m) == m
    ensures Multiply(m, Identity()) == m
  {
  }

  lemma TranslationsCompose(a: real, b: real, c: real, d: real)
    ensures Multiply(Translation(a, b), Translation(c, d)) == Translation(a + c, b + d)
  {
  }

  lemma ScalesCompose(a: real, b: real, c: real, d: real)
    ensures Multiply(Scale(a, b), Scale(c, d)) == Scale(a * c, b * d)
  {
  }

  /** Affine maps are closed under the product. */
  lemma AffineClosed(a: Matrix, b: Matrix)
    requires Affine(a) && Affine(b)
    ensures Affine(Multiply(a, b))
  {
  }

  /** The product of two affine maps applies the right factor first. */
  lemma MultiplyComposes(a: Matrix, b: Matrix, x: real, y: real)
    requires Affine(b)
    ensures Transform(Multiply(a, b), x, y) == Transform(a, Transform(b, x, y).0, Transform(b, x, y).1)
  {
    var r, p := Multiply(a, b), Transform(b, x, y);
    RowComposes(a.m00, a.m01, a.m02, b.m00, b.m01, b.m02, b.m10, b.m11, b.m12, x, y);
    RowComposes(a.m10, a.m11, a.m12, b.m00, b.m01, b.m02, b.m10, b.m11, b.m12, x, y);
    assert Transform(r, x, y).0 == Transform(a, p.0, p.1).0;
    assert Transform(r, x, y).1 == Transform(a, p.0, p.1).1;
  }

  /** One output coordinate of a product whose right factor is affine. */
  lemma RowComposes(a0: real, a1: real, a2: real,
                    b00: real, b01: real, b02: real, b10: real, b11: real, b12: real, x: real, y: real)
    ensures (a0 * b00 + a1 * b10 + a2 * 0.0) * x + (a0 * b01 + a1 * b11 + a2 * 0.0) * y
              + (a0 * b02 + a1 * b12 + a2 * 1.0)
            == a0 * (b00 * x + b01 * y + b02) + a1 * (b10 * x + b11 * y + b12) + a2
  {
  }
}
