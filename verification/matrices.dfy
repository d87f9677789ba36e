/** Dense real matrices as sequences of rows, the value view of the numpy arrays the source
    fills; sums are folded in row-major order, the order of the source's accumulation loops. */
module Matrices {

  type Matrix = seq<seq<real>>

  /** m has `rows` rows of `cols` entries each. */
  ghost predicate IsMatrix(m: Matrix, rows: nat, cols: nat) {
    |m| == rows && forall i :: 0 <= i < rows ==> |m[i]| == cols
  }

  /** The contents of a two-dimensional array, row by row. */
  function ToMatrix(a: array2<real>): (m: Matrix)
    reads a
    ensures IsMatrix(m, a.Length0, a.Length1)
    ensures forall i, j :: 0 <= i < a.Length0 && 0 <= j < a.Length1 ==> m[i][j] == a[i, j]
  {
    seq(a.Length0, i requires 0 <= i < a.Length0 reads a => seq(a.Length1, j requires 0 <= j < a.Length1 reads a => a[i, j]))
  }

  /** The n-by-m matrix of zeros (numpy.zeros((n, m))). */
  function Zeros(n: nat, m: nat): (z: Matrix)
    ensures IsMatrix(z, n, m)
    ensures forall i, j :: 0 <= i < n && 0 <= j < m ==> z[i][j] == 0.0
  {
    seq(n, _ => seq(m, _ => 0.0))
  }

  /** Sum of a sequence, added from the front. */
  function SeqSum(s: seq<real>): real {
    if |s| == 0 then 0.0 else SeqSum(s[..|s| - 1]) + s[|s| - 1]
  }

  /** Sum of all entries, row after row. */
  function MatrixSum(m: Matrix): real {
    if |m| == 0 then 0.0 else MatrixSum(m[..|m| - 1]) + SeqSum(m[|m| - 1])
  }

  /** Every entry of a row multiplied by k. */
  function ScaleRow(s: seq<real>, k: real): (r: seq<real>)
    ensures |r| == |s|
    ensures forall j :: 0 <= j < |s| ==> r[j] == s[j] * k
  {
    seq(|s|, j requires 0 <= j < |s| => s[j] * k)
  }

  /** Every entry multiplied by k. */
  function Scale(m: Matrix, k: real): (r: Matrix)
    ensures |r| == |m|
    ensures forall i :: 0 <= i < |m| ==> r[i] == ScaleRow(m[i], k)
  {
    seq(|m|, i requires 0 <= i < |m| => ScaleRow(m[i], k))
  }

  lemma {:induction false} SeqSumScale(s: seq<real>, k: real)
    ensures SeqSum(ScaleRow(s, k)) == SeqSum(s) * k
  {
    if |s| > 0 {
      var s' := s[..|s| - 1];
      SeqSumScale(s', k);
      var r, r' := ScaleRow(s, k), ScaleRow(s', k);
      assert forall j :: 0 <= j < |s'| ==> r[..|s| - 1][j] == r'[j];
      assert r[..|s| - 1] == r';
    }
  }

  /** Scaling every entry scales the total: the sum of a matrix converted to other units is the
      converted sum. */
  lemma {:induction false} MatrixSumScale(m: Matrix, k: real)
    ensures MatrixSum(Scale(m, k)) == MatrixSum(m) * k
  {
    if |m| > 0 {
      var m' := m[..|m| - 1];
      MatrixSumScale(m', k);
      assert Scale(m, k)[..|m| - 1] == Scale(m', k);
      SeqSumScale(m[|m| - 1], k);
    }
  }

  lemma {:induction false} SeqSumNonPositive(s: seq<real>)
    requires forall j :: 0 <= j < |s| ==> s[j] <= 0.0
    ensures SeqSum(s) <= 0.0
  {
    if |s| > 0 {
      SeqSumNonPositive(s[..|s| - 1]);
    }
  }

  /** A matrix with no positive entry has no positive total. */
  lemma {:induction false} MatrixSumNonPositive(m: Matrix)
    requires forall i, j :: 0 <= i < |m| && 0 <= j < |m[i]| ==> m[i][j] <= 0.0
    ensures MatrixSum(m) <= 0.0
  {
    if |m| > 0 {
      MatrixSumNonPositive(m[..|m| - 1]);
      SeqSumNonPositive(m[|m| - 1]);
    }
  }

  /** Appending an entry adds it to the sum, as a running total does. */
  lemma SeqSumAppend(s: seq<real>, x: real)
    ensures SeqSum(s + [x]) == SeqSum(s) + x
  {
    assert (s + [x])[..|s|] == s;
  }

  /** Appending a row adds its sum to the total. */
  lemma MatrixSumAppend(m: Matrix, row: seq<real>)
    ensures MatrixSum(m + [row]) == MatrixSum(m) + SeqSum(row)
  {
    assert (m + [row])[..|m|] == m;
  }

  /** The transpose of a matrix of `cols` columns. */
  function Transpose(m: Matrix, cols: nat): (t: Matrix)
    requires IsMatrix(m, |m|, cols)
    ensures IsMatrix(t, cols, |m|)
    ensures forall i, j :: 0 <= i < cols && 0 <= j < |m| ==> t[i][j] == m[j][i]
  {
    seq(cols, i requires 0 <= i < cols => seq(|m|, j requires 0 <= j < |m| => m[j][i]))
  }

  ghost predicate Square(m: Matrix) {
    IsMatrix(m, |m|, |m|)
  }

  ghost predicate Symmetric(m: Matrix) {
    Square(m) && forall i, j :: 0 <= i < |m| && 0 <= j < |m| ==> m[i][j] == m[j][i]
  }

  /** Two matrices of the same shape with the same entries are equal. */
  lemma MatrixExtensionality(m: Matrix, n: Matrix, rows: nat, cols: nat)
    requires IsMatrix(m, rows, cols) && IsMatrix(n, rows, cols)
    requires forall i, j :: 0 <= i < rows && 0 <= j < cols ==> m[i][j] == n[i][j]
    ensures m == n
  {
    forall i | 0 <= i < rows
      ensures m[i] == n[i]
    {
      assert forall j :: 0 <= j < cols ==> m[i][j] == n[i][j];
    }
  }
  /** Transposing twice gives the matrix back. */
  lemma TransposeInvolution(m: Matrix, cols: nat)
    requires IsMatrix(m, |m|, cols)
    ensures Transpose(Transpose(m, cols), |m|) == m
  {
    MatrixExtensionality(Transpose(Transpose(m, cols), |m|), m, |m|, cols);
  }

  /** A square matrix is its own transpose exactly when it is symmetric. */
  lemma TransposeSymmetric(m: Matrix)
    requires Square(m)
    ensures Transpose(m, |m|) == m <==> Symmetric(m)
  {
    if Symmetric(m) {
      MatrixExtensionality(Transpose(m, |m|), m, |m|, |m|);
    }
  }


  /** An array that holds a matrix's entries, cell by cell, is that matrix. */
  lemma ToMatrixOf(a: array2<real>, m: Matrix)
    requires IsMatrix(m, a.Length0, a.Length1)
    requires forall i, j :: 0 <= i < a.Length0 && 0 <= j < a.Length1 ==> a[i, j] == m[i][j]
    ensures ToMatrix(a) == m
  {
    MatrixExtensionality(ToMatrix(a), m, a.Length0, a.Length1);
  }

  // ---------------------------------------------------------------- products

  /** The dot product of two vectors of one length, summed from the front. */
  function Dot(a: seq<real>, b: seq<real>): real
    requires |a| == |b|
  {
    if |a| == 0 then 0.0 else Dot(a[..|a| - 1], b[..|b| - 1]) + a[|a| - 1] * b[|b| - 1]
  }

  /** numpy.dot(m, x) for a matrix and a vector: one dot product per row. */
  function MatVec(m: Matrix, x: seq<real>): (y: seq<real>)
    requires IsMatrix(m, |m|, |x|)
    ensures |y| == |m| && forall i :: 0 <= i < |m| ==> y[i] == Dot(m[i], x)
  {
    seq(|m|, i requires 0 <= i < |m| => Dot(m[i], x))
  }

  /** The entrywise sum of two vectors of one length. */
  function AddVec(x: seq<real>, y: seq<real>): seq<real>
    requires |x| == |y|
  {
    seq(|x|, i requires 0 <= i < |x| => x[i] + y[i])
  }

  /** The dot product is additive in its second argument. */
  lemma {:induction false} DotAdd(a: seq<real>, x: seq<real>, y: seq<real>)
    requires |a| == |x| == |y|
    ensures Dot(a, AddVec(x, y)) == Dot(a, x) + Dot(a, y)
  {
    var n := |a|;
    if n > 0 {
      var s := AddVec(x, y);
      assert s[..n - 1] == AddVec(x[..n - 1], y[..n - 1]);
      DotAdd(a[..n - 1], x[..n - 1], y[..n - 1]);
      assert a[n - 1] * s[n - 1] == a[n - 1] * x[n - 1] + a[n - 1] * y[n - 1];
    }
  }

  /** The dot product is homogeneous in its second argument. */
  lemma {:induction false} DotScale(a: seq<real>, x: seq<real>, k: real)
    requires |a| == |x|
    ensures Dot(a, ScaleRow(x, k)) == Dot(a, x) * k
  {
    var n := |a|;
    if n > 0 {
      var s := ScaleRow(x, k);
      var t := ScaleRow(x[..n - 1], k);
      forall j | 0 <= j < n - 1
        ensures s[..n - 1][j] == t[j]
      {
        assert t[j] == x[..n - 1][j] * k == x[j] * k;
      }
      assert s[..n - 1] == t;
      DotScale(a[..n - 1], x[..n - 1], k);
      assert a[n - 1] * s[n - 1] == (a[n - 1] * x[n - 1]) * k;
      assert (Dot(a[..n - 1], x[..n - 1]) + a[n - 1] * x[n - 1]) * k
          == Dot(a[..n - 1], x[..n - 1]) * k + (a[n - 1] * x[n - 1]) * k;
    }
  }

  /** np.dot(m, x) is linear in x: it maps sums to sums and multiples to multiples. */
  lemma MatVecLinear(m: Matrix, x: seq<real>, y: seq<real>, k: real)
    requires IsMatrix(m, |m|, |x|) && |y| == |x|
    ensures MatVec(m, AddVec(x, y)) == AddVec(MatVec(m, x), MatVec(m, y))
    ensures MatVec(m, ScaleRow(x, k)) == ScaleRow(MatVec(m, x), k)
  {
    forall i | 0 <= i < |m|
      ensures MatVec(m, AddVec(x, y))[i] == AddVec(MatVec(m, x), MatVec(m, y))[i]
      ensures MatVec(m, ScaleRow(x, k))[i] == ScaleRow(MatVec(m, x), k)[i]
    {
      DotAdd(m[i], x, y);
      DotScale(m[i], x, k);
    }
  }

  /** m + krrLambda * identity, for a square matrix m. */
  function AddDiagonal(m: Matrix, krrLambda: real): (r: Matrix)
    requires Square(m)
    ensures Square(r) && |r| == |m|
    ensures forall i, j :: 0 <= i < |m| && 0 <= j < |m| ==> r[i][j] == m[i][j] + (if i == j then krrLambda else 0.0)
  {
    seq(|m|, i requires 0 <= i < |m| => seq(|m|, j requires 0 <= j < |m| => m[i][j] + (if i == j then krrLambda else 0.0)))
  }

  /** Adding krrLambda to entry i of a vector adds krrLambda x_i to its dot product with x. */
  lemma {:induction false} DotBumped(a: seq<real>, b: seq<real>, x: seq<real>, i: nat, krrLambda: real)
    requires |a| == |b| == |x| && i < |a|
    requires forall j :: 0 <= j < |a| ==> b[j] == a[j] + (if i == j then krrLambda else 0.0)
    ensures Dot(b, x) == Dot(a, x) + krrLambda * x[i]
  {
    var n := |a|;
    var a', b', x' := a[..n - 1], b[..n - 1], x[..n - 1];
    if i < n - 1 {
      DotBumped(a', b', x', i, krrLambda);
    } else {
      assert a' == b';
      BumpedProduct(a[n - 1], x[n - 1], krrLambda);
    }
  }

  lemma BumpedProduct(a: real, x: real, krrLambda: real)
    ensures (a + krrLambda) * x == a * x + krrLambda * x
  {}

  /** (m + krrLambda I) x = m x + krrLambda x. */
  lemma MatVecAddDiagonal(m: Matrix, krrLambda: real, x: seq<real>)
    requires Square(m) && |x| == |m|
    ensures forall i :: 0 <= i < |m| ==> MatVec(AddDiagonal(m, krrLambda), x)[i] == MatVec(m, x)[i] + krrLambda * x[i]
  {
    var r := AddDiagonal(m, krrLambda);
    forall i | 0 <= i < |m|
      ensures MatVec(r, x)[i] == MatVec(m, x)[i] + krrLambda * x[i]
    {
      DotBumped(m[i], r[i], x, i, krrLambda);
    }
  }

  /** Adding a multiple of the identity twice adds the sum of the multiples once. */
  lemma AddDiagonalCompose(m: Matrix, a: real, b: real)
    requires Square(m)
    ensures AddDiagonal(AddDiagonal(m, a), b) == AddDiagonal(m, a + b)
  {
    MatrixExtensionality(AddDiagonal(AddDiagonal(m, a), b), AddDiagonal(m, a + b), |m|, |m|);
  }

  /** Adding zero times the identity changes nothing, and the sum keeps a matrix symmetric. */
  lemma AddDiagonalZeroSymmetric(m: Matrix, a: real)
    requires Square(m)
    ensures AddDiagonal(m, 0.0) == m
    ensures Symmetric(m) ==> Symmetric(AddDiagonal(m, a))
  {
    MatrixExtensionality(AddDiagonal(m, 0.0), m, |m|, |m|);
  }
}
