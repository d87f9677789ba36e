/** The kernels of the kernel-ridge regression: a Gaussian kernel on the Euclidean distance and
    a Laplacian kernel on the Manhattan (city-block) distance, between the rows of two
    descriptor lists, as scipy's pdist/cdist followed by the exponential compute them. */
module Kernels {
  import opened Results
  import opened Numerics
  import opened Matrices
  import opened Constants
  import opened Geometry

  function Abs(t: real): real { if t < 0.0 then -t else t }

  /** The sum over the coordinates of (a_k - b_k)^2. */
  function SumSq(a: seq<real>, b: seq<real>): real
    requires |a| == |b|
  {
    if |a| == 0 then 0.0 else SumSq(a[..|a| - 1], b[..|b| - 1]) + Sq(a[|a| - 1] - b[|b| - 1])
  }

  /** The sum over the coordinates of |a_k - b_k|. */
  function SumAbs(a: seq<real>, b: seq<real>): real
    requires |a| == |b|
  {
    if |a| == 0 then 0.0 else SumAbs(a[..|a| - 1], b[..|b| - 1]) + Abs(a[|a| - 1] - b[|b| - 1])
  }

  /** The 'euclidean' metric. */
  function Euclidean(a: seq<real>, b: seq<real>, math: Transcendentals): real
    requires |a| == |b|
  {
    math.sqrt(SumSq(a, b))
  }

  /** The 'cityblock' metric. */
  function Cityblock(a: seq<real>, b: seq<real>): real
    requires |a| == |b|
  {
    SumAbs(a, b)
  }

  /** Both sums are symmetric in their arguments and vanish between a vector and itself. */
  lemma {:induction false} SumsSymmetric(a: seq<real>, b: seq<real>)
    requires |a| == |b|
    ensures SumSq(a, b) == SumSq(b, a) && SumAbs(a, b) == SumAbs(b, a)
    ensures SumSq(a, a) == 0.0 && SumAbs(a, a) == 0.0
  {
    if |a| > 0 {
      SumsSymmetric(a[..|a| - 1], b[..|b| - 1]);
      var d := a[|a| - 1] - b[|b| - 1];
      assert Sq(d) == Sq(-d);
    }
  }

  predicate KnownKernel(kernel: string) {
    kernel == "gaussian" || kernel == "laplacian"
  }

  /** k(a, b): exp(-d^2 / (2 sigma^2)) with the Euclidean d for "gaussian", exp(-d / sigma)
      with the city-block d for "laplacian". */
  function KernelValue(kernel: string, sigma: real, a: seq<real>, b: seq<real>, math: Transcendentals): real
    requires KnownKernel(kernel) && |a| == |b| && sigma != 0.0
  {
    PowNonZero(sigma, 2);
    if kernel == "gaussian" then math.exp(-Pow(Euclidean(a, b, math), 2) / (2.0 * Pow(sigma, 2)))
    else math.exp(-Cityblock(a, b) / sigma)
  }

  /** Every row of xs has dim entries. */
  predicate Rows(xs: Matrix, dim: nat) {
    forall i :: 0 <= i < |xs| ==> |xs[i]| == dim
  }

  /** Two non-empty lists of rows that all have one length, as cdist (and pdist, with xs = ys)
      accepts them. */
  predicate Conformable(xs: Matrix, ys: Matrix) {
    |xs| > 0 && |ys| > 0 && Rows(xs, |xs[0]|) && Rows(ys, |xs[0]|)
  }

  /** The kernel between every row of xs and every row of ys: UnknownKernel for a kernel name
      other than gaussian and laplacian, ShapeMismatch for inputs the distance routines refuse,
      ZeroDivision for sigma = 0. */
  function KernelMatrix(kernel: string, sigma: real, xs: Matrix, ys: Matrix, math: Transcendentals): Result<Matrix> {
    if !KnownKernel(kernel) then Err(UnknownKernel(kernel))
    else if !Conformable(xs, ys) then Err(ShapeMismatch)
    else if sigma == 0.0 then Err(ZeroDivision)
    else Ok(seq(|xs|, i requires 0 <= i < |xs| =>
              seq(|ys|, j requires 0 <= j < |ys| => KernelValue(kernel, sigma, xs[i], ys[j], math))))
  }

  /** The kernel matrix exists exactly for a known kernel, conformable rows and a non-zero
      sigma; it then has a row per row of xs and a column per row of ys, entry (i, j) being
      k(xs[i], ys[j]). */
  lemma KernelMatrixProperties(kernel: string, sigma: real, xs: Matrix, ys: Matrix, math: Transcendentals)
    ensures KernelMatrix(kernel, sigma, xs, ys, math).Ok? <==> KnownKernel(kernel) && Conformable(xs, ys) && sigma != 0.0
    ensures KernelMatrix(kernel, sigma, xs, ys, math).Err? ==>
      var e := KernelMatrix(kernel, sigma, xs, ys, math).error;
      (e == UnknownKernel(kernel) <==> !KnownKernel(kernel)) && (e == UnknownKernel(kernel) || e == ShapeMismatch || e == ZeroDivision)
    ensures KernelMatrix(kernel, sigma, xs, ys, math).Ok? ==>
      var k := KernelMatrix(kernel, sigma, xs, ys, math).value;
      IsMatrix(k, |xs|, |ys|) &&
      forall i, j :: 0 <= i < |xs| && 0 <= j < |ys| ==> |xs[i]| == |ys[j]| && k[i][j] == KernelValue(kernel, sigma, xs[i], ys[j], math)
  {}

  /** The distance a metric name of the kernel tables stands for. */
  function Distance(metric: string, a: seq<real>, b: seq<real>, math: Transcendentals): real
    requires |a| == |b|
  {
    if metric == "euclidean" then Euclidean(a, b, math) else Cityblock(a, b)
  }

  /** Each kernel is exp(-d^p / (c sigma^p)) with the metric, prefactor c and power p that the
      ml_metric, ml_prefactor and ml_power tables give for it. */
  lemma KernelFromTables(kernel: string, sigma: real, a: seq<real>, b: seq<real>, math: Transcendentals)
    requires kernel in MlMetric && |a| == |b| && sigma != 0.0
    ensures KnownKernel(kernel)
    ensures MlPrefactor[kernel] * Pow(sigma, MlPower[kernel]) != 0.0
    ensures KernelValue(kernel, sigma, a, b, math) ==
      math.exp(-Pow(Distance(MlMetric[kernel], a, b, math), MlPower[kernel]) / (MlPrefactor[kernel] * Pow(sigma, MlPower[kernel])))
  {
    KernelTables();
    if kernel == "gaussian" {
      PowNonZero(sigma, 2);
    } else {
      LaplacianExponent(Cityblock(a, b), sigma);
    }
  }

  lemma LaplacianExponent(d: real, sigma: real)
    requires sigma != 0.0
    ensures 1.0 * Pow(sigma, 1) != 0.0
    ensures -Pow(d, 1) / (1.0 * Pow(sigma, 1)) == -d / sigma
  {
    assert Pow(d, 1) == d && Pow(sigma, 1) == sigma;
  }

  /** The training kernel (every row against every row) is symmetric. */
  lemma KernelSymmetric(kernel: string, sigma: real, xs: Matrix, math: Transcendentals)
    requires KernelMatrix(kernel, sigma, xs, xs, math).Ok?
    ensures Symmetric(KernelMatrix(kernel, sigma, xs, xs, math).value)
  {
    var k := KernelMatrix(kernel, sigma, xs, xs, math).value;
    forall i, j | 0 <= i < |xs| && 0 <= j < |xs|
      ensures k[i][j] == k[j][i]
    {
      SumsSymmetric(xs[i], xs[j]);
    }
  }

  lemma ZeroQuotient(a: real, b: real)
    requires a == 0.0 && b != 0.0
    ensures a / b == 0.0
  {}

  /** With exp(0) = 1 and sqrt(0) = 0, every row is at distance zero from itself, so the
      diagonal of the training kernel is 1 for both kernels; and every entry is positive. */
  lemma KernelDiagonalAndSign(kernel: string, sigma: real, xs: Matrix, ys: Matrix, math: Transcendentals)
    requires Lawful(math) && KernelMatrix(kernel, sigma, xs, ys, math).Ok?
    ensures forall i, j :: 0 <= i < |xs| && 0 <= j < |ys| ==> KernelMatrix(kernel, sigma, xs, ys, math).value[i][j] > 0.0
    ensures xs == ys ==> forall i :: 0 <= i < |xs| ==> KernelMatrix(kernel, sigma, xs, ys, math).value[i][i] == 1.0
  {
    if xs == ys {
      forall i | 0 <= i < |xs|
        ensures KernelValue(kernel, sigma, xs[i], xs[i], math) == 1.0
      {
        SumsSymmetric(xs[i], xs[i]);
        assert SumSq(xs[i], xs[i]) == 0.0;
        assert Euclidean(xs[i], xs[i], math) == 0.0;
        assert Cityblock(xs[i], xs[i]) == 0.0;
        assert Pow(0.0, 2) == 0.0 by { assert Pow(0.0, 1) == 0.0; }
        PowNonZero(sigma, 2);
        ZeroQuotient(-Pow(Euclidean(xs[i], xs[i], math), 2), 2.0 * Pow(sigma, 2));
        ZeroQuotient(-Cityblock(xs[i], xs[i]), sigma);
      }
    }
  }
}
