/** Small helpers of the utilities module: merging option dictionaries, symmetrising a matrix
    and converting a traceless quadrupole between its five spherical components
    (Q20, Q21c, Q21s, Q22c, Q22s) and its 3x3 Cartesian form, in Stone's convention or the
    plain one. */
module Utils {
  import opened Matrices
  import opened Constants

  // ---------------------------------------------------------------- dictionaries

  /** A copy of x updated with y: every key of either, y winning where both have it. */
  function MergeTwoDicts<V>(x: map<string, V>, y: map<string, V>): (z: map<string, V>)
    ensures z.Keys == x.Keys + y.Keys
    ensures forall k :: k in y ==> z[k] == y[k]
    ensures forall k :: k in x && k !in y ==> z[k] == x[k]
  {
    x + y
  }

  /** Merging again with the same update changes nothing, and an empty update is a copy. */
  lemma MergeTwoDictsIdempotent<V>(x: map<string, V>, y: map<string, V>)
    ensures MergeTwoDicts(MergeTwoDicts(x, y), y) == MergeTwoDicts(x, y)
    ensures MergeTwoDicts(x, map[]) == x
  {
    var z := MergeTwoDicts(x, y);
    assert MergeTwoDicts(z, y).Keys == z.Keys;
    assert forall k :: k in z ==> MergeTwoDicts(z, y)[k] == z[k];
    assert MergeTwoDicts(x, map[]).Keys == x.Keys;
  }

  // ---------------------------------------------------------------- symmetrize

  /** a + a^T - diag(a), for a square matrix. */
  function Symmetrize(a: Matrix): (r: Matrix)
    requires Square(a)
    ensures Square(r) && |r| == |a|
  {
    var t := Transpose(a, |a|);
    seq(|a|, i requires 0 <= i < |a| =>
      seq(|a|, j requires 0 <= j < |a| => a[i][j] + t[i][j] - (if i == j then a[i][i] else 0.0)))
  }

  /** The result is symmetric, keeps a's diagonal and adds the mirrored entry off it. */
  lemma SymmetrizeProperties(a: Matrix)
    requires Square(a)
    ensures Symmetric(Symmetrize(a))
    ensures forall i :: 0 <= i < |a| ==> Symmetrize(a)[i][i] == a[i][i]
    ensures forall i, j :: 0 <= i < |a| && 0 <= j < |a| && i != j ==> Symmetrize(a)[i][j] == a[i][j] + a[j][i]
  {
    var r := Symmetrize(a);
    forall i, j | 0 <= i < |a| && 0 <= j < |a|
      ensures r[i][j] == a[i][j] + a[j][i] - (if i == j then a[i][i] else 0.0)
    {
    }
  }

  /** An upper-triangular matrix (zero below the diagonal) is completed to the symmetric
      matrix that agrees with it on and above the diagonal. */
  lemma SymmetrizeUpperTriangular(a: Matrix)
    requires Square(a)
    requires forall i, j :: 0 <= j < i < |a| ==> a[i][j] == 0.0
    ensures forall i, j :: 0 <= i <= j < |a| ==> Symmetrize(a)[i][j] == a[i][j]
    ensures forall i, j :: 0 <= j < i < |a| ==> Symmetrize(a)[i][j] == a[j][i]
  {
    SymmetrizeProperties(a);
  }

  // ---------------------------------------------------------------- quadrupoles

  /** The Cartesian quadrupole of the five spherical components. Stone's convention puts
      Q20 on zz and keeps the trace zero; the other convention halves Q20 and scales every
      other component by 1/(2 sqrt 3). */
  function CartOfSpher(quad: seq<real>, stone: bool): (cart: Matrix)
    requires |quad| >= 5
    ensures IsMatrix(cart, 3, 3)
  {
    if !stone then
      var xy, xz, yz := 0.5 / SQRT_3 * quad[4], 0.5 / SQRT_3 * quad[1], 0.5 / SQRT_3 * quad[2];
      [[0.5 / SQRT_3 * quad[3], xy, xz],
       [xy, -0.5 / SQRT_3 * quad[3], yz],
       [xz, yz, 0.5 * quad[0]]]
    else
      var xy, xz, yz := SQRT_3 * 0.5 * quad[4], SQRT_3 * 0.5 * quad[1], SQRT_3 * 0.5 * quad[2];
      var yy := -0.5 * (SQRT_3 * quad[3] + quad[0]);
      [[SQRT_3 * quad[3] + yy, xy, xz],
       [xy, yy, yz],
       [xz, yz, quad[0]]]
  }

  /** The Cartesian quadrupole, written into a fresh 3x3 array cell by cell. */
  method SpherToCart(quad: seq<real>, stone: bool) returns (cart: array2<real>)
    requires |quad| >= 5
    ensures fresh(cart) && cart.Length0 == 3 && cart.Length1 == 3
    ensures ToMatrix(cart) == CartOfSpher(quad, stone)
  {
    var xx, yy, zz, xy, xz, yz;
    if !stone {
      zz := 0.5 * quad[0];
      xz := 0.5 / SQRT_3 * quad[1];
      yz := 0.5 / SQRT_3 * quad[2];
      xy := 0.5 / SQRT_3 * quad[4];
      yy := -0.5 / SQRT_3 * quad[3];
      xx := 0.5 / SQRT_3 * quad[3];
    } else {
      zz := quad[0];
      xz := SQRT_3 * 0.5 * quad[1];
      yz := SQRT_3 * 0.5 * quad[2];
      xy := SQRT_3 * 0.5 * quad[4];
      yy := -0.5 * (SQRT_3 * quad[3] + quad[0]);
      xx := SQRT_3 * quad[3] + yy;
    }
    assert CartOfSpher(quad, stone) == [[xx, xy, xz], [xy, yy, yz], [xz, yz, zz]];
    cart := new real[3, 3]((_, _) => 0.0);
    cart[2, 2] := zz;
    cart[0, 2] := xz;
    cart[2, 0] := xz;
    cart[1, 2] := yz;
    cart[2, 1] := yz;
    cart[0, 1] := xy;
    cart[1, 0] := xy;
    cart[1, 1] := yy;
    cart[0, 0] := xx;
    ToMatrixOf(cart, [[xx, xy, xz], [xy, yy, yz], [xz, yz, zz]]);
  }

  /** The five spherical components of a 3x3 Cartesian quadrupole. */
  function CartToSpher(cart: Matrix, stone: bool): (spher: seq<real>)
    requires IsMatrix(cart, 3, 3)
    ensures |spher| == 5
  {
    if !stone then
      [2.0 * cart[2][2],
       2.0 * SQRT_3 * cart[0][2],
       2.0 * SQRT_3 * cart[1][2],
       1.0 * SQRT_3 * (cart[0][0] - cart[1][1]),
       2.0 * SQRT_3 * cart[0][1]]
    else
      [cart[2][2],
       2.0 / SQRT_3 * cart[0][2],
       2.0 / SQRT_3 * cart[1][2],
       1.0 / SQRT_3 * (cart[0][0] - cart[1][1]),
       2.0 / SQRT_3 * cart[0][1]]
  }

  /** The Cartesian form is symmetric; in Stone's convention it is also traceless, and in the
      other one its xx and yy entries cancel. */
  lemma CartOfSpherShape(quad: seq<real>, stone: bool)
    requires |quad| >= 5
    ensures Symmetric(CartOfSpher(quad, stone))
    ensures var c := CartOfSpher(quad, stone);
      if stone then c[0][0] + c[1][1] + c[2][2] == 0.0 else c[0][0] + c[1][1] == 0.0
  {
    var c := CartOfSpher(quad, stone);
    assert forall i, j :: 0 <= i < 3 && 0 <= j < 3 ==> c[i][j] == c[j][i];
  }

  /** s * (x / s) == x and (x / s) * s == x for a non-zero s, as multiplications the solver
      keeps apart. */
  lemma Cancel(s: real, x: real)
    requires s != 0.0
    ensures s * (x / s) == x
    ensures (x / s) * s == x
  {}

  /** Converting to Cartesian and back returns the five components, in either convention. */
  lemma SpherRoundTrip(quad: seq<real>, stone: bool)
    requires |quad| >= 5
    ensures CartToSpher(CartOfSpher(quad, stone), stone) == quad[..5]
  {
    var c := CartOfSpher(quad, stone);
    var q := CartToSpher(c, stone);
    var s := SQRT_3;
    if stone {
      Cancel(s, 2.0 * (s * 0.5 * quad[1]));
      assert q[1] == 2.0 / s * (s * 0.5 * quad[1]) == quad[1];
      assert q[2] == 2.0 / s * (s * 0.5 * quad[2]) == quad[2];
      assert q[4] == 2.0 / s * (s * 0.5 * quad[4]) == quad[4];
      assert c[0][0] - c[1][1] == s * quad[3];
      assert q[3] == 1.0 / s * (s * quad[3]) == quad[3];
    } else {
      assert q[1] == 2.0 * s * (0.5 / s * quad[1]) == quad[1];
      assert q[2] == 2.0 * s * (0.5 / s * quad[2]) == quad[2];
      assert q[4] == 2.0 * s * (0.5 / s * quad[4]) == quad[4];
      assert c[0][0] - c[1][1] == 1.0 / s * quad[3];
      assert q[3] == 1.0 * s * (1.0 / s * quad[3]) == quad[3];
    }
    assert q == quad[..5];
  }

  /** Converting a symmetric Cartesian quadrupole to spherical form and back returns it, when
      it lies in the convention's range: traceless for Stone's, xx + yy = 0 for the other. */
  lemma CartRoundTrip(cart: Matrix, stone: bool)
    requires Symmetric(cart) && |cart| == 3
    requires if stone then cart[0][0] + cart[1][1] + cart[2][2] == 0.0 else cart[0][0] + cart[1][1] == 0.0
    ensures CartOfSpher(CartToSpher(cart, stone), stone) == cart
  {
    var c := CartOfSpher(CartToSpher(cart, stone), stone);
    if stone {
      CartRoundTripStone(cart);
    } else {
      CartRoundTripPlain(cart);
    }
    MatrixExtensionality(c, cart, 3, 3);
  }

  /** Stone's convention: every entry of a traceless symmetric matrix comes back. */
  lemma CartRoundTripStone(cart: Matrix)
    requires Symmetric(cart) && |cart| == 3
    requires cart[0][0] + cart[1][1] + cart[2][2] == 0.0
    ensures var c := CartOfSpher(CartToSpher(cart, true), true);
      forall i, j :: 0 <= i < 3 && 0 <= j < 3 ==> c[i][j] == cart[i][j]
  {
    var q := CartToSpher(cart, true);
    var c := CartOfSpher(q, true);
    var s := SQRT_3;
    assert c[0][1] == s * 0.5 * (2.0 / s * cart[0][1]) == cart[0][1];
    assert c[0][2] == s * 0.5 * (2.0 / s * cart[0][2]) == cart[0][2];
    assert c[1][2] == s * 0.5 * (2.0 / s * cart[1][2]) == cart[1][2];
    assert s * q[3] == s * (1.0 / s * (cart[0][0] - cart[1][1])) == cart[0][0] - cart[1][1];
    assert c[1][1] == cart[1][1];
    assert c[0][0] == cart[0][0];
  }

  /** The other convention: every entry of a symmetric matrix with xx + yy = 0 comes back. */
  lemma CartRoundTripPlain(cart: Matrix)
    requires Symmetric(cart) && |cart| == 3
    requires cart[0][0] + cart[1][1] == 0.0
    ensures var c := CartOfSpher(CartToSpher(cart, false), false);
      forall i, j :: 0 <= i < 3 && 0 <= j < 3 ==> c[i][j] == cart[i][j]
  {
    var q := CartToSpher(cart, false);
    var c := CartOfSpher(q, false);
    var s := SQRT_3;
    assert c[0][1] == 0.5 / s * (2.0 * s * cart[0][1]) == cart[0][1];
    assert c[0][2] == 0.5 / s * (2.0 * s * cart[0][2]) == cart[0][2];
    assert c[1][2] == 0.5 / s * (2.0 * s * cart[1][2]) == cart[1][2];
    assert c[0][0] == 0.5 / s * (1.0 * s * (cart[0][0] - cart[1][1])) == cart[0][0];
    assert c[1][1] == -0.5 / s * (1.0 * s * (cart[0][0] - cart[1][1])) == cart[1][1];
  }
}
