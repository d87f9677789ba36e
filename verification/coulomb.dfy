/** The Coulomb-matrix descriptor of an atom's environment. The atoms are reordered (around a
    central atom, or around the centre of mass), a max_neighbors x max_neighbors matrix holds
    Z_i Z_j / |r_i - r_j| off the diagonal and 0.5 Z_i^2.4 on it for the first atoms, every row
    and column past the molecule's atoms is zero, and the descriptor is the upper triangle,
    diagonal included, read row by row. */
module Coulomb {
  import opened Results
  import opened Geometry
  import opened Numerics
  import opened Matrices
  import opened Constants
  import opened Folds
  import opened Sorting
  import opened Labels
  import opened Reorder

  function Min(a: nat, b: nat): nat {
    if a < b then a else b
  }

  // ---------------------------------------------------------------- the upper triangle

  /** The position where row i of the upper triangle of an m x m matrix starts: the number of
      entries on and above the diagonal in the rows before it. */
  function RowStart(i: nat, m: nat): nat
    requires i <= m
  {
    if i == 0 then 0 else RowStart(i - 1, m) + (m - (i - 1))
  }

  /** The position of entry (i, j), i <= j, in the upper triangle read row by row. */
  function Position(i: nat, j: nat, m: nat): nat
    requires i <= j < m
  {
    RowStart(i, m) + (j - i)
  }

  /** Rows r.. of the upper triangle, each from its diagonal entry to its end. */
  function TriangleFrom(a: Matrix, m: nat, r: nat): seq<real>
    requires IsMatrix(a, m, m) && r <= m
    decreases m - r
  {
    if r == m then [] else a[r][r..] + TriangleFrom(a, m, r + 1)
  }

  /** a[np.triu_indices(m)]: the entries on and above the diagonal in row-major order. */
  function UpperTriangle(a: Matrix, m: nat): seq<real>
    requires IsMatrix(a, m, m)
  {
    TriangleFrom(a, m, 0)
  }

  /** Rows i.. start at most where the later rows do, and row i holds m - i entries. */
  lemma {:induction false} RowStartMonotone(i: nat, j: nat, m: nat)
    requires i <= j <= m
    ensures RowStart(i, m) + (if i < j then m - i else 0) <= RowStart(j, m)
    decreases j - i
  {
    if i < j {
      if i + 1 < j {
        RowStartMonotone(i + 1, j, m);
      }
    }
  }

  /** 2 RowStart(i, m) = i (2m - i + 1), so the whole triangle holds m (m + 1) / 2 entries. */
  lemma {:induction false} RowStartClosedForm(i: nat, m: nat)
    requires i <= m
    ensures 2 * RowStart(i, m) == i * (2 * m - i + 1)
  {
    if i > 0 {
      RowStartClosedForm(i - 1, m);
      assert 2 * RowStart(i, m) == (i - 1) * (2 * m - i + 2) + 2 * (m - i + 1);
    }
  }

  /** The whole triangle of an m x m matrix holds m (m + 1) / 2 entries. */
  lemma TriangleSize(m: nat)
    ensures 2 * RowStart(m, m) == m * (m + 1)
  {
    RowStartClosedForm(m, m);
    var t := 2 * m - m + 1;
    assert t == m + 1;
  }

  lemma {:induction false} TriangleFromLength(a: Matrix, m: nat, r: nat)
    requires IsMatrix(a, m, m) && r <= m
    ensures |TriangleFrom(a, m, r)| == RowStart(m, m) - RowStart(r, m)
    decreases m - r
  {
    if r < m {
      TriangleFromLength(a, m, r + 1);
      RowStartMonotone(r + 1, m, m);
    }
  }

  lemma {:induction false} TriangleFromEntry(a: Matrix, m: nat, r: nat, i: nat, j: nat)
    requires IsMatrix(a, m, m) && r <= i <= j < m
    ensures RowStart(r, m) <= RowStart(i, m)
    ensures RowStart(i, m) - RowStart(r, m) + (j - i) < |TriangleFrom(a, m, r)| &&
      TriangleFrom(a, m, r)[RowStart(i, m) - RowStart(r, m) + (j - i)] == a[i][j]
    decreases i - r
  {
    RowStartMonotone(r, i, m);
    var head, tail := a[r][r..], TriangleFrom(a, m, r + 1);
    assert TriangleFrom(a, m, r) == head + tail;
    assert |head| == m - r;
    if r == i {
      assert head[j - i] == a[i][j];
    } else {
      TriangleFromEntry(a, m, r + 1, i, j);
      RowStartMonotone(r + 1, i, m);
      assert RowStart(r + 1, m) - RowStart(r, m) == |head|;
      var k := RowStart(i, m) - RowStart(r + 1, m) + (j - i);
      assert RowStart(i, m) - RowStart(r, m) + (j - i) == |head| + k;
      assert (head + tail)[|head| + k] == tail[k];
    }
  }

  /** The upper triangle has m (m + 1) / 2 entries, and entry (i, j), i <= j, sits at position
      Position(i, j, m): row i's entries follow those of the rows before it. */
  lemma UpperTriangleProperties(a: Matrix, m: nat)
    requires IsMatrix(a, m, m)
    ensures 2 * |UpperTriangle(a, m)| == m * (m + 1)
    ensures forall i, j :: 0 <= i <= j < m ==>
      Position(i, j, m) < |UpperTriangle(a, m)| && UpperTriangle(a, m)[Position(i, j, m)] == a[i][j]
  {
    TriangleFromLength(a, m, 0);
    TriangleSize(m);
    forall i, j | 0 <= i <= j < m
      ensures Position(i, j, m) < |UpperTriangle(a, m)| && UpperTriangle(a, m)[Position(i, j, m)] == a[i][j]
    {
      TriangleFromEntry(a, m, 0, i, j);
      assert RowStart(0, m) == 0 && UpperTriangle(a, m) == TriangleFrom(a, m, 0);
    }
  }

  // ---------------------------------------------------------------- the matrix

  /** Z.resize(m): the atomic numbers as reals, cut or padded with zeros to m entries. */
  function Resized(z: seq<nat>, m: nat): (zr: seq<real>)
    ensures |zr| == m
    ensures forall i :: 0 <= i < m ==> zr[i] == if i < |z| then z[i] as real else 0.0
  {
    seq(m, i requires 0 <= i < m => if i < |z| then z[i] as real else 0.0)
  }

  /** Cutting is a prefix: resizing to m and keeping the first m' <= m entries is resizing to m'. */
  lemma ResizedPrefix(z: seq<nat>, m: nat, m': nat)
    requires m' <= m
    ensures Resized(z, m)[..m'] == Resized(z, m')
  {
    assert forall i :: 0 <= i < m' ==> Resized(z, m)[..m'][i] == Resized(z, m')[i];
  }

  /** Padding appends zeros: resizing to m >= |z| gives every atomic number, in order, then
      m - |z| zeros. */
  lemma ResizedPadding(z: seq<nat>, m: nat)
    requires |z| <= m
    ensures Resized(z, m) == seq(|z|, i requires 0 <= i < |z| => z[i] as real) + seq(m - |z|, _ => 0.0)
  {
    var p := seq(|z|, i requires 0 <= i < |z| => z[i] as real) + seq(m - |z|, _ => 0.0);
    assert forall i :: 0 <= i < m ==> Resized(z, m)[i] == p[i];
  }

  /** The distance of rows i and j: the square root of the coordinate-wise sum of squares. */
  function Dist(rows: seq<Vec3>, i: nat, j: nat, math: Transcendentals): real
    requires i < |rows| && j < |rows|
  {
    math.sqrt(SqDist(rows[i], rows[j]))
  }

  /** Two different atoms among the first k are at distance zero, and the source divides by
      that distance. */
  predicate Coincident(rows: seq<Vec3>, k: nat, math: Transcendentals)
    requires k <= |rows|
  {
    exists i, j :: 0 <= i < k && 0 <= j < k && i != j && Dist(rows, i, j, math) == 0.0
  }

  /** Entry (i, j) for two atoms: 0.5 Z_i^2.4 on the diagonal, Z_i Z_j / distance off it. */
  function CoulombEntry(rows: seq<Vec3>, z: seq<real>, i: nat, j: nat, math: Transcendentals): real
    requires i < |rows| && j < |rows| && |z| == |rows|
    requires i != j ==> Dist(rows, i, j, math) != 0.0
  {
    if i == j then 0.5 * math.pow24(z[i]) else z[i] * z[j] / Dist(rows, i, j, math)
  }

  /** The full matrix over the m rows: Coulomb entries among the first min(n, m) atoms, zero in
      every row and column from n on. */
  function CoulombMatrix(rows: seq<Vec3>, z: seq<real>, n: nat, math: Transcendentals): (c: Matrix)
    requires |z| == |rows| && !Coincident(rows, Min(n, |rows|), math)
    ensures IsMatrix(c, |rows|, |rows|)
  {
    var m, k := |rows|, Min(n, |rows|);
    seq(m, i requires 0 <= i < m =>
      seq(m, j requires 0 <= j < m => if i < k && j < k then CoulombEntry(rows, z, i, j, math) else 0.0))
  }

  /** The matrix is symmetric, its diagonal holds 0.5 Z_i^2.4 for the atoms, and every row and
      column past the n atoms is zero. */
  lemma CoulombMatrixProperties(rows: seq<Vec3>, z: seq<real>, n: nat, math: Transcendentals)
    requires |z| == |rows| && !Coincident(rows, Min(n, |rows|), math)
    ensures Symmetric(CoulombMatrix(rows, z, n, math))
    ensures forall i :: 0 <= i < n && i < |rows| ==> CoulombMatrix(rows, z, n, math)[i][i] == 0.5 * math.pow24(z[i])
    ensures forall i, j :: 0 <= i < |rows| && 0 <= j < |rows| && (i >= n || j >= n) ==>
      CoulombMatrix(rows, z, n, math)[i][j] == 0.0
  {
    var c := CoulombMatrix(rows, z, n, math);
    var k := Min(n, |rows|);
    forall i, j | 0 <= i < k && 0 <= j < k && i != j
      ensures c[i][j] == c[j][i]
    {
      SqDistProperties(rows[i], rows[j]);
      assert Dist(rows, i, j, math) == Dist(rows, j, i, math);
      assert z[i] * z[j] == z[j] * z[i];
    }
  }

  /** The descriptor from the reordered rows and types: the atomic numbers of the n atoms,
      resized to the row count, the matrix, then its upper triangle. */
  function CoulombFromOrdered(cartOrd: seq<Vec3>, typOrd: seq<string>, n: nat, math: Transcendentals): Result<seq<real>> {
    var z :- AtomicNumbers(n, typOrd);
    var zr := Resized(z, |cartOrd|);
    if Coincident(cartOrd, Min(n, |cartOrd|), math) then Err(ZeroDivision)
    else Ok(UpperTriangle(CoulombMatrix(cartOrd, zr, n, math), |cartOrd|))
  }

  /** The descriptor exists exactly when every atom's type is known and no two of the first
      atoms coincide; it then has m (m + 1) / 2 entries, entry (i, j) of the upper triangle at
      its row-major position, zero past the atoms. */
  lemma CoulombFromOrderedProperties(cartOrd: seq<Vec3>, typOrd: seq<string>, n: nat, math: Transcendentals)
    ensures CoulombFromOrdered(cartOrd, typOrd, n, math).Ok? <==>
      AtomicNumbers(n, typOrd).Ok? && !Coincident(cartOrd, Min(n, |cartOrd|), math)
    ensures CoulombFromOrdered(cartOrd, typOrd, n, math).Err? ==>
      CoulombFromOrdered(cartOrd, typOrd, n, math).error == ZeroDivision || AtomicNumbers(n, typOrd).Err?
    ensures CoulombFromOrdered(cartOrd, typOrd, n, math).Ok? ==>
      var d := CoulombFromOrdered(cartOrd, typOrd, n, math).value;
      var m, zr := |cartOrd|, Resized(AtomicNumbers(n, typOrd).value, |cartOrd|);
      && 2 * |d| == m * (m + 1)
      && forall i, j :: 0 <= i <= j < m ==>
           Position(i, j, m) < |d| &&
           d[Position(i, j, m)] == if j < n then CoulombEntry(cartOrd, zr, i, j, math) else 0.0
  {
    var m := |cartOrd|;
    var zr := AtomicNumbers(n, typOrd);
    var r := CoulombFromOrdered(cartOrd, typOrd, n, math);
    if zr.Err? {
      assert r == Err(zr.error);
    } else if Coincident(cartOrd, Min(n, m), math) {
      assert r == Err(ZeroDivision);
    } else {
      var z := Resized(zr.value, m);
      var c := CoulombMatrix(cartOrd, z, n, math);
      assert r == Ok(UpperTriangle(c, m));
      UpperTriangleProperties(c, m);
      CoulombMatrixProperties(cartOrd, z, n, math);
    }
  }

  // ---------------------------------------------------------------- the centre of mass

  /** The weight lookups, one per element. */
  function WeightLookups(elements: seq<string>): (items: seq<Result<real>>)
    ensures |items| == |elements| && forall i :: 0 <= i < |elements| ==> items[i] == Lookup(AtomicWeight, elements[i])
  {
    seq(|elements|, i requires 0 <= i < |elements| => Lookup(AtomicWeight, elements[i]))
  }

  /** The atomic weight of every element, in order; KeyError at the first unknown one. */
  function Masses(elements: seq<string>): (r: Result<seq<real>>)
    ensures r.Ok? <==> forall i :: 0 <= i < |elements| ==> elements[i] in AtomicWeight
    ensures r.Ok? ==> |r.value| == |elements|
    ensures r.Ok? ==> forall i :: 0 <= i < |elements| ==> r.value[i] == AtomicWeight[elements[i]]
    ensures r.Err? ==> r.error.KeyError? && r.error.key !in AtomicWeight
  {
    var items := WeightLookups(elements);
    CollectCharacterized(None, items, |elements|);
    CollectErrorFromItem(items, |elements|);
    Collect(None, items, |elements|)
  }

  /** The sum of the first k masses. */
  function MassSum(masses: seq<real>, k: nat): real
    requires k <= |masses|
  {
    if k == 0 then 0.0 else MassSum(masses, k - 1) + masses[k - 1]
  }

  /** One coordinate of every position (a column of the coordinate array). */
  function Column(coords: seq<Vec3>, c: nat): (xs: seq<real>)
    requires c < 3
    ensures |xs| == |coords| && forall i :: 0 <= i < |coords| ==> xs[i] == Component(coords[i], c)
  {
    seq(|coords|, i requires 0 <= i < |coords| => Component(coords[i], c))
  }

  /** The sum of m_i x_i over the first k pairs of one coordinate column. */
  function Moment(masses: seq<real>, xs: seq<real>, k: nat): real
    requires k <= |masses| && k <= |xs|
  {
    if k == 0 then 0.0 else Moment(masses, xs, k - 1) + masses[k - 1] * xs[k - 1]
  }

  /** Every atomic weight is positive, so a non-empty list of them has a positive sum. */
  lemma {:induction false} MassSumPositive(elements: seq<string>, masses: seq<real>, k: nat)
    requires 0 < k <= |masses| == |elements|
    requires forall i :: 0 <= i < |elements| ==> elements[i] in AtomicWeight && masses[i] == AtomicWeight[elements[i]]
    ensures MassSum(masses, k) > 0.0
  {
    AtomicTables();
    assert masses[k - 1] > 0.0;
    if k > 1 {
      MassSumPositive(elements, masses, k - 1);
    }
  }

  /** sum m_i c_i / sum m_i, summed column by column over the pairs that zip forms (it stops
      at the shorter list). */
  function WeightedCenter(masses: seq<real>, coords: seq<Vec3>): Vec3
    requires MassSum(masses, |masses|) > 0.0
  {
    var k, total := Min(|masses|, |coords|), MassSum(masses, |masses|);
    Vec3(Moment(masses, Column(coords, 0), k) / total,
         Moment(masses, Column(coords, 1), k) / total,
         Moment(masses, Column(coords, 2), k) / total)
  }

  /** The centre of mass of the atoms, weighted by the atomic weights of their elements. When
      no (mass, position) pair exists the weighted sum is numpy's scalar 0.0, and indexing it
      fails with IndexError. */
  function CenterOfMass(coords: seq<Vec3>, elements: seq<string>): (r: Result<Vec3>)
    ensures r.Err? ==> r.error == IndexError || (r.error.KeyError? && r.error.key !in AtomicWeight)
  {
    var masses :- Masses(elements);
    if |elements| == 0 || |coords| == 0 then Err(IndexError)
    else
      MassSumPositive(elements, masses, |masses|);
      Ok(WeightedCenter(masses, coords))
  }

  /** A single atom of positive mass is its own weighted centre. */
  lemma WeightedCenterSingle(w: real, c: Vec3)
    requires w > 0.0
    ensures MassSum([w], 1) > 0.0 && WeightedCenter([w], [c]) == c
  {
    assert MassSum([w], 1) == w;
    assert Moment([w], Column([c], 0), 1) == w * c.x;
    assert Moment([w], Column([c], 1), 1) == w * c.y;
    assert Moment([w], Column([c], 2), 1) == w * c.z;
  }

  /** A single atom of a known element is its own centre of mass. */
  lemma CenterOfMassSingle(c: Vec3, e: string)
    requires e in AtomicWeight
    ensures CenterOfMass([c], [e]) == Ok(c)
  {
    var w := AtomicWeight[e];
    AtomicTables();
    var ms := Masses([e]);
    assert [e][0] == e;
    assert ms.Ok? && ms.value[0] == w;
    assert ms.value == [w];
    WeightedCenterSingle(w, c);
  }

  /** Every position moved by t. */
  function Shift(coords: seq<Vec3>, t: Vec3): (r: seq<Vec3>)
    ensures |r| == |coords| && forall i :: 0 <= i < |coords| ==> r[i] == Vec3(coords[i].x + t.x, coords[i].y + t.y, coords[i].z + t.z)
  {
    seq(|coords|, i requires 0 <= i < |coords| => Vec3(coords[i].x + t.x, coords[i].y + t.y, coords[i].z + t.z))
  }

  /** Adding t to every value of a column adds (sum of the masses) t to its moment. */
  lemma {:induction false} MomentShift(masses: seq<real>, xs: seq<real>, ys: seq<real>, t: real, k: nat)
    requires k <= |masses| && k <= |xs| == |ys|
    requires forall i :: 0 <= i < |xs| ==> ys[i] == xs[i] + t
    ensures Moment(masses, ys, k) == Moment(masses, xs, k) + MassSum(masses, k) * t
  {
    if k > 0 {
      MomentShift(masses, xs, ys, t, k - 1);
      ShiftStep(Moment(masses, xs, k - 1), Moment(masses, ys, k - 1), MassSum(masses, k - 1), masses[k - 1], xs[k - 1], t);
    }
  }

  /** One more atom of mass w at x: the shifted moment keeps exceeding the plain one by the
      mass so far times t. */
  lemma ShiftStep(s0: real, u0: real, before: real, w: real, x: real, t: real)
    requires u0 == s0 + before * t
    ensures u0 + w * (x + t) == (s0 + w * x) + (before + w) * t
  {}

  lemma ShiftQuotient(a: real, b: real, t: real, total: real)
    requires total > 0.0 && b == a + total * t
    ensures b / total == a / total + t
  {}

  /** The weighted centre of one column moves by t when every value does. */
  lemma ColumnCenterShift(masses: seq<real>, xs: seq<real>, ys: seq<real>, t: real)
    requires |xs| == |ys| == |masses| && MassSum(masses, |masses|) > 0.0
    requires forall i :: 0 <= i < |xs| ==> ys[i] == xs[i] + t
    ensures Moment(masses, ys, |masses|) / MassSum(masses, |masses|) ==
      Moment(masses, xs, |masses|) / MassSum(masses, |masses|) + t
  {
    var total, a, b := MassSum(masses, |masses|), Moment(masses, xs, |masses|), Moment(masses, ys, |masses|);
    MomentShift(masses, xs, ys, t, |masses|);
    assert b == a + total * t;
    ShiftQuotient(a, b, t, total);
  }

  /** Moving every atom by t moves the weighted centre by t. */
  lemma WeightedCenterShift(masses: seq<real>, coords: seq<Vec3>, t: Vec3)
    requires |coords| == |masses| && MassSum(masses, |masses|) > 0.0
    ensures var c := WeightedCenter(masses, coords);
      WeightedCenter(masses, Shift(coords, t)) == Vec3(c.x + t.x, c.y + t.y, c.z + t.z)
  {
    var moved := Shift(coords, t);
    ColumnCenterShift(masses, Column(coords, 0), Column(moved, 0), t.x);
    ColumnCenterShift(masses, Column(coords, 1), Column(moved, 1), t.y);
    ColumnCenterShift(masses, Column(coords, 2), Column(moved, 2), t.z);
  }

  /** The centre of mass moves with the molecule: moving every atom by t moves it by t, and the
      errors do not depend on the positions. */
  lemma CenterOfMassShift(coords: seq<Vec3>, elements: seq<string>, t: Vec3)
    requires |coords| == |elements|
    ensures CenterOfMass(Shift(coords, t), elements).Ok? <==> CenterOfMass(coords, elements).Ok?
    ensures CenterOfMass(coords, elements).Ok? ==>
      var c := CenterOfMass(coords, elements).value;
      CenterOfMass(Shift(coords, t), elements).value == Vec3(c.x + t.x, c.y + t.y, c.z + t.z)
  {
    var ms := Masses(elements);
    if ms.Ok? && |elements| > 0 {
      MassSumPositive(elements, ms.value, |ms.value|);
      WeightedCenterShift(ms.value, coords, t);
    }
  }

  // ---------------------------------------------------------------- the descriptors

  /** build_coulomb_matrix: the descriptor around the central atom, and the ordering. */
  function CoulombDescriptor(coords: seq<Vec3>, types: seq<string>, central: int, m: nat, math: Transcendentals)
    : Result<(seq<real>, seq<nat>)>
  {
    var o :- ReorderAround(coords, types, central, m);
    var d :- CoulombFromOrdered(o.cartOrd, o.typOrd, |coords|, math);
    Ok((d, o.reorder))
  }

  /** coulomb_matrix_com: the descriptor around the centre of mass, and the ordering. */
  function CoulombDescriptorCom(coords: seq<Vec3>, elements: seq<string>, m: nat, ordered: bool, math: Transcendentals)
    : Result<(seq<real>, seq<nat>)>
  {
    var com :- CenterOfMass(coords, elements);
    var o :- ReorderAroundCom(coords, elements, com, m, ordered, math);
    var d :- CoulombFromOrdered(o.cartOrd, o.typOrd, |coords|, math);
    Ok((d, o.reorder))
  }

  // ---------------------------------------------------------------- the builders

  /** Adds (x_i - x_b)^2, then the y and z terms, into row i of d for every column b, for each
      of the first k rows. */
  method SquaredDistances(d: array2<real>, rows: array<Vec3>, k: nat)
    requires d.Length0 == rows.Length && d.Length1 == rows.Length && k <= rows.Length
    requires forall a, b :: 0 <= a < d.Length0 && 0 <= b < d.Length1 ==> d[a, b] == 0.0
    modifies d
    ensures forall a, b :: 0 <= a < d.Length0 && 0 <= b < d.Length1 ==>
      d[a, b] == if a < k then SqDist(rows[a], rows[b]) else 0.0
  {
    var m := rows.Length;
    var i := 0;
    while i < k
      invariant 0 <= i <= k
      invariant forall a, b :: 0 <= a < m && 0 <= b < m ==>
        d[a, b] == if a < i then SqDist(rows[a], rows[b]) else 0.0
    {
      for c := 0 to 3
        invariant forall a, b :: 0 <= a < m && 0 <= b < m ==>
          d[a, b] == if a < i then SqDist(rows[a], rows[b]) else if a == i then PartialSqDist(rows[i], rows[b], c) else 0.0
      {
        forall b | 0 <= b < m {
          d[i, b] := d[i, b] + Sq(Component(rows[i], c) - Component(rows[b], c));
        }
      }
      i := i + 1;
    }
  }

  /** Row i of the first k: Z_i Z_j / d[i, j] off the diagonal, 0.5 Z_i^2.4 on it, stopping at
      the first zero distance. */
  method CoulombRow(d: array2<real>, rows: seq<Vec3>, z: seq<real>, k: nat, i: nat, math: Transcendentals)
    returns (e: Option<Error>)
    requires d.Length0 == |rows| && d.Length1 == |rows| && |z| == |rows| && i < k <= |rows|
    requires forall j :: 0 <= j < k ==> d[i, j] == Dist(rows, i, j, math)
    modifies d
    ensures e.Some? ==> e.value == ZeroDivision && exists j :: 0 <= j < k && j != i && Dist(rows, i, j, math) == 0.0
    ensures e.None? ==> forall j :: 0 <= j < k && j != i ==> Dist(rows, i, j, math) != 0.0
    ensures e.None? ==> forall j :: 0 <= j < k ==> d[i, j] == CoulombEntry(rows, z, i, j, math)
    ensures forall a, b :: 0 <= a < d.Length0 && 0 <= b < d.Length1 && (a != i || b >= k) ==> d[a, b] == old(d[a, b])
  {
    var j := 0;
    while j < k
      invariant 0 <= j <= k
      invariant forall b :: 0 <= b < j && b != i ==> Dist(rows, i, b, math) != 0.0
      invariant forall b :: 0 <= b < j ==> d[i, b] == CoulombEntry(rows, z, i, b, math)
      invariant forall b :: j <= b < k ==> d[i, b] == Dist(rows, i, b, math)
      invariant forall a, b :: 0 <= a < d.Length0 && 0 <= b < d.Length1 && (a != i || b >= k) ==> d[a, b] == old(d[a, b])
    {
      if i != j {
        if d[i, j] == 0.0 {
          return Some(ZeroDivision);
        }
        d[i, j] := z[i] * z[j] / d[i, j];
      } else {
        d[i, i] := 0.5 * math.pow24(z[i]);
      }
      j := j + 1;
    }
    return None;
  }

  /** The Coulomb entries of the first k rows and columns, row by row; ZeroDivision when two of
      the atoms coincide. */
  method CoulombEntries(d: array2<real>, rows: seq<Vec3>, z: seq<real>, k: nat, math: Transcendentals)
    returns (e: Option<Error>)
    requires d.Length0 == |rows| && d.Length1 == |rows| && |z| == |rows| && k <= |rows|
    requires forall a, b :: 0 <= a < k && 0 <= b < k ==> d[a, b] == Dist(rows, a, b, math)
    modifies d
    ensures e.Some? <==> Coincident(rows, k, math)
    ensures e.Some? ==> e.value == ZeroDivision
    ensures e.None? ==> forall a, b :: 0 <= a < k && 0 <= b < k ==> d[a, b] == CoulombEntry(rows, z, a, b, math)
    ensures e.None? ==> forall a, b :: 0 <= a < d.Length0 && 0 <= b < d.Length1 && (a >= k || b >= k) ==> d[a, b] == old(d[a, b])
  {
    var i := 0;
    while i < k
      invariant 0 <= i <= k
      invariant forall a, b :: 0 <= a < i && 0 <= b < k && a != b ==> Dist(rows, a, b, math) != 0.0
      invariant forall a, b :: 0 <= a < i && 0 <= b < k ==> d[a, b] == CoulombEntry(rows, z, a, b, math)
      invariant forall a, b :: i <= a < k && 0 <= b < k ==> d[a, b] == Dist(rows, a, b, math)
      invariant forall a, b :: 0 <= a < d.Length0 && 0 <= b < d.Length1 && (a >= k || b >= k) ==> d[a, b] == old(d[a, b])
    {
      e := CoulombRow(d, rows, z, k, i, math);
      if e.Some? {
        return;
      }
      i := i + 1;
    }
    return None;
  }

  /** The distances among the rows in a fresh m x m array: squared distances from each of the
      first k rows to every row, then the square root of every cell, taken in place. */
  method DistanceArray(cartOrd: array<Vec3>, k: nat, math: Transcendentals) returns (d: array2<real>)
    requires k <= cartOrd.Length
    ensures fresh(d) && d.Length0 == cartOrd.Length && d.Length1 == cartOrd.Length
    ensures forall a, b :: 0 <= a < k && 0 <= b < k ==> d[a, b] == Dist(cartOrd[..], a, b, math)
  {
    var m := cartOrd.Length;
    d := new real[m, m]((_, _) => 0.0);
    SquaredDistances(d, cartOrd, k);
    forall a, b | 0 <= a < m && 0 <= b < m {
      d[a, b] := math.sqrt(d[a, b]);
    }
  }

  /** d[n:, :] = 0 and d[:, n:] = 0: every row and column from n on set to zero. */
  method ZeroPad(d: array2<real>, n: nat)
    modifies d
    ensures forall a, b :: 0 <= a < d.Length0 && 0 <= b < d.Length1 ==>
      d[a, b] == if a >= n || b >= n then 0.0 else old(d[a, b])
  {
    forall a, b | n <= a < d.Length0 && 0 <= b < d.Length1 {
      d[a, b] := 0.0;
    }
    forall a, b | 0 <= a < d.Length0 && n <= b < d.Length1 {
      d[a, b] := 0.0;
    }
  }

  /** The Coulomb matrix of the rows in a fresh array: the distances, the Coulomb entries of the
      first min(n, m) rows and columns, then every row and column from n on set to zero. */
  method CoulombArray(cartOrd: array<Vec3>, z: seq<real>, n: nat, math: Transcendentals) returns (r: Result<array2<real>>)
    requires |z| == cartOrd.Length
    ensures r.Err? <==> Coincident(cartOrd[..], Min(n, cartOrd.Length), math)
    ensures r.Err? ==> r.error == ZeroDivision
    ensures r.Ok? ==> fresh(r.value)
    ensures r.Ok? ==> !Coincident(cartOrd[..], Min(n, cartOrd.Length), math)
    ensures r.Ok? ==> ToMatrix(r.value) == CoulombMatrix(cartOrd[..], z, n, math)
  {
    var m, k := cartOrd.Length, Min(n, cartOrd.Length);
    var rows := cartOrd[..];
    var d := DistanceArray(cartOrd, k, math);
    var e := CoulombEntries(d, rows, z, k, math);
    if e.Some? {
      return Err(e.value);
    }
    ZeroPad(d, n);
    var c := CoulombMatrix(rows, z, n, math);
    forall a, b | 0 <= a < m && 0 <= b < m
      ensures d[a, b] == c[a][b]
    {
      if a < k && b < k {
        assert d[a, b] == CoulombEntry(rows, z, a, b, math);
      }
    }
    ToMatrixOf(d, c);
    return Ok(d);
  }

  /** The descriptor from the reordered atoms: the atomic numbers of the atoms of coords (read
      from the reordered types), resized to the row count, the matrix, and its upper triangle. */
  method DescriptorOf(coords: seq<Vec3>, cartOrd: array<Vec3>, typOrd: seq<string>, math: Transcendentals)
    returns (r: Result<seq<real>>)
    ensures r == CoulombFromOrdered(cartOrd[..], typOrd, |coords|, math)
  {
    var z :- ExtractAtomicNumbers(coords, typOrd);
    var d :- CoulombArray(cartOrd, Resized(z, cartOrd.Length), |coords|, math);
    return Ok(UpperTriangle(ToMatrix(d), cartOrd.Length));
  }

  /** build_coulomb_matrix: reorders the atoms around the central one, numbers them, builds the
      matrix and returns its upper triangle with the ordering. */
  method BuildCoulombMatrix(coords: seq<Vec3>, types: seq<string>, central: int, m: nat, math: Transcendentals)
    returns (r: Result<(seq<real>, seq<nat>)>)
    ensures r == CoulombDescriptor(coords, types, central, m, math)
  {
    var ordering :- ReorderAtoms(coords, types, central, m);
    var (cartOrd, typOrd, reorder) := ordering;
    var d :- DescriptorOf(coords, cartOrd, typOrd, math);
    return Ok((d, reorder));
  }

  /** coulomb_matrix_com: the same descriptor, with the atoms reordered around the centre of
      mass. */
  method CoulombMatrixCom(coords: seq<Vec3>, elements: seq<string>, m: nat, ordered: bool, math: Transcendentals)
    returns (r: Result<(seq<real>, seq<nat>)>)
    ensures r == CoulombDescriptorCom(coords, elements, m, ordered, math)
  {
    var com :- CenterOfMass(coords, elements);
    var ordering :- ReorderAtomsCom(coords, elements, com, m, ordered, math);
    var (cartOrd, typOrd, reorder) := ordering;
    var d :- DescriptorOf(coords, cartOrd, typOrd, math);
    return Ok((d, reorder));
  }
}
