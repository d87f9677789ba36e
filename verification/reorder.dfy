/** Reordering the atoms of a molecule by their distance to a reference point (a central atom,
    or the centre of mass), as the Coulomb-matrix descriptors need: the permutation itself, the
    coordinates in that order padded with zero rows up to max_neighbors, and the atom types in
    that order. The centre-of-mass variant can then bring the heavier of the two nearest atoms
    first and keep the next two next to the nearer of them. */
module Reorder {
  import opened Results
  import opened Geometry
  import opened Numerics
  import opened Sorting
  import opened Labels
  import opened Folds

  /** cart_ord (max_neighbors rows), atom_typ_ord and reorder. */
  datatype Ordering = Ordering(cartOrd: seq<Vec3>, typOrd: seq<string>, reorder: seq<nat>)

  /** The squared distance of every atom to center, summed coordinate by coordinate. */
  function DistancesTo(coords: seq<Vec3>, center: Vec3): (keys: seq<real>)
    ensures |keys| == |coords|
  {
    seq(|coords|, i requires 0 <= i < |coords| => SqDist(center, coords[i]))
  }

  /** max_neighbors rows: the reordered atoms first, zero rows after them. */
  function PaddedRows(coords: seq<Vec3>, reorder: seq<nat>, m: nat): (rows: seq<Vec3>)
    requires |reorder| == |coords| && forall i :: 0 <= i < |reorder| ==> reorder[i] < |coords|
    ensures |rows| == m
  {
    seq(m, i requires 0 <= i < m => if i < |coords| then coords[reorder[i]] else Origin)
  }

  /** The ordering around center; IndexError when there are fewer types than atoms. */
  function OrderBy(coords: seq<Vec3>, types: seq<string>, center: Vec3, m: nat): Result<Ordering> {
    var n := |coords|;
    var reorder := Argsort(DistancesTo(coords, center), n);
    if |types| < n then Err(IndexError)
    else Ok(Ordering(PaddedRows(coords, reorder, m), seq(n, i requires 0 <= i < n => types[reorder[i]]), reorder))
  }

  /** o reorders the n atoms of coords and types consistently: reorder is a permutation, each
      type and each of the first max_neighbors rows is the one of the atom reorder names, and the
      rows past the atoms are zero. */
  ghost predicate Consistent(o: Ordering, coords: seq<Vec3>, types: seq<string>, m: nat) {
    var n := |coords|;
    && IsPermutation(o.reorder, n) && |o.typOrd| == n && |o.cartOrd| == m && n <= |types|
    && (forall i :: 0 <= i < n ==> o.typOrd[i] == types[o.reorder[i]])
    && (forall i :: 0 <= i < n && i < m ==> o.cartOrd[i] == coords[o.reorder[i]])
    && (forall i :: n <= i < m ==> o.cartOrd[i] == Origin)
  }

  /** Ordering succeeds exactly when every atom has a type, and then reorders coordinates and
      types consistently by non-decreasing distance to center. */
  lemma OrderByProperties(coords: seq<Vec3>, types: seq<string>, center: Vec3, m: nat)
    ensures OrderBy(coords, types, center, m).Ok? <==> |coords| <= |types|
    ensures OrderBy(coords, types, center, m).Ok? ==>
      var o := OrderBy(coords, types, center, m).value;
      && Consistent(o, coords, types, m)
      && forall i, j :: 0 <= i < j < |coords| ==>
           SqDist(center, coords[o.reorder[i]]) <= SqDist(center, coords[o.reorder[j]])
  {
    var n := |coords|;
    var keys := DistancesTo(coords, center);
    var p := Argsort(keys, n);
    ArgsortProperties(keys, n);
    if n <= |types| {
      var o := OrderBy(coords, types, center, m).value;
      assert o.reorder == p;
      assert forall i :: 0 <= i < n ==> o.typOrd[i] == types[p[i]];
      assert forall i :: 0 <= i < m ==> o.cartOrd[i] == if i < n then coords[p[i]] else Origin;
      ArgsortByDistance(coords, center, p);
    }
  }

  /** An order sorted by the distance keys lists the atoms by non-decreasing distance. */
  lemma ArgsortByDistance(coords: seq<Vec3>, center: Vec3, p: seq<nat>)
    requires Indexes(p, DistancesTo(coords, center)) && SortedBy(p, DistancesTo(coords, center))
    ensures forall i, j :: 0 <= i < j < |p| ==> SqDist(center, coords[p[i]]) <= SqDist(center, coords[p[j]])
  {
    var keys := DistancesTo(coords, center);
    forall i, j | 0 <= i < j < |p|
      ensures SqDist(center, coords[p[i]]) <= SqDist(center, coords[p[j]])
    {
      assert keys[p[i]] <= keys[p[j]];
    }
  }

  /** Python indexing of a list of n items: a negative index counts from the end. */
  function PythonIndex(index: int, n: nat): (r: Result<nat>)
    ensures r.Ok? <==> -(n as int) <= index < n
    ensures r.Ok? ==> r.value < n && (r.value == index || r.value == index + n)
    ensures r.Err? ==> r.error == IndexError
  {
    if 0 <= index < n then Ok(index)
    else if -(n as int) <= index < 0 then Ok(index + n)
    else Err(IndexError)
  }

  /** reorder_atoms: the ordering around the central atom. */
  function ReorderAround(coords: seq<Vec3>, types: seq<string>, central: int, m: nat): Result<Ordering> {
    var c :- PythonIndex(central, |coords|);
    OrderBy(coords, types, coords[c], m)
  }

  /** A zeroed array of max_neighbors rows with the reordered atoms copied in, one by one. */
  method FillRows(coords: seq<Vec3>, reorder: seq<nat>, m: nat) returns (cartOrd: array<Vec3>)
    requires |reorder| == |coords| && forall i :: 0 <= i < |reorder| ==> reorder[i] < |coords|
    ensures fresh(cartOrd) && cartOrd[..] == PaddedRows(coords, reorder, m)
  {
    cartOrd := new Vec3[m](_ => Origin);
    var filled := if |coords| < m then |coords| else m;
    var i := 0;
    while i < filled
      invariant 0 <= i <= filled
      invariant forall j :: 0 <= j < m ==> cartOrd[j] == (if j < i then coords[reorder[j]] else Origin)
    {
      cartOrd[i] := coords[reorder[i]];
      i := i + 1;
    }
  }

  /** The types in the order reorder gives, appended one by one; IndexError at the first index
      past the end of types. When reorder lists every index below n, that happens exactly when
      there are fewer than n types. */
  method TypesInOrder(types: seq<string>, reorder: seq<nat>, ghost n: nat) returns (r: Result<seq<string>>)
    requires |reorder| == n && forall i :: 0 <= i < n ==> reorder[i] < n
    requires forall y :: 0 <= y < n ==> y in reorder
    ensures r.Ok? <==> n <= |types|
    ensures r.Err? ==> r.error == IndexError
    ensures r.Ok? ==> r.value == seq(n, i requires 0 <= i < n => types[reorder[i]])
  {
    var typOrd := [];
    var i := 0;
    while i < |reorder|
      invariant 0 <= i <= n && |typOrd| == i
      invariant forall j :: 0 <= j < i ==> reorder[j] < |types| && typOrd[j] == types[reorder[j]]
    {
      if reorder[i] >= |types| {
        return Err(IndexError);
      }
      typOrd := typOrd + [types[reorder[i]]];
      i := i + 1;
    }
    if n > 0 {
      assert n - 1 in reorder;
    }
    return Ok(typOrd);
  }

  /** Sorts the atoms by distance to center, then fills cart_ord and atom_typ_ord. */
  method OrderAround(coords: seq<Vec3>, types: seq<string>, center: Vec3, m: nat)
    returns (r: Result<(array<Vec3>, seq<string>, seq<nat>)>)
    ensures r.Err? ==> OrderBy(coords, types, center, m) == Err(r.error)
    ensures r.Ok? ==> fresh(r.value.0)
    ensures r.Ok? ==>
      OrderBy(coords, types, center, m) == Ok(Ordering(r.value.0[..], r.value.1, r.value.2))
  {
    var reorder := Argsort(DistancesTo(coords, center), |coords|);
    var cartOrd := FillRows(coords, reorder, m);
    var typOrd :- TypesInOrder(types, reorder, |coords|);
    return Ok((cartOrd, typOrd, reorder));
  }

  /** reorder_atoms: the atoms ordered around the central atom (an index into coords, negative
      indices counting from the end). */
  method ReorderAtoms(coords: seq<Vec3>, types: seq<string>, central: int, m: nat)
    returns (r: Result<(array<Vec3>, seq<string>, seq<nat>)>)
    ensures r.Err? ==> ReorderAround(coords, types, central, m) == Err(r.error)
    ensures r.Ok? ==> fresh(r.value.0)
    ensures r.Ok? ==>
      ReorderAround(coords, types, central, m) == Ok(Ordering(r.value.0[..], r.value.1, r.value.2))
  {
    var c :- PythonIndex(central, |coords|);
    r := OrderAround(coords, types, coords[c], m);
  }

  // ---------------------------------------------------------------- the ordered variant

  /** Positions a and b exchanged in the rows, the types and the permutation alike. */
  function Swap(o: Ordering, a: nat, b: nat): Ordering
    requires a < |o.cartOrd| && b < |o.cartOrd|
    requires a < |o.typOrd| && b < |o.typOrd| && a < |o.reorder| && b < |o.reorder|
  {
    Ordering(o.cartOrd[a := o.cartOrd[b]][b := o.cartOrd[a]],
             o.typOrd[a := o.typOrd[b]][b := o.typOrd[a]],
             o.reorder[a := o.reorder[b]][b := o.reorder[a]])
  }

  /** Exchanging two reordered atoms keeps the ordering consistent. */
  lemma SwapConsistent(o: Ordering, coords: seq<Vec3>, types: seq<string>, m: nat, a: nat, b: nat)
    requires Consistent(o, coords, types, m)
    requires a < |coords| && a < m && b < |coords| && b < m
    ensures Consistent(Swap(o, a, b), coords, types, m)
  {
    var s := Swap(o, a, b);
    forall i, j | 0 <= i < j < |coords|
      ensures s.reorder[i] != s.reorder[j]
    {
      var i' := if i == a then b else if i == b then a else i;
      var j' := if j == a then b else if j == b then a else j;
      assert s.reorder[i] == o.reorder[i'] && s.reorder[j] == o.reorder[j'];
      assert i' != j';
      if i' > j' {
        assert o.reorder[j'] != o.reorder[i'];
      }
    }
  }

  /** Row 2 is farther from row 0 than from row 1 (np.linalg.norm of the differences). */
  predicate NearerToSecond(rows: seq<Vec3>, math: Transcendentals)
    requires |rows| > 2
  {
    math.sqrt(SqDist(rows[2], rows[0])) > math.sqrt(SqDist(rows[2], rows[1]))
  }

  /** The first two atoms exchanged when the second is the heavier one. */
  function HeavierFirst(o: Ordering, k: nat, z: seq<nat>): Ordering
    requires k <= |z| && k <= |o.cartOrd| && k <= |o.typOrd| && k <= |o.reorder|
  {
    if k > 1 && z[1] > z[0] then Swap(o, 0, 1) else o
  }

  /** The third and fourth atoms exchanged when the third lies nearer to the second atom than
      to the first. */
  function NearerPairAfter(o: Ordering, k: nat, math: Transcendentals): Ordering
    requires k <= |o.cartOrd| && k <= |o.typOrd| && k <= |o.reorder|
  {
    if k > 3 && NearerToSecond(o.cartOrd, math) then Swap(o, 2, 3) else o
  }

  /** The ordered step over the first k rows: their atomic numbers are read from the types,
      then the two exchanges above. */
  function OrderStep(o: Ordering, k: nat, math: Transcendentals): Result<Ordering>
    requires k <= |o.cartOrd| && |o.reorder| == |o.typOrd|
  {
    var z :- AtomicNumbers(k, o.typOrd);
    Ok(NearerPairAfter(HeavierFirst(o, k, z), k, math))
  }

  /** The ordered step as written: all max_neighbors rows are numbered. */
  function OrderPairs(o: Ordering, m: nat, math: Transcendentals): Result<Ordering>
    requires |o.cartOrd| == m && |o.reorder| == |o.typOrd|
  {
    OrderStep(o, m, math)
  }

  /** As written, the ordered step fails for every molecule with fewer atoms than
      max_neighbors, even when all of its types are known: the type list has one entry per
      atom, not one per row. */
  lemma OrderPairsFailsWhenPadded(o: Ordering, m: nat, math: Transcendentals)
    requires |o.cartOrd| == m && |o.reorder| == |o.typOrd| < m
    requires forall i :: 0 <= i < |o.typOrd| ==> AtomicNumberOf(o.typOrd[i]).Ok?
    ensures OrderPairs(o, m, math) == Err(IndexError)
  {
    var items := LabelNumbers(m, o.typOrd);
    var n := |o.typOrd|;
    CollectCharacterized(None, items, n);
    CollectFailureAt(None, items, n);
  }

  /** The ordered step as intended: only the rows that hold atoms are numbered. */
  function OrderPairsFixed(o: Ordering, m: nat, math: Transcendentals): Result<Ordering>
    requires |o.cartOrd| == m && |o.reorder| == |o.typOrd|
  {
    OrderStep(o, if |o.reorder| < m then |o.reorder| else m, math)
  }

  /** The intended ordered step fails only on an unreadable or unknown type among the atoms it
      numbers. */
  lemma OrderPairsFixedSucceeds(o: Ordering, m: nat, math: Transcendentals)
    requires |o.cartOrd| == m && |o.reorder| == |o.typOrd|
    ensures OrderPairsFixed(o, m, math).Ok? <==>
      forall i :: 0 <= i < |o.typOrd| && i < m ==> AtomicNumberOf(o.typOrd[i]).Ok?
  {
    var k := if |o.reorder| < m then |o.reorder| else m;
    AtomicNumbersCharacterized(k, o.typOrd);
  }

  /** The intended ordered step keeps the ordering consistent: reorder stays a permutation and
      the rows and types stay those of the atoms it names. */
  lemma OrderPairsFixedConsistent(o: Ordering, coords: seq<Vec3>, types: seq<string>, m: nat, math: Transcendentals)
    requires Consistent(o, coords, types, m)
    ensures OrderPairsFixed(o, m, math).Ok? ==> Consistent(OrderPairsFixed(o, m, math).value, coords, types, m)
  {
    var k := if |coords| < m then |coords| else m;
    var zr := AtomicNumbers(k, o.typOrd);
    if zr.Ok? {
      var o1 := HeavierFirst(o, k, zr.value);
      if k > 1 && zr.value[1] > zr.value[0] {
        SwapConsistent(o, coords, types, m, 0, 1);
      }
      if k > 3 && NearerToSecond(o1.cartOrd, math) {
        SwapConsistent(o1, coords, types, m, 2, 3);
      }
    }
  }

  /** The intended ordered step is the written one whenever the molecule fills all
      max_neighbors rows. */
  lemma OrderPairsFixedAgrees(o: Ordering, m: nat, math: Transcendentals)
    requires |o.cartOrd| == m && |o.reorder| == |o.typOrd| && m <= |o.reorder|
    ensures OrderPairsFixed(o, m, math) == OrderPairs(o, m, math)
  {}

  /** reorder_atoms_com as intended: the atoms ordered around the centre of mass, then, when
      ordered is set, the intended ordered step. */
  function ReorderAroundCom(coords: seq<Vec3>, types: seq<string>, com: Vec3, m: nat, ordered: bool,
                            math: Transcendentals): Result<Ordering>
  {
    var o :- OrderBy(coords, types, com, m);
    if ordered then OrderPairsFixed(o, m, math) else Ok(o)
  }

  /** Exchanges the first two atoms in place when the second is the heavier one. */
  method SwapHeavierFirst(cartOrd: array<Vec3>, typOrd: seq<string>, reorder: seq<nat>, k: nat, z: seq<nat>)
    returns (types: seq<string>, order: seq<nat>)
    requires k <= |z| && k <= cartOrd.Length && k <= |typOrd| && k <= |reorder|
    modifies cartOrd
    ensures Ordering(cartOrd[..], types, order) == HeavierFirst(Ordering(old(cartOrd[..]), typOrd, reorder), k, z)
  {
    types, order := typOrd, reorder;
    if k > 1 && z[1] > z[0] {
      cartOrd[0], cartOrd[1] := cartOrd[1], cartOrd[0];
      types := types[0 := types[1]][1 := types[0]];
      order := order[0 := order[1]][1 := order[0]];
    }
  }

  /** Exchanges the third and fourth atoms in place when the third lies nearer to the second
      atom than to the first. */
  method SwapNearerPair(cartOrd: array<Vec3>, typOrd: seq<string>, reorder: seq<nat>, k: nat, math: Transcendentals)
    returns (types: seq<string>, order: seq<nat>)
    requires k <= cartOrd.Length && k <= |typOrd| && k <= |reorder|
    modifies cartOrd
    ensures Ordering(cartOrd[..], types, order) == NearerPairAfter(Ordering(old(cartOrd[..]), typOrd, reorder), k, math)
  {
    types, order := typOrd, reorder;
    if k > 3 && math.sqrt(SqDist(cartOrd[2], cartOrd[0])) > math.sqrt(SqDist(cartOrd[2], cartOrd[1])) {
      cartOrd[3], cartOrd[2] := cartOrd[2], cartOrd[3];
      types := types[3 := types[2]][2 := types[3]];
      order := order[3 := order[2]][2 := order[3]];
    }
  }

  /** The ordered step on the first k rows of cart_ord, swapping its rows in place and the
      entries of the two lists. */
  method OrderPairsInPlace(cartOrd: array<Vec3>, typOrd: seq<string>, reorder: seq<nat>, k: nat, math: Transcendentals)
    returns (r: Result<(seq<string>, seq<nat>)>)
    requires k <= cartOrd.Length && |reorder| == |typOrd|
    modifies cartOrd
    ensures r.Err? ==> OrderStep(Ordering(old(cartOrd[..]), typOrd, reorder), k, math) == Err(r.error)
    ensures r.Ok? ==>
      OrderStep(Ordering(old(cartOrd[..]), typOrd, reorder), k, math) == Ok(Ordering(cartOrd[..], r.value.0, r.value.1))
  {
    var z :- ExtractAtomicNumbers(cartOrd[..k], typOrd);
    var types, order := SwapHeavierFirst(cartOrd, typOrd, reorder, k, z);
    types, order := SwapNearerPair(cartOrd, types, order, k, math);
    return Ok((types, order));
  }

  /** reorder_atoms_com: orders around com, then, when ordered is set, runs the (intended)
      ordered step in place on the rows that hold atoms. */
  method ReorderAtomsCom(coords: seq<Vec3>, types: seq<string>, com: Vec3, m: nat, ordered: bool,
                         math: Transcendentals)
    returns (r: Result<(array<Vec3>, seq<string>, seq<nat>)>)
    ensures r.Err? ==> ReorderAroundCom(coords, types, com, m, ordered, math) == Err(r.error)
    ensures r.Ok? ==> fresh(r.value.0)
    ensures r.Ok? ==>
      ReorderAroundCom(coords, types, com, m, ordered, math) == Ok(Ordering(r.value.0[..], r.value.1, r.value.2))
  {
    var res :- OrderAround(coords, types, com, m);
    var (cartOrd, typOrd, reorder) := res;
    if ordered {
      var k := if |coords| < m then |coords| else m;
      var swapped :- OrderPairsInPlace(cartOrd, typOrd, reorder, k, math);
      typOrd, reorder := swapped.0, swapped.1;
    }
    return Ok((cartOrd, typOrd, reorder));
  }
}
