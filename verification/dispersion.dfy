/** The Dispersion component: it collects the monomers of a dimer and computes their
    Tang-Toennies dispersion energy, keeping the per-pair energies (in kcal/mol) in `atDisp`.
    Every method is proved against the pure passes of module TangToennies. */
module DispersionComponent {
  import opened Results
  import opened Numerics
  import opened Geometry
  import opened Matrices
  import opened Constants
  import opened TangToennies
  import opened Passes

  /** The contents of a returned matrix, or its error. */
  function ResultMatrix(r: Result<array2<real>>): Result<Matrix>
    reads if r.Ok? then {r.value} else {}
  {
    if r.Ok? then Ok(ToMatrix(r.value)) else Err(r.error)
  }

  /** Row A of the C8 fill: each entry, still holding its C6 value, is scaled by the pair's C8
      factor from left to right; a missing factor ends the row with its error. */
  method ScaleC8Row(c8: array2<real>, job: Job, ghost k: Coeffs, A: nat) returns (e: Option<Error>, ghost row: seq<real>)
    requires A < |job.si| && Ready(C8Pass, job, k) && RowUpTo(C8Pass, job, k, A, 0) == Ok([])
    requires c8.Length0 == |job.si| && c8.Length1 == |job.sj|
    requires forall j :: 0 <= j < |job.sj| ==> c8[A, j] == k.c6[A][j]
    modifies c8
    ensures e.None? ==> RowUpTo(C8Pass, job, k, A, |job.sj|) == Ok(row)
    ensures e.None? ==> forall j :: 0 <= j < |job.sj| ==> c8[A, j] == row[j]
    ensures e.Some? ==> RowUpTo(C8Pass, job, k, A, |job.sj|) == Err(e.value)
    ensures forall i, j :: 0 <= i < c8.Length0 && i != A && 0 <= j < c8.Length1 ==> c8[i, j] == old(c8[i, j])
  {
    row := [];
    for B := 0 to |job.sj|
      invariant RowUpTo(C8Pass, job, k, A, B) == Ok(row)
      invariant forall j :: 0 <= j < B ==> c8[A, j] == row[j]
      invariant forall j :: B <= j < |job.sj| ==> c8[A, j] == k.c6[A][j]
      invariant forall i, j :: 0 <= i < c8.Length0 && i != A && 0 <= j < c8.Length1 ==> c8[i, j] == old(c8[i, j])
    {
      var f := C8Factor(job.si[A].element, job.sj[B].element, job.tables, job.math);
      if f.Err? {
        C8CellValue(job, k, A, B);
        PairFailureEndsRow(C8Pass, job, k, A, B);
        return Some(f.error), row;
      }
      C8RowStep(job, k, A, B, row, f.value);
      c8[A, B] := C8Entry(c8[A, B], f.value);
      row := row + [c8[A, B]];
    }
    return None, row;
  }

  /** 1 + x + x^2/2! + ... + x^n/n!, summed term by term. */
  method SumExpSeries(x: real, n: nat) returns (xSum: real)
    ensures xSum == ExpSeries(x, n)
  {
    xSum := 1.0;
    for k := 1 to n + 1
      invariant xSum == ExpSeries(x, k - 1)
    {
      xSum := xSum + Pow(x, k) / (Factorial(k) as real);
    }
  }

  /** Row A of the C6 fill, given the effective values of atom A. */
  method FillC6Row(c6: array2<real>, job: Job, A: nat, selfA: Effective) returns (e: Option<Error>, ghost row: seq<real>)
    requires A < |job.si| && C6Self(job.si[A], job.tables) == Ok(selfA)
    requires c6.Length0 == |job.si| && c6.Length1 == |job.sj|
    modifies c6
    ensures e.None? ==> RowUpTo(C6Pass, job, NoCoeffs, A, |job.sj|) == Ok(row)
    ensures e.None? ==> forall j :: 0 <= j < |job.sj| ==> c6[A, j] == row[j]
    ensures e.Some? ==> RowUpTo(C6Pass, job, NoCoeffs, A, |job.sj|) == Err(e.value)
    ensures forall i, j :: 0 <= i < c6.Length0 && i != A && 0 <= j < c6.Length1 ==> c6[i, j] == old(c6[i, j])
  {
    row := [];
    for B := 0 to |job.sj|
      invariant RowUpTo(C6Pass, job, NoCoeffs, A, B) == Ok(row)
      invariant forall j :: 0 <= j < B ==> c6[A, j] == row[j]
      invariant forall i, j :: 0 <= i < c6.Length0 && i != A && 0 <= j < c6.Length1 ==> c6[i, j] == old(c6[i, j])
    {
      var selfB := C6Self(job.sj[B], job.tables);
      if selfB.Err? {
        PairFailureEndsRow(C6Pass, job, NoCoeffs, A, B);
        return Some(selfB.error), row;
      }
      var c := C6Combine(selfA, selfB.value);
      if c.Err? {
        PairFailureEndsRow(C6Pass, job, NoCoeffs, A, B);
        return Some(c.error), row;
      }
      RowStep(C6Pass, job, NoCoeffs, A, B);
      c6[A, B] := c.value;
      row := row + [c.value];
    }
    return None, row;
  }

  /** The C6 fill: row by row, the first atom's effective values are computed first, then each
      pair's combined C6 is stored; the first error ends the fill. */
  method FillC6(c6: array2<real>, job: Job) returns (e: Option<Error>)
    requires c6.Length0 == |job.si| && c6.Length1 == |job.sj|
    modifies c6
    ensures e.None? ==> Sweep(C6Pass, job, NoCoeffs) == Ok(ToMatrix(c6))
    ensures e.Some? ==> Sweep(C6Pass, job, NoCoeffs) == Err(e.value)
  {
    var si, sj := job.si, job.sj;
    ghost var grid: Matrix := [];
    for A := 0 to |si|
      invariant GridUpTo(C6Pass, job, NoCoeffs, A) == Ok(grid)
      invariant forall i, j :: 0 <= i < A && 0 <= j < |sj| ==> c6[i, j] == grid[i][j]
    {
      var selfA := C6Self(si[A], job.tables);
      if selfA.Err? {
        RowStartFailureEndsPass(C6Pass, job, NoCoeffs, A);
        return Some(selfA.error);
      }
      var e, row := FillC6Row(c6, job, A, selfA.value);
      if e.Some? {
        RowFailureEndsPass(C6Pass, job, NoCoeffs, A);
        return e;
      }
      GridStep(C6Pass, job, NoCoeffs, A);
      ghost var prev := grid;
      grid := grid + [row];
      forall i, j | 0 <= i < A + 1 && 0 <= j < |sj|
        ensures c6[i, j] == grid[i][j]
      {
        if i < A {
          assert grid[i] == prev[i];
        } else {
          assert grid[i] == row;
        }
      }
    }
    MatrixExtensionality(ToMatrix(c6), grid, |si|, |sj|);
    return None;
  }

  /** The C8 fill over a copy of the C6 matrix: row by row, each row's moments are looked up
      first and then its entries are scaled; the first error ends the fill. */
  method ScaleC8Rows(c8: array2<real>, job: Job, ghost k: Coeffs) returns (e: Option<Error>)
    requires Ready(C8Pass, job, k) && c8.Length0 == |job.si| && c8.Length1 == |job.sj|
    requires forall i, j :: 0 <= i < |job.si| && 0 <= j < |job.sj| ==> c8[i, j] == k.c6[i][j]
    modifies c8
    ensures e.None? ==> Sweep(C8Pass, job, k) == Ok(ToMatrix(c8))
    ensures e.Some? ==> Sweep(C8Pass, job, k) == Err(e.value)
  {
    var si, sj := job.si, job.sj;
    ghost var grid: Matrix := [];
    for A := 0 to |si|
      invariant GridUpTo(C8Pass, job, k, A) == Ok(grid)
      invariant forall i, j :: 0 <= i < A && 0 <= j < |sj| ==> c8[i, j] == grid[i][j]
      invariant forall i, j :: A <= i < |si| && 0 <= j < |sj| ==> c8[i, j] == k.c6[i][j]
    {
      var r42A := R42(si[A].element, job.tables);
      if r42A.Err? {
        RowStartFailureEndsPass(C8Pass, job, k, A);
        return Some(r42A.error);
      }
      var e, row := ScaleC8Row(c8, job, k, A);
      if e.Some? {
        RowFailureEndsPass(C8Pass, job, k, A);
        return e;
      }
      GridStep(C8Pass, job, k, A);
      ghost var prev := grid;
      grid := grid + [row];
      forall i, j | 0 <= i < A + 1 && 0 <= j < |sj|
        ensures c8[i, j] == grid[i][j]
      {
        if i < A {
          assert grid[i] == prev[i];
        } else {
          assert grid[i] == row;
        }
      }
    }
    MatrixExtensionality(ToMatrix(c8), grid, |si|, |sj|);
    return None;
  }

  /** The energy of pair (A, B) in hartree, given b_A = 1 / width_A, as the body of the
      source's inner loop computes it. */
  method EnergyPair(d: Dispersion, job: Job, ghost k: Coeffs, c6: array2<real>, c8: array2<real>, c10: array2<real>,
                    A: nat, B: nat, bA: real)
    returns (r: Result<real>)
    requires d.math == job.math && A < |job.si| && B < |job.sj| && Ready(EnergyPass, job, k)
    requires job.si[A].valenceWidth != 0.0 && bA == 1.0 / job.si[A].valenceWidth
    requires c6.Length0 == c8.Length0 == c10.Length0 == |job.si|
    requires c6.Length1 == c8.Length1 == c10.Length1 == |job.sj|
    requires k == Coeffs(ToMatrix(c6), ToMatrix(c8), ToMatrix(c10))
    ensures r == PairEnergy(job, k, A, B)
  {
    var a, b := job.si[A], job.sj[B];
    if b.valenceWidth == 0.0 {
      return Err(ZeroDivision);
    }
    var bB := 1.0 / b.valenceWidth;
    var vec := ScaleVec(job.pbc(a.coords, b.coords), A2B);
    var rAB := job.math.sqrt(SqDist(vec, Origin));
    var bAB := CombinedDecay(bA, bB, job.math);
    assert rAB == Distance(job, a.coords, b.coords);
    assert bAB == PairDecay(a, b, job.math);
    var f6 := d.ComputeTTDamping(6, rAB, bAB);
    var f8 := d.ComputeTTDamping(8, rAB, bAB);
    var f10 := d.ComputeTTDamping(10, rAB, bAB);
    if rAB == 0.0 {
      return Err(ZeroDivision);
    }
    var dA :- Lookup(job.dispCoeffs, a.atomType);
    var dB :- Lookup(job.dispCoeffs, b.atomType);
    assert c6[A, B] == k.c6[A][B] && c8[A, B] == k.c8[A][B] && c10[A, B] == k.c10[A][B];
    return Ok(DispersionTerm(c6[A, B], c8[A, B], c10[A, B], f6, f8, f10, rAB, dA, dB));
  }

  /** Row A of the energy loop, given b_A = 1 / width_A: each pair's energy is added to the
      running total and stored, in kcal/mol, in `at`; the first error ends the row. */
  method EnergyRow(d: Dispersion, job: Job, ghost k: Coeffs, c6: array2<real>, c8: array2<real>, c10: array2<real>,
                   at: array2<real>, A: nat, bA: real, disp: real)
    returns (e: Option<Error>, total: real, ghost row: seq<real>)
    requires d.math == job.math && A < |job.si| && Ready(EnergyPass, job, k)
    requires job.si[A].valenceWidth != 0.0 && bA == 1.0 / job.si[A].valenceWidth
    requires at.Length0 == |job.si| && at.Length1 == |job.sj| && at != c6 && at != c8 && at != c10
    requires c6.Length0 == c8.Length0 == c10.Length0 == |job.si|
    requires c6.Length1 == c8.Length1 == c10.Length1 == |job.sj|
    requires k == Coeffs(ToMatrix(c6), ToMatrix(c8), ToMatrix(c10))
    modifies at
    ensures e.None? ==> RowUpTo(EnergyPass, job, k, A, |job.sj|) == Ok(row) && total == disp + SeqSum(row)
    ensures e.None? ==> forall j :: 0 <= j < |job.sj| ==> at[A, j] == row[j] * AU2KCALMOL
    ensures e.Some? ==> RowUpTo(EnergyPass, job, k, A, |job.sj|) == Err(e.value)
    ensures forall i, j :: 0 <= i < at.Length0 && i != A && 0 <= j < at.Length1 ==> at[i, j] == old(at[i, j])
  {
    row := [];
    total := disp;
    for B := 0 to |job.sj|
      invariant RowUpTo(EnergyPass, job, k, A, B) == Ok(row)
      invariant total == disp + SeqSum(row)
      invariant forall j :: 0 <= j < B ==> at[A, j] == row[j] * AU2KCALMOL
      invariant forall i, j :: 0 <= i < at.Length0 && i != A && 0 <= j < at.Length1 ==> at[i, j] == old(at[i, j])
    {
      var en := EnergyPair(d, job, k, c6, c8, c10, A, B, bA);
      if en.Err? {
        PairFailureEndsRow(EnergyPass, job, k, A, B);
        return Some(en.error), total, row;
      }
      RowStep(EnergyPass, job, k, A, B);
      SeqSumAppend(row, en.value);
      total := total + en.value;
      at[A, B] := en.value * AU2KCALMOL;
      row := row + [en.value];
    }
    return None, total, row;
  }

  /** The energy loop over all pairs: the total in hartree, with each pair's energy stored, in
      kcal/mol, in `at`; the first error ends the loop. */
  method EnergyLoop(d: Dispersion, job: Job, ghost k: Coeffs, c6: array2<real>, c8: array2<real>, c10: array2<real>,
                    at: array2<real>)
    returns (e: Option<Error>, disp: real)
    requires d.math == job.math && Ready(EnergyPass, job, k)
    requires at.Length0 == |job.si| && at.Length1 == |job.sj| && at != c6 && at != c8 && at != c10
    requires c6.Length0 == c8.Length0 == c10.Length0 == |job.si|
    requires c6.Length1 == c8.Length1 == c10.Length1 == |job.sj|
    requires k == Coeffs(ToMatrix(c6), ToMatrix(c8), ToMatrix(c10))
    modifies at
    ensures e.None? ==> Sweep(EnergyPass, job, k).Ok? && disp == MatrixSum(Sweep(EnergyPass, job, k).value)
    ensures e.None? ==> ToMatrix(at) == Scale(Sweep(EnergyPass, job, k).value, AU2KCALMOL)
    ensures e.Some? ==> Sweep(EnergyPass, job, k) == Err(e.value)
  {
    disp := 0.0;
    ghost var grid: Matrix := [];
    for A := 0 to |job.si|
      invariant GridUpTo(EnergyPass, job, k, A) == Ok(grid)
      invariant disp == MatrixSum(grid)
      invariant forall i, j :: 0 <= i < A && 0 <= j < |job.sj| ==> at[i, j] == grid[i][j] * AU2KCALMOL
    {
      e, disp, grid := EnergyStep(d, job, k, c6, c8, c10, at, A, grid, disp);
      if e.Some? {
        return e, disp;
      }
    }
    MatrixExtensionality(ToMatrix(at), Scale(grid, AU2KCALMOL), |job.si|, |job.sj|);
    return None, disp;
  }

  /** One pass of the energy loop over atom A of the first system: its row of pair energies,
      added to the total and, in kcal/mol, to the atom-pair array. */
  method EnergyStep(d: Dispersion, job: Job, ghost k: Coeffs, c6: array2<real>, c8: array2<real>, c10: array2<real>,
                    at: array2<real>, A: nat, ghost grid: Matrix, disp: real)
    returns (e: Option<Error>, total: real, ghost grid': Matrix)
    requires d.math == job.math && Ready(EnergyPass, job, k) && A < |job.si|
    requires at.Length0 == |job.si| && at.Length1 == |job.sj| && at != c6 && at != c8 && at != c10
    requires c6.Length0 == c8.Length0 == c10.Length0 == |job.si|
    requires c6.Length1 == c8.Length1 == c10.Length1 == |job.sj|
    requires k == Coeffs(ToMatrix(c6), ToMatrix(c8), ToMatrix(c10))
    requires GridUpTo(EnergyPass, job, k, A) == Ok(grid) && disp == MatrixSum(grid)
    requires forall i, j :: 0 <= i < A && 0 <= j < |job.sj| ==> at[i, j] == grid[i][j] * AU2KCALMOL
    modifies at
    ensures e.None? ==> GridUpTo(EnergyPass, job, k, A + 1) == Ok(grid') && total == MatrixSum(grid')
    ensures e.None? ==> forall i, j :: 0 <= i < A + 1 && 0 <= j < |job.sj| ==> at[i, j] == grid'[i][j] * AU2KCALMOL
    ensures e.Some? ==> Sweep(EnergyPass, job, k) == Err(e.value)
  {
    grid' := grid;
    total := disp;
    if job.si[A].valenceWidth == 0.0 {
      RowStartFailureEndsPass(EnergyPass, job, k, A);
      return Some(ZeroDivision), total, grid';
    }
    var bA := 1.0 / job.si[A].valenceWidth;
    ghost var row;
    e, total, row := EnergyRow(d, job, k, c6, c8, c10, at, A, bA, disp);
    if e.Some? {
      RowFailureEndsPass(EnergyPass, job, k, A);
      return e, total, grid';
    }
    GridStep(EnergyPass, job, k, A);
    MatrixSumAppend(grid, row);
    grid' := grid + [row];
    forall i, j | 0 <= i < A + 1 && 0 <= j < |job.sj|
      ensures at[i, j] == grid'[i][j] * AU2KCALMOL
    {
      if i < A {
        assert grid'[i] == grid[i];
      } else {
        assert grid'[i] == row;
      }
    }
  }

  /** A hartree energy, or its error, converted to kcal/mol. */
  function InKcal(t: Result<real>): Result<Option<real>> {
    var e :- t;
    Ok(Some(e * AU2KCALMOL))
  }

  /** Converting a sum of pair energies converts each of them. */
  lemma SumInKcal(m: Matrix)
    ensures InKcal(Ok(MatrixSum(m))) == Ok(Some(MatrixSum(Scale(m, AU2KCALMOL))))
  {
    MatrixSumScale(m, AU2KCALMOL);
  }

  /** The C6, C8 and C10 matrices of the job, as the three coefficient methods compute them one
      after the other; the first error ends the computation. */
  method CoefficientArrays(d: Dispersion, job: Job) returns (r: Result<(array2<real>, array2<real>, array2<real>)>)
    requires d.CurrentJob() == Ok(job)
    ensures r.Err? ==> Coefficients(job) == Err(r.error)
    ensures r.Ok? ==> fresh(r.value.0) && fresh(r.value.1) && fresh(r.value.2)
    ensures r.Ok? ==>
      && r.value.0.Length0 == r.value.1.Length0 == r.value.2.Length0 == |job.si|
      && r.value.0.Length1 == r.value.1.Length1 == r.value.2.Length1 == |job.sj|
      && Coefficients(job) == Ok(Coeffs(ToMatrix(r.value.0), ToMatrix(r.value.1), ToMatrix(r.value.2)))
  {
    var c6 :- d.ComputeC6Coeffs();
    var c8 :- d.ComputeC8Coeffs(c6);
    var c10r := d.ComputeC10Coeffs(c6, c8);
    C10SweepCharacterized(job, Coeffs(ToMatrix(c6), ToMatrix(c8), []));
    if c10r.Err? {
      return Err(c10r.error);
    }
    var c10 := c10r.value;
    SweepEntries(C10Pass, job, Coeffs(ToMatrix(c6), ToMatrix(c8), []), ToMatrix(c10));
    return Ok((c6, c8, c10));
  }

  class Dispersion {
    /** The dispersion method the options name; only "TT" computes anything. */
    const dispMethod: string
    /** The per-atom-type scaling of the C8 and C10 terms. */
    const dispCoeffs: map<string, real>
    /** The cell's periodic-boundary difference vector. */
    const pbc: PbcDistance
    const math: Transcendentals
    /** The monomers added so far, the first one given at construction. */
    var systems: seq<Monomer>
    /** The per-pair energies of the last Tang-Toennies computation, in kcal/mol. */
    var atDisp: array2<real>

    constructor(dispMethod: string, system: Monomer, dispCoeffs: map<string, real>, pbc: PbcDistance, math: Transcendentals)
      ensures this.dispMethod == dispMethod && this.dispCoeffs == dispCoeffs && this.pbc == pbc && this.math == math
      ensures systems == [system]
      ensures fresh(atDisp) && atDisp.Length0 == 0 && atDisp.Length1 == 0
    {
      this.dispMethod := dispMethod;
      this.dispCoeffs := dispCoeffs;
      this.pbc := pbc;
      this.math := math;
      systems := [system];
      atDisp := new real[0, 0];
    }

    method AddSystem(s: Monomer)
      modifies this
      ensures systems == old(systems) + [s]
      ensures atDisp == old(atDisp)
    {
      systems := systems + [s];
    }

    /** The job the Tang-Toennies computation works on: the first two monomers. */
    function CurrentJob(): Result<Job>
      reads this`systems
    {
      SystemsJob(systems, DefaultTables, dispCoeffs, pbc, math)
    }

    /** The Tang-Toennies energy of the first two monomers in hartree, or the first error. */
    function TangToenniesEnergy(): Result<real>
      reads this`systems
    {
      var job :- CurrentJob();
      TotalEnergy(job)
    }

    /** The dispersion energy in kcal/mol when the method is Tang-Toennies, and nothing for
        any other method. */
    method ComputeDispersion() returns (r: Result<Option<real>>)
      modifies this
      ensures systems == old(systems)
      ensures dispMethod != "TT" ==> r == Ok(None) && atDisp == old(atDisp)
      ensures dispMethod == "TT" ==> r == InKcal(TangToenniesEnergy())
      ensures r.Ok? && r.value.Some? ==> r.value.value == MatrixSum(ToMatrix(atDisp))
    {
      if dispMethod != "TT" {
        return Ok(None);
      }
      ghost var job := CurrentJob();
      var t := ComputeTangToennies();
      r := InKcal(t);
      if t.Ok? {
        assert t == Ok(MatrixSum(EnergyMatrix(job.value).value));
        SumInKcal(EnergyMatrix(job.value).value);
      }
    }

    /** The Tang-Toennies dispersion energy of the first two monomers in hartree: the C6, C8
        and C10 matrices, then every pair's damped energy, each also stored in atDisp in
        kcal/mol. */
    method ComputeTangToennies() returns (r: Result<real>)
      modifies this
      ensures systems == old(systems)
      ensures r == TangToenniesEnergy()
      ensures |systems| < 2 ==> atDisp == old(atDisp)
      ensures |systems| >= 2 && Coefficients(CurrentJob().value).Err? ==> atDisp == old(atDisp)
      ensures |systems| >= 2 && Coefficients(CurrentJob().value).Ok? ==>
        fresh(atDisp) && atDisp.Length0 == |systems[0]| && atDisp.Length1 == |systems[1]|
      ensures r.Ok? ==> ToMatrix(atDisp) == Scale(EnergyMatrix(CurrentJob().value).value, AU2KCALMOL)
    {
      if |systems| < 2 {
        return Err(IndexError);
      }
      var job := CurrentJob().value;
      var cs := CoefficientArrays(this, job);
      if cs.Err? {
        return Err(cs.error);
      }
      var (c6, c8, c10) := cs.value;
      ghost var k := Coeffs(ToMatrix(c6), ToMatrix(c8), ToMatrix(c10));
      var at := new real[|job.si|, |job.sj|]((_, _) => 0.0);
      atDisp := at;
      var e, disp := EnergyLoop(this, job, k, c6, c8, c10, at);
      if e.Some? {
        return Err(e.value);
      }
      return Ok(disp);
    }

    /** The damping function of order n, summing the series term by term. */
    method ComputeTTDamping(n: nat, rAB: real, bAB: real) returns (f: real)
      ensures f == TTDamping(n, rAB, bAB, math)
    {
      var b2 := bAB * bAB;
      TTDenominatorPositive(bAB, rAB);
      var x := bAB * rAB - ((2.0 * b2 * rAB + 3.0 * bAB) * rAB / (b2 * rAB * rAB + 3.0 * bAB * rAB + 3.0));
      assert x == TTArgument(rAB, bAB);
      var xSum := SumExpSeries(x, n);
      f := 1.0 - math.exp(-x) * xSum;
    }

    /** The C6 matrix of the first two monomers, filled row by row; an error ends the fill. */
    method ComputeC6Coeffs() returns (r: Result<array2<real>>)
      ensures |systems| <= 1 ==> r == Err(NeedTwoMonomers)
      ensures |systems| >= 2 ==> ResultMatrix(r) == Sweep(C6Pass, CurrentJob().value, NoCoeffs)
      ensures r.Ok? ==> fresh(r.value) && r.value.Length0 == |systems[0]| && r.value.Length1 == |systems[1]|
    {
      if |systems| <= 1 {
        return Err(NeedTwoMonomers);
      }
      var job := CurrentJob().value;
      var si, sj := systems[0], systems[1];
      var c6 := new real[|si|, |sj|]((_, _) => 0.0);
      var e := FillC6(c6, job);
      if e.Some? {
        return Err(e.value);
      }
      return Ok(c6);
    }
  
    /** The C8 matrix: a copy of the C6 matrix, each entry then scaled by the pair's C8 factor
        in row-major order; an error ends the fill. */
    method ComputeC8Coeffs(c6: array2<real>) returns (r: Result<array2<real>>)
      requires |systems| >= 2 ==> c6.Length0 == |systems[0]| && c6.Length1 == |systems[1]|
      ensures |systems| < 2 ==> r == Err(IndexError)
      ensures |systems| >= 2 ==> ResultMatrix(r) == Sweep(C8Pass, CurrentJob().value, Coeffs(ToMatrix(c6), [], []))
      ensures r.Ok? ==> fresh(r.value) && r.value.Length0 == c6.Length0 && r.value.Length1 == c6.Length1
    {
      var c8 := new real[c6.Length0, c6.Length1]((i, j) requires 0 <= i < c6.Length0 && 0 <= j < c6.Length1 reads c6 => c6[i, j]);
      if |systems| < 2 {
        return Err(IndexError);
      }
      var job := CurrentJob().value;
      var e := ScaleC8Rows(c8, job, Coeffs(ToMatrix(c6), [], []));
      if e.Some? {
        return Err(e.value);
      }
      return Ok(c8);
    }

    /** C10 = (49/40) C8^2 / C6, element-wise over the whole matrices; a zero C6 entry is a
        division by zero. */
    method ComputeC10Coeffs(c6: array2<real>, c8: array2<real>) returns (r: Result<array2<real>>)
      requires c8.Length0 == c6.Length0 && c8.Length1 == c6.Length1
      ensures r.Ok? <==> forall i, j :: 0 <= i < c6.Length0 && 0 <= j < c6.Length1 ==> c6[i, j] != 0.0
      ensures r.Err? ==> r.error == ZeroDivision
      ensures r.Ok? ==> fresh(r.value) && r.value.Length0 == c6.Length0 && r.value.Length1 == c6.Length1
      ensures r.Ok? ==> forall i, j :: 0 <= i < c6.Length0 && 0 <= j < c6.Length1 ==>
        C10Entry(c6[i, j], c8[i, j]) == Ok(r.value[i, j])
    {
      if exists i, j :: 0 <= i < c6.Length0 && 0 <= j < c6.Length1 && c6[i, j] == 0.0 {
        return Err(ZeroDivision);
      }
      var c10 := new real[c6.Length0, c6.Length1](
        (i, j) requires 0 <= i < c6.Length0 && 0 <= j < c6.Length1 && c6[i, j] != 0.0 reads c6, c8 =>
          c8[i, j] * c8[i, j] / c6[i, j] * (49.0 / 40.0));
      forall i, j | 0 <= i < c6.Length0 && 0 <= j < c6.Length1
        ensures C10Entry(c6[i, j], c8[i, j]) == Ok(c10[i, j])
      {
        assert c10[i, j] == c8[i, j] * c8[i, j] / c6[i, j] * (49.0 / 40.0);
      }
      return Ok(c10);
    }
  }
}
