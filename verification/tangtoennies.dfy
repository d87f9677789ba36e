/** The Tang-Toennies dispersion energy between two monomers, as pure functions: the C6, C8 and
    C10 coefficient matrices, the damping function and the pairwise energy, each pass computed in
    the row-major order of the source's nested loops and stopping at its first error. */
module TangToennies {
  import opened Results
  import opened Numerics
  import opened Geometry
  import opened Matrices
  import opened Constants
  import opened Folds

  /** One atom of a monomer: its element, its atom type (the key of the dispersion scaling
      table), its position in Angstrom, its Hirshfeld ratio and its valence width. */
  datatype Atom = Atom(element: string, atomType: string, coords: Vec3, hirshfeldRatio: real, valenceWidth: real)

  type Monomer = seq<Atom>

  /** The periodic-boundary difference vector between two positions, in Angstrom. */
  type PbcDistance = (Vec3, Vec3) -> Vec3

  /** What the computation reads: the first two monomers, the constant tables, the
      per-atom-type scaling of the C8/C10 terms, the cell and the transcendental functions. */
  datatype Job = Job(si: Monomer, sj: Monomer, tables: Tables, dispCoeffs: map<string, real>, pbc: PbcDistance, math: Transcendentals)

  /** The coefficient matrices produced by the earlier passes. */
  datatype Coeffs = Coeffs(c6: Matrix, c8: Matrix, c10: Matrix)

  const NoCoeffs: Coeffs := Coeffs([], [], [])

  /** The four passes over all pairs (A in si, B in sj). */
  datatype Pass = C6Pass | C8Pass | C10Pass | EnergyPass

  // ---------------------------------------------------------------- C6

  /** Effective C6 and polarizability of one atom: the free-atom values scaled by h^2 and h. */
  datatype Effective = Effective(c6: real, alpha: real)

  function EffectiveC6(csix: real, h: real): real {
    csix * h * h
  }

  function EffectivePolarizability(pol: real, h: real): real {
    h * pol
  }

  function C6Self(a: Atom, t: Tables): Result<Effective> {
    var csix :- Lookup(t.csixFree, a.element);
    var pol :- Lookup(t.polFree, a.element);
    Ok(Effective(EffectiveC6(csix, a.hirshfeldRatio), EffectivePolarizability(pol, a.hirshfeldRatio)))
  }

  /** (a_B/a_A) C6_AA + (a_A/a_B) C6_BB. */
  function CombiningDenominator(p: Effective, q: Effective): real
    requires p.alpha != 0.0 && q.alpha != 0.0
  {
    (q.alpha / p.alpha) * p.c6 + (p.alpha / q.alpha) * q.c6
  }

  /** 2 C6_AA C6_BB / ((a_B/a_A) C6_AA + (a_A/a_B) C6_BB). */
  function CombinedC6(p: Effective, q: Effective): real
    requires p.alpha != 0.0 && q.alpha != 0.0 && CombiningDenominator(p, q) != 0.0
  {
    2.0 * p.c6 * q.c6 / CombiningDenominator(p, q)
  }

  /** The combining rule, failing on a division by zero. */
  function C6Combine(p: Effective, q: Effective): Result<real> {
    if p.alpha == 0.0 || q.alpha == 0.0 || CombiningDenominator(p, q) == 0.0 then Err(ZeroDivision)
    else Ok(CombinedC6(p, q))
  }

  function C6Pair(a: Atom, b: Atom, t: Tables): Result<real> {
    var p :- C6Self(a, t);
    var q :- C6Self(b, t);
    C6Combine(p, q)
  }

  // ---------------------------------------------------------------- C8

  /** <r^4> / <r^2> of an element. */
  function R42(e: string, t: Tables): Result<real> {
    var r2 :- Lookup(t.atomicR2, e);
    var r4 :- Lookup(t.atomicR4, e);
    if r2 == 0.0 then Err(ZeroDivision) else Ok(r4 / r2)
  }

  /** 3 sqrt(q_A q_B) with q = sqrt(Z) <r^4>/<r^2>. */
  function C8FromMoments(rA: real, rB: real, zA: nat, zB: nat, math: Transcendentals): real {
    var qa := math.sqrt(zA as real) * rA;
    var qb := math.sqrt(zB as real) * rB;
    3.0 * math.sqrt(qa * qb)
  }

  /** The factor that turns C6 into C8, failing on an element without moments or number. */
  function C8Factor(eA: string, eB: string, t: Tables, math: Transcendentals): Result<real> {
    var rA :- R42(eA, t);
    var rB :- R42(eB, t);
    var zA :- Lookup(t.atomicNumber, eA);
    var zB :- Lookup(t.atomicNumber, eB);
    Ok(C8FromMoments(rA, rB, zA, zB, math))
  }

  /** A C8 entry: the C6 entry scaled by the pair's C8 factor. */
  function C8Entry(c6: real, factor: real): real {
    c6 * factor
  }

  // ---------------------------------------------------------------- C10

  /** C10 = (49/40) C8^2 / C6, elementwise. */
  function C10Entry(c6: real, c8: real): Result<real> {
    if c6 == 0.0 then Err(ZeroDivision) else Ok(c8 * c8 / c6 * (49.0 / 40.0))
  }

  // ---------------------------------------------------------------- damping and energy

  /** The denominator b^2 r^2 + 3 b r + 3 of the damping argument never vanishes. */
  lemma TTDenominatorPositive(b: real, r: real)
    ensures (b * b) * r * r + 3.0 * b * r + 3.0 > 0.0
  {
    QuadraticPositive(b * r);
    assert (b * r) * (b * r) == (b * b) * r * r;
  }

  /** The damping argument x = b r - (2 b^2 r + 3 b) r / (b^2 r^2 + 3 b r + 3). */
  function TTArgument(r: real, b: real): real {
    var b2 := b * b;
    TTDenominatorPositive(b, r);
    b * r - ((2.0 * b2 * r + 3.0 * b) * r / (b2 * r * r + 3.0 * b * r + 3.0))
  }

  /** The damping function of order n: 1 - exp(-x) sum_{k=0..n} x^k / k!. */
  function TTDamping(n: nat, r: real, b: real, math: Transcendentals): real {
    var x := TTArgument(r, b);
    1.0 - math.exp(-x) * ExpSeries(x, n)
  }

  /** |pbc(a, b) a2b|: the distance in bohr. */
  function Distance(job: Job, a: Vec3, b: Vec3): real {
    job.math.sqrt(SqDist(ScaleVec(job.pbc(a, b), A2B), Origin))
  }

  /** -f6 C6 / r^6 - (f8 C8 / r^8 + f10 C10 / r^10) d_A d_B. */
  function DispersionTerm(c6: real, c8: real, c10: real, f6: real, f8: real, f10: real, r: real, dA: real, dB: real): real
    requires r != 0.0
  {
    PowNonZero(r, 6);
    PowNonZero(r, 8);
    PowNonZero(r, 10);
    -1.0 * f6 * c6 / Pow(r, 6) - (f8 * c8 / Pow(r, 8) + f10 * c10 / Pow(r, 10)) * dA * dB
  }

  // ---------------------------------------------------------------- the passes

  /** The coefficient matrices a pass reads are in place, with one row per atom of si and one
      column per atom of sj. */
  ghost predicate Ready(p: Pass, job: Job, k: Coeffs) {
    && (p != C6Pass ==> IsMatrix(k.c6, |job.si|, |job.sj|))
    && (p == C10Pass || p == EnergyPass ==> IsMatrix(k.c8, |job.si|, |job.sj|))
    && (p == EnergyPass ==> IsMatrix(k.c10, |job.si|, |job.sj|))
  }

  /** The error, if any, raised at the start of row A, before its first pair. */
  function RowError(p: Pass, job: Job, A: nat): Option<Error>
    requires A < |job.si|
  {
    match p
    case C6Pass => ErrorOf(C6Self(job.si[A], job.tables))
    case C8Pass => ErrorOf(R42(job.si[A].element, job.tables))
    case C10Pass => None
    case EnergyPass => if job.si[A].valenceWidth == 0.0 then Some(ZeroDivision) else None
  }

  /** The combined decay rate sqrt(b_A b_B) of two decay rates. */
  function CombinedDecay(bA: real, bB: real, math: Transcendentals): real {
    math.sqrt(bA * bB)
  }

  /** The combined decay rate of a pair, b = 1 / valence width. */
  function PairDecay(a: Atom, b: Atom, math: Transcendentals): real
    requires a.valenceWidth != 0.0 && b.valenceWidth != 0.0
  {
    CombinedDecay(1.0 / a.valenceWidth, 1.0 / b.valenceWidth, math)
  }

  /** The pair energy with the damping functions of orders 6, 8 and 10 filled in. */
  function DampedTerm(c6: real, c8: real, c10: real, r: real, bAB: real, dA: real, dB: real, math: Transcendentals): real
    requires r != 0.0
  {
    DispersionTerm(c6, c8, c10, TTDamping(6, r, bAB, math), TTDamping(8, r, bAB, math), TTDamping(10, r, bAB, math), r, dA, dB)
  }

  /** The energy of pair (A, B) in hartree. */
  function PairEnergy(job: Job, k: Coeffs, A: nat, B: nat): Result<real>
    requires A < |job.si| && B < |job.sj| && Ready(EnergyPass, job, k)
  {
    var a, b := job.si[A], job.sj[B];
    if a.valenceWidth == 0.0 || b.valenceWidth == 0.0 then Err(ZeroDivision)
    else
      var r := Distance(job, a.coords, b.coords);
      var bAB := PairDecay(a, b, job.math);
      if r == 0.0 then Err(ZeroDivision)
      else
        var dA :- Lookup(job.dispCoeffs, a.atomType);
        var dB :- Lookup(job.dispCoeffs, b.atomType);
        Ok(DampedTerm(k.c6[A][B], k.c8[A][B], k.c10[A][B], r, bAB, dA, dB, job.math))
  }

  /** The value, or the error, of pair (A, B) in a pass. */
  function Cell(p: Pass, job: Job, k: Coeffs, A: nat, B: nat): Result<real>
    requires A < |job.si| && B < |job.sj| && Ready(p, job, k)
  {
    match p
    case C6Pass => C6Pair(job.si[A], job.sj[B], job.tables)
    case C8Pass =>
      var f :- C8Factor(job.si[A].element, job.sj[B].element, job.tables, job.math);
      Ok(C8Entry(k.c6[A][B], f))
    case C10Pass => C10Entry(k.c6[A][B], k.c8[A][B])
    case EnergyPass => PairEnergy(job, k, A, B)
  }

  /** The outcomes of the pairs of row A, in column order. */
  function RowCells(p: Pass, job: Job, k: Coeffs, A: nat): (cells: seq<Result<real>>)
    requires A < |job.si| && Ready(p, job, k)
    ensures |cells| == |job.sj|
  {
    seq(|job.sj|, B requires 0 <= B < |job.sj| => Cell(p, job, k, A, B))
  }

  /** The first B entries of row A, or the first error met on the way. */
  function RowUpTo(p: Pass, job: Job, k: Coeffs, A: nat, B: nat): (r: Result<seq<real>>)
    requires A < |job.si| && B <= |job.sj| && Ready(p, job, k)
  {
    Collect(RowError(p, job, A), RowCells(p, job, k, A), B)
  }

  /** The outcomes of the whole rows, in row order. */
  function Rows(p: Pass, job: Job, k: Coeffs): (rows: seq<Result<seq<real>>>)
    requires Ready(p, job, k)
    ensures |rows| == |job.si|
    ensures forall A :: 0 <= A < |job.si| && rows[A].Ok? ==> |rows[A].value| == |job.sj|
  {
    seq(|job.si|, A requires 0 <= A < |job.si| => RowUpTo(p, job, k, A, |job.sj|))
  }

  /** The first A rows, or the first error met on the way. */
  function GridUpTo(p: Pass, job: Job, k: Coeffs, A: nat): (r: Result<Matrix>)
    requires A <= |job.si| && Ready(p, job, k)
    ensures r.Ok? ==> IsMatrix(r.value, A, |job.sj|)
  {
    CollectCharacterized(None, Rows(p, job, k), A);
    Collect(None, Rows(p, job, k), A)
  }

  /** A whole pass. */
  function Sweep(p: Pass, job: Job, k: Coeffs): (r: Result<Matrix>)
    requires Ready(p, job, k)
    ensures r.Ok? ==> IsMatrix(r.value, |job.si|, |job.sj|)
  {
    GridUpTo(p, job, k, |job.si|)
  }

  /** The C6, C8 and C10 matrices of the first two systems, or the first error. */
  function Coefficients(job: Job): (r: Result<Coeffs>)
    ensures r.Ok? ==> Ready(EnergyPass, job, r.value)
  {
    var c6 :- Sweep(C6Pass, job, NoCoeffs);
    var c8 :- Sweep(C8Pass, job, Coeffs(c6, [], []));
    var c10 :- Sweep(C10Pass, job, Coeffs(c6, c8, []));
    Ok(Coeffs(c6, c8, c10))
  }

  /** The pairwise dispersion energies in hartree, or the first error. */
  function EnergyMatrix(job: Job): (r: Result<Matrix>)
    ensures r.Ok? ==> IsMatrix(r.value, |job.si|, |job.sj|)
  {
    var k :- Coefficients(job);
    Sweep(EnergyPass, job, k)
  }

  /** The total dispersion energy in hartree: the sum of the pair energies. */
  function TotalEnergy(job: Job): Result<real> {
    var e :- EnergyMatrix(job);
    Ok(MatrixSum(e))
  }

  /** Tang-Toennies on a list of systems: the first two must exist. */
  function SystemsJob(systems: seq<Monomer>, tables: Tables, dispCoeffs: map<string, real>, pbc: PbcDistance, math: Transcendentals): Result<Job> {
    if |systems| < 2 then Err(IndexError) else Ok(Job(systems[0], systems[1], tables, dispCoeffs, pbc, math))
  }

  /** Fewer than two systems is an IndexError; otherwise only the first two are read, so adding
      further systems changes nothing. */
  lemma SystemsJobFirstTwo(systems: seq<Monomer>, more: seq<Monomer>, tables: Tables, dispCoeffs: map<string, real>,
                           pbc: PbcDistance, math: Transcendentals)
    ensures SystemsJob(systems, tables, dispCoeffs, pbc, math).Err? <==> |systems| < 2
    ensures |systems| < 2 ==> SystemsJob(systems, tables, dispCoeffs, pbc, math) == Err(IndexError)
    ensures |systems| >= 2 ==>
      SystemsJob(systems + more, tables, dispCoeffs, pbc, math) == SystemsJob(systems, tables, dispCoeffs, pbc, math)
  {}
}
