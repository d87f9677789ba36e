/** What the whole Tang-Toennies computation promises: the coefficient passes succeed exactly
    for atoms with tabulated moments and non-zero Hirshfeld ratios, and with positive ratios,
    positive valence widths and non-negative atom-type scalings, every pairwise energy is
    attractive (non-positive), so the total dispersion energy is too. */
module Energy {
  import opened Results
  import opened Numerics
  import opened Geometry
  import opened Matrices
  import opened Constants
  import opened TangToennies
  import opened Passes
  import opened CoefficientProperties
  import opened Damping

  /** Every atom of the monomer has a positive Hirshfeld ratio. */
  ghost predicate PositiveRatios(m: Monomer) {
    forall i :: 0 <= i < |m| ==> m[i].hirshfeldRatio > 0.0
  }

  /** Every atom of the monomer has a positive valence width. */
  ghost predicate PositiveWidths(m: Monomer) {
    forall i :: 0 <= i < |m| ==> m[i].valenceWidth > 0.0
  }

  /** Every atom-type scaling of the C8 and C10 terms is non-negative. */
  ghost predicate NonNegativeScalings(d: map<string, real>) {
    forall t :: t in d ==> d[t] >= 0.0
  }

  lemma {:induction false} PowPositive(x: real, k: nat)
    requires x > 0.0
    ensures Pow(x, k) > 0.0
  {
    if k > 0 {
      PowPositive(x, k - 1);
      MulPos(x, Pow(x, k - 1));
    }
  }

  lemma DampedTermNonNegative(f: real, c: real, p: real)
    requires f >= 0.0 && c >= 0.0 && p > 0.0
    ensures f * c / p >= 0.0
  {
    MulNonNeg(f, c);
  }

  /** The pair energy formula is non-positive for non-negative coefficients, dampings and
      scalings at a positive distance. */
  lemma DispersionTermNonPositive(c6: real, c8: real, c10: real, f6: real, f8: real, f10: real, r: real, dA: real, dB: real)
    requires c6 >= 0.0 && c8 >= 0.0 && c10 >= 0.0 && f6 >= 0.0 && f8 >= 0.0 && f10 >= 0.0
    requires r > 0.0 && dA >= 0.0 && dB >= 0.0
    ensures DispersionTerm(c6, c8, c10, f6, f8, f10, r, dA, dB) <= 0.0
  {
    PowPositive(r, 6);
    PowPositive(r, 8);
    PowPositive(r, 10);
    var t6, t8, t10 := f6 * c6 / Pow(r, 6), f8 * c8 / Pow(r, 8), f10 * c10 / Pow(r, 10);
    DampedTermNonNegative(f6, c6, Pow(r, 6));
    DampedTermNonNegative(f8, c8, Pow(r, 8));
    DampedTermNonNegative(f10, c10, Pow(r, 10));
    assert -1.0 * f6 * c6 / Pow(r, 6) == -t6;
    MulNonNeg(t8 + t10, dA);
    MulNonNeg((t8 + t10) * dA, dB);
  }

  /** With a lawful square root the distance is non-negative. */
  lemma DistanceNonNegative(job: Job, a: Vec3, b: Vec3)
    requires Lawful(job.math)
    ensures Distance(job, a, b) >= 0.0
  {
    SqDistProperties(ScaleVec(job.pbc(a, b), A2B), Origin);
  }

  /** The combined decay rate of two positive valence widths is non-negative. */
  lemma PairDecayNonNegative(a: Atom, b: Atom, math: Transcendentals)
    requires Lawful(math) && a.valenceWidth > 0.0 && b.valenceWidth > 0.0
    ensures PairDecay(a, b, math) >= 0.0
  {
    DivPos(1.0, a.valenceWidth);
    DivPos(1.0, b.valenceWidth);
    MulPos(1.0 / a.valenceWidth, 1.0 / b.valenceWidth);
  }

  /** The damped pair energy is non-positive for non-negative coefficients and scalings at a
      positive distance and a non-negative decay rate. */
  lemma DampedTermNonPositive(c6: real, c8: real, c10: real, r: real, bAB: real, dA: real, dB: real, math: Transcendentals)
    requires Lawful(math) && c6 >= 0.0 && c8 >= 0.0 && c10 >= 0.0
    requires r > 0.0 && bAB >= 0.0 && dA >= 0.0 && dB >= 0.0
    ensures DampedTerm(c6, c8, c10, r, bAB, dA, dB, math) <= 0.0
  {
    TTDampingBounds(6, 6, r, bAB, math);
    TTDampingBounds(8, 8, r, bAB, math);
    TTDampingBounds(10, 10, r, bAB, math);
    DispersionTermNonPositive(c6, c8, c10, TTDamping(6, r, bAB, math), TTDamping(8, r, bAB, math),
      TTDamping(10, r, bAB, math), r, dA, dB);
  }

  /** A successful pair energy is the damped formula at the pair's distance and decay rate. */
  lemma PairEnergyValue(job: Job, k: Coeffs, A: nat, B: nat)
    requires A < |job.si| && B < |job.sj| && Ready(EnergyPass, job, k)
    requires PairEnergy(job, k, A, B).Ok?
    ensures job.si[A].valenceWidth != 0.0 && job.sj[B].valenceWidth != 0.0
    ensures Distance(job, job.si[A].coords, job.sj[B].coords) != 0.0
    ensures job.si[A].atomType in job.dispCoeffs && job.sj[B].atomType in job.dispCoeffs
    ensures PairEnergy(job, k, A, B).value ==
      DampedTerm(k.c6[A][B], k.c8[A][B], k.c10[A][B], Distance(job, job.si[A].coords, job.sj[B].coords),
        PairDecay(job.si[A], job.sj[B], job.math), job.dispCoeffs[job.si[A].atomType], job.dispCoeffs[job.sj[B].atomType], job.math)
  {}

  /** A pair with non-negative coefficients, positive valence widths and non-negative scalings
      attracts: its energy, when it exists, is non-positive. */
  lemma PairEnergyNonPositive(job: Job, k: Coeffs, A: nat, B: nat)
    requires A < |job.si| && B < |job.sj| && Ready(EnergyPass, job, k)
    requires Lawful(job.math) && NonNegativeScalings(job.dispCoeffs)
    requires job.si[A].valenceWidth > 0.0 && job.sj[B].valenceWidth > 0.0
    requires k.c6[A][B] >= 0.0 && k.c8[A][B] >= 0.0 && k.c10[A][B] >= 0.0
    requires PairEnergy(job, k, A, B).Ok?
    ensures PairEnergy(job, k, A, B).value <= 0.0
  {
    PairEnergyValue(job, k, A, B);
    var a, b := job.si[A], job.sj[B];
    DistanceNonNegative(job, a.coords, b.coords);
    PairDecayNonNegative(a, b, job.math);
    DampedTermNonPositive(k.c6[A][B], k.c8[A][B], k.c10[A][B], Distance(job, a.coords, b.coords),
      PairDecay(a, b, job.math), job.dispCoeffs[a.atomType], job.dispCoeffs[b.atomType], job.math);
  }

  /** With positive Hirshfeld ratios, every entry of a successful C6 pass is positive. */
  lemma C6PassPositive(job: Job)
    requires SoundTables(job.tables) && PositiveRatios(job.si) && PositiveRatios(job.sj)
    requires Sweep(C6Pass, job, NoCoeffs).Ok?
    ensures forall i, j :: 0 <= i < |job.si| && 0 <= j < |job.sj| ==> Sweep(C6Pass, job, NoCoeffs).value[i][j] > 0.0
  {
    SweepCharacterized(C6Pass, job, NoCoeffs);
    forall i, j | 0 <= i < |job.si| && 0 <= j < |job.sj|
      ensures C6Pair(job.si[i], job.sj[j], job.tables).Ok? && C6Pair(job.si[i], job.sj[j], job.tables).value > 0.0
    {
      assert Cell(C6Pass, job, NoCoeffs, i, j).Ok?;
      assert job.si[i].hirshfeldRatio > 0.0 && job.sj[j].hirshfeldRatio > 0.0;
      C6PairDefined(job.si[i], job.sj[j], job.tables);
      C6PairPositive(job.si[i], job.sj[j], job.tables);
    }
  }

  /** With a lawful square root, a successful C8 pass over non-negative C6 entries has
      non-negative entries. */
  lemma C8PassNonNegative(job: Job, c6: Matrix)
    requires Lawful(job.math) && SoundTables(job.tables) && IsMatrix(c6, |job.si|, |job.sj|)
    requires forall i, j :: 0 <= i < |job.si| && 0 <= j < |job.sj| ==> c6[i][j] >= 0.0
    requires Sweep(C8Pass, job, Coeffs(c6, [], [])).Ok?
    ensures forall i, j :: 0 <= i < |job.si| && 0 <= j < |job.sj| ==> Sweep(C8Pass, job, Coeffs(c6, [], [])).value[i][j] >= 0.0
  {
    SweepCharacterized(C8Pass, job, Coeffs(c6, [], []));
    forall i, j | 0 <= i < |job.si| && 0 <= j < |job.sj|
      ensures Cell(C8Pass, job, Coeffs(c6, [], []), i, j).Ok? && Cell(C8Pass, job, Coeffs(c6, [], []), i, j).value >= 0.0
    {
      assert Cell(C8Pass, job, Coeffs(c6, [], []), i, j).Ok?;
      assert c6[i][j] >= 0.0;
      var f := C8Factor(job.si[i].element, job.sj[j].element, job.tables, job.math).value;
      C8FactorNonNegative(job.si[i].element, job.sj[j].element, job.tables, job.math);
      MulNonNeg(c6[i][j], f);
    }
  }

  /** A successful C10 pass over positive C6 entries has non-negative entries. */
  lemma C10PassNonNegative(job: Job, c6: Matrix, c8: Matrix)
    requires IsMatrix(c6, |job.si|, |job.sj|) && IsMatrix(c8, |job.si|, |job.sj|)
    requires forall i, j :: 0 <= i < |job.si| && 0 <= j < |job.sj| ==> c6[i][j] > 0.0
    requires Sweep(C10Pass, job, Coeffs(c6, c8, [])).Ok?
    ensures forall i, j :: 0 <= i < |job.si| && 0 <= j < |job.sj| ==> Sweep(C10Pass, job, Coeffs(c6, c8, [])).value[i][j] >= 0.0
  {
    SweepCharacterized(C10Pass, job, Coeffs(c6, c8, []));
    forall i, j | 0 <= i < |job.si| && 0 <= j < |job.sj|
      ensures C10Entry(c6[i][j], c8[i][j]).value >= 0.0
    {
      C10EntryNonNegative(c6[i][j], c8[i][j]);
    }
  }

  /** With positive Hirshfeld ratios, successful coefficient passes give positive C6 and
      non-negative C8 and C10 for every pair. */
  lemma CoefficientSigns(job: Job)
    requires Lawful(job.math) && SoundTables(job.tables) && PositiveRatios(job.si) && PositiveRatios(job.sj)
    requires Coefficients(job).Ok?
    ensures forall i, j :: 0 <= i < |job.si| && 0 <= j < |job.sj| ==>
      Coefficients(job).value.c6[i][j] > 0.0 &&
      Coefficients(job).value.c8[i][j] >= 0.0 &&
      Coefficients(job).value.c10[i][j] >= 0.0
  {
    var c6 := Sweep(C6Pass, job, NoCoeffs).value;
    C6PassPositive(job);
    var c8 := Sweep(C8Pass, job, Coeffs(c6, [], [])).value;
    C8PassNonNegative(job, c6);
    C10PassNonNegative(job, c6, c8);
  }

  /** Tang-Toennies dispersion is attractive: with positive Hirshfeld ratios and valence widths
      and non-negative atom-type scalings, every pair energy is non-positive, and so is the
      total. */
  lemma DispersionIsAttractive(job: Job)
    requires Lawful(job.math) && SoundTables(job.tables) && NonNegativeScalings(job.dispCoeffs)
    requires PositiveRatios(job.si) && PositiveRatios(job.sj)
    requires PositiveWidths(job.si) && PositiveWidths(job.sj)
    requires EnergyMatrix(job).Ok?
    ensures forall i, j :: 0 <= i < |job.si| && 0 <= j < |job.sj| ==> EnergyMatrix(job).value[i][j] <= 0.0
    ensures MatrixSum(EnergyMatrix(job).value) <= 0.0
  {
    var k := Coefficients(job).value;
    CoefficientSigns(job);
    SweepCharacterized(EnergyPass, job, k);
    var e := EnergyMatrix(job).value;
    forall i, j | 0 <= i < |job.si| && 0 <= j < |job.sj|
      ensures e[i][j] <= 0.0
    {
      assert Cell(EnergyPass, job, k, i, j).Ok?;
      assert job.si[i].valenceWidth > 0.0 && job.sj[j].valenceWidth > 0.0;
      PairEnergyNonPositive(job, k, i, j);
    }
    MatrixSumNonPositive(e);
  }

  /** Every atom has an element with tabulated moments and a non-zero Hirshfeld ratio. */
  ghost predicate Supported(m: Monomer, t: Tables) {
    forall i :: 0 <= i < |m| ==> m[i].element in t.atomicR2 && m[i].hirshfeldRatio != 0.0
  }

  /** The C6 pass succeeds on supported monomers. */
  lemma C6PassSucceeds(job: Job)
    requires SoundTables(job.tables) && Supported(job.si, job.tables) && Supported(job.sj, job.tables)
    ensures Sweep(C6Pass, job, NoCoeffs).Ok?
  {
    forall i | 0 <= i < |job.si|
      ensures RowError(C6Pass, job, i).None?
    {
      C6SelfValues(job.si[i], job.tables);
    }
    forall i, j | 0 <= i < |job.si| && 0 <= j < |job.sj|
      ensures Cell(C6Pass, job, NoCoeffs, i, j).Ok?
    {
      C6PairDefined(job.si[i], job.sj[j], job.tables);
    }
    SweepCharacterized(C6Pass, job, NoCoeffs);
  }

  /** The C8 pass succeeds on supported monomers, whatever the C6 matrix. */
  lemma C8PassSucceeds(job: Job, c6: Matrix)
    requires SoundTables(job.tables) && Supported(job.si, job.tables) && Supported(job.sj, job.tables)
    requires IsMatrix(c6, |job.si|, |job.sj|)
    ensures Sweep(C8Pass, job, Coeffs(c6, [], [])).Ok?
  {
    forall i | 0 <= i < |job.si|
      ensures RowError(C8Pass, job, i).None?
    {
      R42Positive(job.si[i].element, job.tables);
    }
    forall i, j | 0 <= i < |job.si| && 0 <= j < |job.sj|
      ensures Cell(C8Pass, job, Coeffs(c6, [], []), i, j).Ok?
    {
      C8FactorDefined(job.si[i].element, job.sj[j].element, job.tables, job.math);
    }
    SweepCharacterized(C8Pass, job, Coeffs(c6, [], []));
  }

  /** The C10 pass succeeds after a successful C6 pass. */
  lemma C10PassSucceeds(job: Job, c8: Matrix)
    requires SoundTables(job.tables) && Sweep(C6Pass, job, NoCoeffs).Ok? && IsMatrix(c8, |job.si|, |job.sj|)
    ensures Sweep(C10Pass, job, Coeffs(Sweep(C6Pass, job, NoCoeffs).value, c8, [])).Ok?
  {
    var c6 := Sweep(C6Pass, job, NoCoeffs).value;
    SweepCharacterized(C6Pass, job, NoCoeffs);
    forall i, j | 0 <= i < |job.si| && 0 <= j < |job.sj|
      ensures Cell(C10Pass, job, Coeffs(c6, c8, []), i, j).Ok?
    {
      assert Cell(C6Pass, job, NoCoeffs, i, j).Ok?;
      C10AfterC6(job.si[i], job.sj[j], job.tables, c8[i][j]);
    }
    SweepCharacterized(C10Pass, job, Coeffs(c6, c8, []));
  }

  /** Successful coefficient passes over two non-empty monomers mean that every atom is
      supported: a pair's C6 needs both ratios non-zero, its C8 both elements' moments. */
  lemma CoefficientsNeedSupport(job: Job)
    requires SoundTables(job.tables) && |job.si| > 0 && |job.sj| > 0 && Coefficients(job).Ok?
    ensures Supported(job.si, job.tables) && Supported(job.sj, job.tables)
  {
    var c6 := Sweep(C6Pass, job, NoCoeffs).value;
    SweepCharacterized(C6Pass, job, NoCoeffs);
    SweepCharacterized(C8Pass, job, Coeffs(c6, [], []));
    forall i | 0 <= i < |job.si|
      ensures job.si[i].element in job.tables.atomicR2 && job.si[i].hirshfeldRatio != 0.0
    {
      assert Cell(C6Pass, job, NoCoeffs, i, 0).Ok?;
      C6PairDefined(job.si[i], job.sj[0], job.tables);
      assert Cell(C8Pass, job, Coeffs(c6, [], []), i, 0).Ok?;
      C8FactorDefined(job.si[i].element, job.sj[0].element, job.tables, job.math);
    }
    forall j | 0 <= j < |job.sj|
      ensures job.sj[j].element in job.tables.atomicR2 && job.sj[j].hirshfeldRatio != 0.0
    {
      assert Cell(C6Pass, job, NoCoeffs, 0, j).Ok?;
      C6PairDefined(job.si[0], job.sj[j], job.tables);
      assert Cell(C8Pass, job, Coeffs(c6, [], []), 0, j).Ok?;
      C8FactorDefined(job.si[0].element, job.sj[j].element, job.tables, job.math);
    }
  }

  /** For two non-empty monomers the coefficient passes succeed exactly when every atom's
      element has tabulated <r^2> and <r^4> and every Hirshfeld ratio is non-zero. */
  lemma CoefficientsDefined(job: Job)
    requires SoundTables(job.tables) && |job.si| > 0 && |job.sj| > 0
    ensures Coefficients(job).Ok? <==> Supported(job.si, job.tables) && Supported(job.sj, job.tables)
  {
    if Supported(job.si, job.tables) && Supported(job.sj, job.tables) {
      C6PassSucceeds(job);
      var c6 := Sweep(C6Pass, job, NoCoeffs).value;
      C8PassSucceeds(job, c6);
      C10PassSucceeds(job, Sweep(C8Pass, job, Coeffs(c6, [], [])).value);
    }
    if Coefficients(job).Ok? {
      CoefficientsNeedSupport(job);
    }
  }
}
