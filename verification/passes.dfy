/** How a pass over all pairs ends: it succeeds exactly when every row start and every pair
    does, its entries are then the pairs' values, and otherwise it reports the error of the first
    failure in row-major order. */
module Passes {
  import opened Results
  import opened Matrices
  import opened Folds
  import opened TangToennies

  /** A row succeeds exactly when its start and each of its first B pairs do, and then holds
      the pairs' values. */
  lemma RowCharacterized(p: Pass, job: Job, k: Coeffs, A: nat, B: nat)
    requires A < |job.si| && B <= |job.sj| && Ready(p, job, k)
    ensures RowUpTo(p, job, k, A, B).Ok? <==>
      RowError(p, job, A).None? && forall j :: 0 <= j < B ==> Cell(p, job, k, A, j).Ok?
    ensures RowUpTo(p, job, k, A, B).Ok? ==>
      forall j :: 0 <= j < B ==> RowUpTo(p, job, k, A, B).value[j] == Cell(p, job, k, A, j).value
  {
    var cells := RowCells(p, job, k, A);
    CollectCharacterized(RowError(p, job, A), cells, B);
    assert forall j :: 0 <= j < B ==> cells[j] == Cell(p, job, k, A, j);
  }

  /** The first A rows, when they succeed, are those rows' results. */
  lemma GridRows(p: Pass, job: Job, k: Coeffs, A: nat)
    requires A <= |job.si| && Ready(p, job, k)
    requires GridUpTo(p, job, k, A).Ok?
    ensures forall i :: 0 <= i < A ==>
      RowUpTo(p, job, k, i, |job.sj|).Ok? && GridUpTo(p, job, k, A).value[i] == RowUpTo(p, job, k, i, |job.sj|).value
  {
    var rows := Rows(p, job, k);
    CollectCharacterized(None, rows, A);
    assert forall i :: 0 <= i < A ==> rows[i] == RowUpTo(p, job, k, i, |job.sj|);
  }

  /** The first A rows succeed when each of them does. */
  lemma GridOfRows(p: Pass, job: Job, k: Coeffs, A: nat)
    requires A <= |job.si| && Ready(p, job, k)
    requires forall i :: 0 <= i < A ==> RowUpTo(p, job, k, i, |job.sj|).Ok?
    ensures GridUpTo(p, job, k, A).Ok?
  {
    CollectCharacterized(None, Rows(p, job, k), A);
  }

  /** A pass succeeds exactly when no row start and no pair fails; its entries are then the
      pairs' values. */
  lemma SweepCharacterized(p: Pass, job: Job, k: Coeffs)
    requires Ready(p, job, k)
    ensures Sweep(p, job, k).Ok? <==>
      && (forall i :: 0 <= i < |job.si| ==> RowError(p, job, i).None?)
      && (forall i, j :: 0 <= i < |job.si| && 0 <= j < |job.sj| ==> Cell(p, job, k, i, j).Ok?)
    ensures Sweep(p, job, k).Ok? ==>
      forall i, j :: 0 <= i < |job.si| && 0 <= j < |job.sj| ==> Sweep(p, job, k).value[i][j] == Cell(p, job, k, i, j).value
  {
    var nA, nB := |job.si|, |job.sj|;
    forall i | 0 <= i < nA
      ensures RowUpTo(p, job, k, i, nB).Ok? <==>
        RowError(p, job, i).None? && forall j :: 0 <= j < nB ==> Cell(p, job, k, i, j).Ok?
      ensures RowUpTo(p, job, k, i, nB).Ok? ==>
        forall j :: 0 <= j < nB ==> RowUpTo(p, job, k, i, nB).value[j] == Cell(p, job, k, i, j).value
    {
      RowCharacterized(p, job, k, i, nB);
    }
    if Sweep(p, job, k).Ok? {
      GridRows(p, job, k, nA);
      forall i, j | 0 <= i < nA && 0 <= j < nB
        ensures Cell(p, job, k, i, j).Ok? && Sweep(p, job, k).value[i][j] == Cell(p, job, k, i, j).value
      {
        assert Sweep(p, job, k).value[i] == RowUpTo(p, job, k, i, nB).value;
      }
    } else if forall i :: 0 <= i < nA ==> RowUpTo(p, job, k, i, nB).Ok? {
      GridOfRows(p, job, k, nA);
    }
  }

  /** A matrix holding every pair's value is the pass's result. */
  lemma SweepEntries(p: Pass, job: Job, k: Coeffs, m: Matrix)
    requires Ready(p, job, k) && Sweep(p, job, k).Ok?
    requires IsMatrix(m, |job.si|, |job.sj|)
    requires forall i, j :: 0 <= i < |job.si| && 0 <= j < |job.sj| ==>
      Cell(p, job, k, i, j).Ok? && m[i][j] == Cell(p, job, k, i, j).value
    ensures m == Sweep(p, job, k).value
  {
    SweepCharacterized(p, job, k);
    MatrixExtensionality(m, Sweep(p, job, k).value, |job.si|, |job.sj|);
  }

  /** Once a row has failed, it keeps that error to its end. */
  lemma RowFailurePersists(p: Pass, job: Job, k: Coeffs, A: nat, B: nat, B': nat)
    requires A < |job.si| && B <= B' <= |job.sj| && Ready(p, job, k)
    requires RowUpTo(p, job, k, A, B).Err?
    ensures RowUpTo(p, job, k, A, B') == RowUpTo(p, job, k, A, B)
  {
    CollectFailurePersists(RowError(p, job, A), RowCells(p, job, k, A), B, B');
  }

  /** Once the first A rows have failed, the pass keeps that error to its end. */
  lemma GridFailurePersists(p: Pass, job: Job, k: Coeffs, A: nat, A': nat)
    requires A <= A' <= |job.si| && Ready(p, job, k)
    requires GridUpTo(p, job, k, A).Err?
    ensures GridUpTo(p, job, k, A') == GridUpTo(p, job, k, A)
  {
    CollectFailurePersists(None, Rows(p, job, k), A, A');
  }

  /** A failed row, after every earlier row succeeded, ends the pass with its error. */
  lemma RowFailureEndsPass(p: Pass, job: Job, k: Coeffs, A: nat)
    requires A < |job.si| && Ready(p, job, k)
    requires GridUpTo(p, job, k, A).Ok? && RowUpTo(p, job, k, A, |job.sj|).Err?
    ensures Sweep(p, job, k) == Err(RowUpTo(p, job, k, A, |job.sj|).error)
  {
    CollectFailureAt(None, Rows(p, job, k), A);
  }

  /** A failure at the start of row A, after every earlier row succeeded, is the pass's error. */
  lemma RowStartFailureEndsPass(p: Pass, job: Job, k: Coeffs, A: nat)
    requires A < |job.si| && Ready(p, job, k)
    requires GridUpTo(p, job, k, A).Ok? && RowError(p, job, A).Some?
    ensures Sweep(p, job, k) == Err(RowError(p, job, A).value)
  {
    CollectStartFailure(RowError(p, job, A), RowCells(p, job, k, A));
    RowFailureEndsPass(p, job, k, A);
  }

  /** A failure at pair (A, B), after every earlier row and pair succeeded, is the pass's error. */
  lemma PairFailureEndsPass(p: Pass, job: Job, k: Coeffs, A: nat, B: nat)
    requires A < |job.si| && B < |job.sj| && Ready(p, job, k)
    requires GridUpTo(p, job, k, A).Ok? && RowUpTo(p, job, k, A, B).Ok? && Cell(p, job, k, A, B).Err?
    ensures Sweep(p, job, k) == Err(Cell(p, job, k, A, B).error)
  {
    CollectFailureAt(RowError(p, job, A), RowCells(p, job, k, A), B);
    RowFailureEndsPass(p, job, k, A);
  }

  /** A failing pair ends its row with its error, whatever follows it. */
  lemma PairFailureEndsRow(p: Pass, job: Job, k: Coeffs, A: nat, B: nat)
    requires A < |job.si| && B < |job.sj| && Ready(p, job, k)
    requires RowUpTo(p, job, k, A, B).Ok? && Cell(p, job, k, A, B).Err?
    ensures RowUpTo(p, job, k, A, |job.sj|) == Err(Cell(p, job, k, A, B).error)
  {
    CollectFailureAt(RowError(p, job, A), RowCells(p, job, k, A), B);
  }

  /** A C8 cell is its C6 entry times the pair's C8 factor, or the factor's error. */
  lemma C8CellValue(job: Job, k: Coeffs, A: nat, B: nat)
    requires A < |job.si| && B < |job.sj| && Ready(C8Pass, job, k)
    ensures C8Factor(job.si[A].element, job.sj[B].element, job.tables, job.math).Ok? ==>
      Cell(C8Pass, job, k, A, B).Ok? &&
      Cell(C8Pass, job, k, A, B).value == C8Entry(k.c6[A][B], C8Factor(job.si[A].element, job.sj[B].element, job.tables, job.math).value)
    ensures C8Factor(job.si[A].element, job.sj[B].element, job.tables, job.math).Err? ==>
      Cell(C8Pass, job, k, A, B) == Err(C8Factor(job.si[A].element, job.sj[B].element, job.tables, job.math).error)
  {}

  /** A successful C8 factor extends a successful row of the C8 pass by the C6 entry scaled by
      that factor. */
  lemma C8RowStep(job: Job, k: Coeffs, A: nat, B: nat, row: seq<real>, f: real)
    requires A < |job.si| && B < |job.sj| && Ready(C8Pass, job, k)
    requires RowUpTo(C8Pass, job, k, A, B) == Ok(row)
    requires C8Factor(job.si[A].element, job.sj[B].element, job.tables, job.math) == Ok(f)
    ensures RowUpTo(C8Pass, job, k, A, B + 1) == Ok(row + [C8Entry(k.c6[A][B], f)])
  {
    C8CellValue(job, k, A, B);
    RowStep(C8Pass, job, k, A, B);
  }

  /** The C10 pass succeeds exactly when no C6 entry is zero, and otherwise fails with a
      division by zero. */
  lemma C10SweepCharacterized(job: Job, k: Coeffs)
    requires Ready(C10Pass, job, k)
    ensures Sweep(C10Pass, job, k).Ok? <==>
      forall i, j :: 0 <= i < |job.si| && 0 <= j < |job.sj| ==> k.c6[i][j] != 0.0
    ensures Sweep(C10Pass, job, k).Err? ==> Sweep(C10Pass, job, k).error == ZeroDivision
  {
    SweepCharacterized(C10Pass, job, k);
    assert forall i, j :: 0 <= i < |job.si| && 0 <= j < |job.sj| ==>
      (Cell(C10Pass, job, k, i, j).Ok? <==> k.c6[i][j] != 0.0);
    var rows := Rows(C10Pass, job, k);
    forall i | 0 <= i < |job.si|
      ensures rows[i].Err? ==> rows[i].error == ZeroDivision
    {
      var cells := RowCells(C10Pass, job, k, i);
      assert forall j :: 0 <= j < |job.sj| ==> cells[j] == C10Entry(k.c6[i][j], k.c8[i][j]);
      CollectUniformError(RowError(C10Pass, job, i), cells, |job.sj|, ZeroDivision);
    }
    CollectUniformError(None, rows, |job.si|, ZeroDivision);
  }

  /** A successful pair extends its successful row by its value. */
  lemma RowStep(p: Pass, job: Job, k: Coeffs, A: nat, B: nat)
    requires A < |job.si| && B < |job.sj| && Ready(p, job, k)
    requires RowUpTo(p, job, k, A, B).Ok? && Cell(p, job, k, A, B).Ok?
    ensures RowUpTo(p, job, k, A, B + 1) == Ok(RowUpTo(p, job, k, A, B).value + [Cell(p, job, k, A, B).value])
  {
    CollectStep(RowError(p, job, A), RowCells(p, job, k, A), B);
  }

  /** A successful row extends the successful rows before it. */
  lemma GridStep(p: Pass, job: Job, k: Coeffs, A: nat)
    requires A < |job.si| && Ready(p, job, k)
    requires GridUpTo(p, job, k, A).Ok? && RowUpTo(p, job, k, A, |job.sj|).Ok?
    ensures GridUpTo(p, job, k, A + 1) == Ok(GridUpTo(p, job, k, A).value + [RowUpTo(p, job, k, A, |job.sj|).value])
  {
    CollectStep(None, Rows(p, job, k), A);
  }
}
