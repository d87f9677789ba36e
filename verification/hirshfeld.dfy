/** Hirshfeld ratios by kernel-ridge regression: a training set of (descriptor, ratio) pairs
    grown molecule by molecule, a training step that solves (K + krrLambda I) alpha = targets for
    the kernel matrix K of the training descriptors, and a prediction that is the kernel between
    a molecule's descriptors and the training descriptors applied to alpha; or, in file mode,
    ratios read from per-molecule files. */
module Hirshfeld {
  import opened Results
  import opened Numerics
  import opened Matrices
  import opened Kernels
  import opened Text

  /** The linear solver: Some(x) with K x = b, or None when it finds no solution. */
  type Solver = (Matrix, seq<real>) -> Option<seq<real>>

  /** A solver whose every answer solves the system it was given. */
  ghost predicate ExactSolver(solve: Solver) {
    forall k: Matrix, b: seq<real> :: solve(k, b).Some? && IsMatrix(k, |b|, |b|) ==>
      |solve(k, b).value| == |b| && MatVec(k, solve(k, b).value) == b
  }

  // ---------------------------------------------------------------------------------------
  // Training

  /** The outcome of training on descriptors descr and targets target: EmptyTrainingSet with
      no descriptor, UnknownMlMethod for a method other than "krr", the kernel matrix's error,
      ShapeMismatch when the targets do not match the descriptors in number (krrLambda I cannot be
      added to K), SingularMatrix when the solver fails; otherwise alpha. */
  function TrainedAlpha(descr: Matrix, target: seq<real>, mlMethod: string, kernel: string, sigma: real,
                        krrLambda: real, math: Transcendentals, solve: Solver): Result<seq<real>>
  {
    if |descr| == 0 then Err(EmptyTrainingSet)
    else if mlMethod != "krr" then Err(UnknownMlMethod(mlMethod))
    else
      var k :- KernelMatrix(kernel, sigma, descr, descr, math);
      if |target| != |descr| then Err(ShapeMismatch)
      else
        match solve(AddDiagonal(k, krrLambda), target)
        case None => Err(SingularMatrix)
        case Some(alpha) => Ok(alpha)
  }

  /** Training fails on an empty training set first, on a method other than "krr" next, and
      succeeds only for a known kernel with as many targets as descriptors. */
  lemma TrainedAlphaErrors(descr: Matrix, target: seq<real>, mlMethod: string, kernel: string, sigma: real,
                           krrLambda: real, math: Transcendentals, solve: Solver)
    ensures |descr| == 0 ==> TrainedAlpha(descr, target, mlMethod, kernel, sigma, krrLambda, math, solve) == Err(EmptyTrainingSet)
    ensures |descr| > 0 && mlMethod != "krr" ==>
      TrainedAlpha(descr, target, mlMethod, kernel, sigma, krrLambda, math, solve) == Err(UnknownMlMethod(mlMethod))
    ensures |descr| > 0 && mlMethod == "krr" && !KnownKernel(kernel) ==>
      TrainedAlpha(descr, target, mlMethod, kernel, sigma, krrLambda, math, solve) == Err(UnknownKernel(kernel))
    ensures TrainedAlpha(descr, target, mlMethod, kernel, sigma, krrLambda, math, solve).Ok? ==>
      |descr| > 0 && mlMethod == "krr" && KnownKernel(kernel) && sigma != 0.0 && |target| == |descr|
  {}

  /** With an exact solver, the trained alpha solves (K + krrLambda I) alpha = target, K being the
      kernel between every pair of training descriptors. */
  lemma TrainedAlphaSolves(descr: Matrix, target: seq<real>, mlMethod: string, kernel: string, sigma: real,
                           krrLambda: real, math: Transcendentals, solve: Solver)
    requires ExactSolver(solve)
    requires TrainedAlpha(descr, target, mlMethod, kernel, sigma, krrLambda, math, solve).Ok?
    ensures KernelMatrix(kernel, sigma, descr, descr, math).Ok?
    ensures var alpha := TrainedAlpha(descr, target, mlMethod, kernel, sigma, krrLambda, math, solve).value;
      var k := KernelMatrix(kernel, sigma, descr, descr, math).value;
      Square(k) && |k| == |descr| == |alpha| && MatVec(AddDiagonal(k, krrLambda), alpha) == target
  {
    var k := KernelMatrix(kernel, sigma, descr, descr, math).value;
    KernelMatrixProperties(kernel, sigma, descr, descr, math);
    var r := AddDiagonal(k, krrLambda);
    assert IsMatrix(r, |target|, |target|);
  }

  /** The regularised training kernel K + krrLambda I is symmetric, with 1 + krrLambda on its
      diagonal (exp(0) = 1 for both kernels). */
  lemma TrainingKernelShape(kernel: string, sigma: real, krrLambda: real, descr: Matrix, math: Transcendentals)
    requires Lawful(math) && KernelMatrix(kernel, sigma, descr, descr, math).Ok?
    ensures var k := KernelMatrix(kernel, sigma, descr, descr, math).value;
      Square(k) && Symmetric(AddDiagonal(k, krrLambda)) &&
      forall i :: 0 <= i < |descr| ==> AddDiagonal(k, krrLambda)[i][i] == 1.0 + krrLambda
  {
    var k := KernelMatrix(kernel, sigma, descr, descr, math).value;
    KernelMatrixProperties(kernel, sigma, descr, descr, math);
    KernelSymmetric(kernel, sigma, descr, math);
    KernelDiagonalAndSign(kernel, sigma, descr, descr, math);
    var r := AddDiagonal(k, krrLambda);
    assert Symmetric(r) by {
      forall i, j | 0 <= i < |r| && 0 <= j < |r|
        ensures r[i][j] == r[j][i]
      {
        assert k[i][j] == k[j][i];
      }
    }
  }

  // ---------------------------------------------------------------------------------------
  // Prediction

  /** The prediction for descriptors xs from the training descriptors descr and alpha:
      UnknownMlMethod for a method other than "krr", the cross-kernel's error, ModelNotTrained
      without alpha, ShapeMismatch when alpha and descr differ in length; otherwise the
      cross-kernel applied to alpha. */
  function Predicted(xs: Matrix, descr: Matrix, alpha: Option<seq<real>>, mlMethod: string, kernel: string,
                     sigma: real, math: Transcendentals): Result<seq<real>>
  {
    if mlMethod != "krr" then Err(UnknownMlMethod(mlMethod))
    else
      var k :- KernelMatrix(kernel, sigma, xs, descr, math);
      if alpha.None? then Err(ModelNotTrained)
      else if |alpha.value| != |descr| then Err(ShapeMismatch)
      else
        KernelMatrixProperties(kernel, sigma, xs, descr, math);
        Ok(MatVec(k, alpha.value))
  }

  /** A prediction has one ratio per descriptor, ratio i being the sum over the training
      descriptors j of k(xs[i], descr[j]) alpha[j]; it exists exactly for the "krr" method, a
      usable cross-kernel and an alpha matching the training descriptors. */
  lemma PredictedProperties(xs: Matrix, descr: Matrix, alpha: Option<seq<real>>, mlMethod: string, kernel: string,
                            sigma: real, math: Transcendentals)
    ensures Predicted(xs, descr, alpha, mlMethod, kernel, sigma, math).Ok? <==>
      mlMethod == "krr" && KernelMatrix(kernel, sigma, xs, descr, math).Ok? && alpha.Some? && |alpha.value| == |descr|
    ensures Predicted(xs, descr, alpha, mlMethod, kernel, sigma, math).Ok? ==>
      var v := Predicted(xs, descr, alpha, mlMethod, kernel, sigma, math).value;
      |v| == |xs| &&
      forall i :: 0 <= i < |xs| ==>
        |xs[i]| == |descr[0]| &&
        v[i] == Dot(seq(|descr|, j requires 0 <= j < |descr| => KernelValue(kernel, sigma, xs[i], descr[j], math)), alpha.value)
  {
    if Predicted(xs, descr, alpha, mlMethod, kernel, sigma, math).Ok? {
      KernelMatrixProperties(kernel, sigma, xs, descr, math);
      var k := KernelMatrix(kernel, sigma, xs, descr, math).value;
      forall i | 0 <= i < |xs|
        ensures k[i] == seq(|descr|, j requires 0 <= j < |descr| => KernelValue(kernel, sigma, xs[i], descr[j], math))
      {
      }
    }
  }

  /** Each descriptor is predicted on its own: the ratio of descriptor i is the prediction for
      the one-descriptor list [xs[i]]. */
  lemma PredictedRowwise(xs: Matrix, descr: Matrix, alpha: Option<seq<real>>, kernel: string, sigma: real,
                         math: Transcendentals, i: nat)
    requires Predicted(xs, descr, alpha, "krr", kernel, sigma, math).Ok? && i < |xs|
    ensures Predicted([xs[i]], descr, alpha, "krr", kernel, sigma, math).Ok?
    ensures Predicted([xs[i]], descr, alpha, "krr", kernel, sigma, math).value ==
      [Predicted(xs, descr, alpha, "krr", kernel, sigma, math).value[i]]
  {
    PredictedProperties(xs, descr, alpha, "krr", kernel, sigma, math);
    PredictedProperties([xs[i]], descr, alpha, "krr", kernel, sigma, math);
    KernelMatrixProperties(kernel, sigma, xs, descr, math);
    KernelMatrixProperties(kernel, sigma, [xs[i]], descr, math);
  }

  /** Predicting the training descriptors with the trained alpha gives back each target less
      krrLambda times its alpha: the regularisation is the whole training error. */
  lemma PredictOnTraining(descr: Matrix, target: seq<real>, kernel: string, sigma: real, krrLambda: real,
                          math: Transcendentals, solve: Solver, alpha: seq<real>)
    requires ExactSolver(solve)
    requires TrainedAlpha(descr, target, "krr", kernel, sigma, krrLambda, math, solve) == Ok(alpha)
    ensures Predicted(descr, descr, Some(alpha), "krr", kernel, sigma, math).Ok?
    ensures |Predicted(descr, descr, Some(alpha), "krr", kernel, sigma, math).value| == |target|
    ensures forall i :: 0 <= i < |target| ==>
      Predicted(descr, descr, Some(alpha), "krr", kernel, sigma, math).value[i] == target[i] - krrLambda * alpha[i]
  {
    TrainedAlphaSolves(descr, target, "krr", kernel, sigma, krrLambda, math, solve);
    var k := KernelMatrix(kernel, sigma, descr, descr, math).value;
    PredictedIsProduct(descr, descr, alpha, kernel, sigma, math, k);
    TrainingResidual(k, krrLambda, alpha, target);
  }

  /** If (K + krrLambda I) alpha = target then K alpha = target - krrLambda alpha. */
  lemma TrainingResidual(k: Matrix, krrLambda: real, alpha: seq<real>, target: seq<real>)
    requires Square(k) && |alpha| == |k| == |target|
    requires MatVec(AddDiagonal(k, krrLambda), alpha) == target
    ensures forall i :: 0 <= i < |target| ==> MatVec(k, alpha)[i] == target[i] - krrLambda * alpha[i]
  {
    MatVecAddDiagonal(k, krrLambda, alpha);
  }

  lemma PredictedIsProduct(xs: Matrix, descr: Matrix, alpha: seq<real>, kernel: string, sigma: real,
                           math: Transcendentals, k: Matrix)
    requires KernelMatrix(kernel, sigma, xs, descr, math) == Ok(k) && |alpha| == |descr|
    ensures IsMatrix(k, |xs|, |descr|)
    ensures Predicted(xs, descr, Some(alpha), "krr", kernel, sigma, math) == Ok(MatVec(k, alpha))
  {
    KernelMatrixProperties(kernel, sigma, xs, descr, math);
  }

  // ---------------------------------------------------------------------------------------
  // Ratios read from files

  /** The field the ratio is read from: field 4 of a line with exactly six fields. */
  function LineField(line: string): seq<string> {
    var f := Fields(line);
    if |f| == 6 then [f[4]] else []
  }

  /** The selected fields of the lines, in line order. */
  function SelectedFields(lines: seq<string>): seq<string> {
    if |lines| == 0 then [] else SelectedFields(lines[..|lines| - 1]) + LineField(lines[|lines| - 1])
  }

  /** Selection works line by line, so it distributes over concatenation. */
  lemma {:induction false} SelectedFieldsAppend(a: seq<string>, b: seq<string>)
    ensures SelectedFields(a + b) == SelectedFields(a) + SelectedFields(b)
    decreases |b|
  {
    if |b| == 0 {
      assert a + b == a;
    } else {
      assert (a + b)[..|a + b| - 1] == a + b[..|b| - 1];
      SelectedFieldsAppend(a, b[..|b| - 1]);
    }
  }

  /** A line of six single-space-separated words, with its newline, contributes its fifth word;
      a line of any other number of words contributes nothing. */
  lemma LineFieldOfWords(ws: seq<string>)
    requires forall k :: 0 <= k < |ws| ==> |ws[k]| > 0 && NoSpace(ws[k])
    ensures LineField(Join(ws) + "\n") == (if |ws| == 6 then [ws[4]] else [])
  {
    FieldsJoin(ws, "\n");
  }

  /** The floats the fields spell, in order; the first field that is not a float ends the scan
      with BadFloat. */
  function RatiosOf(fields: seq<string>, parse: string -> Option<real>): Result<seq<real>> {
    if |fields| == 0 then Ok([])
    else
      var prev :- RatiosOf(fields[..|fields| - 1], parse);
      match parse(fields[|fields| - 1])
      case None => Err(BadFloat(fields[|fields| - 1]))
      case Some(v) => Ok(prev + [v])
  }

  /** The ratios exist exactly when every field parses, and are then the parsed fields in
      order; otherwise the error names the first field that does not parse. */
  lemma {:induction false} RatiosOfCharacterized(fields: seq<string>, parse: string -> Option<real>)
    ensures RatiosOf(fields, parse).Ok? <==> forall i :: 0 <= i < |fields| ==> parse(fields[i]).Some?
    ensures RatiosOf(fields, parse).Ok? ==>
      |RatiosOf(fields, parse).value| == |fields| &&
      forall i :: 0 <= i < |fields| ==> RatiosOf(fields, parse).value[i] == parse(fields[i]).value
    ensures RatiosOf(fields, parse).Err? ==>
      exists j :: 0 <= j < |fields| && parse(fields[j]).None? && RatiosOf(fields, parse).error == BadFloat(fields[j]) &&
        forall i :: 0 <= i < j ==> parse(fields[i]).Some?
  {
    if |fields| > 0 {
      var init := fields[..|fields| - 1];
      RatiosOfCharacterized(init, parse);
      if RatiosOf(init, parse).Err? {
        var j :| 0 <= j < |init| && parse(init[j]).None? && RatiosOf(init, parse).error == BadFloat(init[j]) &&
          forall i :: 0 <= i < j ==> parse(init[i]).Some?;
        assert fields[j] == init[j];
      }
    }
  }

  /** A failure stays a failure, with the same error, whatever fields follow. */
  lemma {:induction false} RatiosOfFailurePersists(a: seq<string>, b: seq<string>, parse: string -> Option<real>)
    requires RatiosOf(a, parse).Err?
    ensures RatiosOf(a + b, parse) == RatiosOf(a, parse)
    decreases |b|
  {
    if |b| == 0 {
      assert a + b == a;
    } else {
      assert (a + b)[..|a + b| - 1] == a + b[..|b| - 1];
      RatiosOfFailurePersists(a, b[..|b| - 1], parse);
    }
  }

  /** The file a descriptor file name is read from: the directory prefix followed by the
      name's last path component. */
  function RatioFile(filepath: string, xyz: string): string {
    filepath + Basename(xyz)
  }

  /** The lines of the files, file after file. */
  function Flatten(files: seq<seq<string>>): seq<string> {
    if |files| == 0 then [] else Flatten(files[..|files| - 1]) + files[|files| - 1]
  }

  lemma {:induction false} FlattenAppend(a: seq<seq<string>>, b: seq<seq<string>>)
    ensures Flatten(a + b) == Flatten(a) + Flatten(b)
    decreases |b|
  {
    if |b| == 0 {
      assert a + b == a;
    } else {
      assert (a + b)[..|a + b| - 1] == a + b[..|b| - 1];
      FlattenAppend(a, b[..|b| - 1]);
    }
  }

  /** The contents of the ratio file of every structure file, in order. */
  function RatioFiles(filepath: string, xyz: seq<string>, read: string -> seq<string>): (files: seq<seq<string>>)
    ensures |files| == |xyz| && forall k :: 0 <= k < |xyz| ==> files[k] == read(RatioFile(filepath, xyz[k]))
  {
    seq(|xyz|, k requires 0 <= k < |xyz| => read(RatioFile(filepath, xyz[k])))
  }

  /** The files of a concatenated structure list are the files of each part, in order. */
  lemma RatioFilesAppend(filepath: string, xs: seq<string>, ys: seq<string>, read: string -> seq<string>)
    ensures RatioFiles(filepath, xs + ys, read) == RatioFiles(filepath, xs, read) + RatioFiles(filepath, ys, read)
  {
    var l, r := RatioFiles(filepath, xs, read), RatioFiles(filepath, ys, read);
    forall k | 0 <= k < |xs| + |ys|
      ensures RatioFiles(filepath, xs + ys, read)[k] == (l + r)[k]
    {
      if k >= |xs| {
        assert (xs + ys)[k] == ys[k - |xs|];
      }
    }
  }

  /** The ratios of file mode: field 4 of every six-field line of every ratio file, in order. */
  function FileRatios(filepath: string, xyz: seq<string>, read: string -> seq<string>,
                      parse: string -> Option<real>): Result<seq<real>>
  {
    RatiosOf(SelectedFields(Flatten(RatioFiles(filepath, xyz, read))), parse)
  }

  /** Reads the ratios file by file, appending the float of field 4 of every six-field line. */
  method ReadRatios(filepath: string, xyz: seq<string>, read: string -> seq<string>, parse: string -> Option<real>)
    returns (r: Result<seq<real>>)
    ensures r == FileRatios(filepath, xyz, read, parse)
  {
    ghost var files := RatioFiles(filepath, xyz, read);
    var ratios: seq<real> := [];
    for k := 0 to |xyz|
      invariant RatiosOf(SelectedFields(Flatten(files[..k])), parse) == Ok(ratios)
    {
      var lines := read(RatioFile(filepath, xyz[k]));
      ghost var before := Flatten(files[..k]);
      var next := ScanLines(lines, parse, before, ratios);
      assert files[..k + 1][..k] == files[..k];
      assert Flatten(files[..k + 1]) == before + lines;
      if next.Err? {
        assert lines[..|lines|] == lines;
        ReadFailure(files, k, before + lines[..|lines|], |lines|, parse);
        return next;
      }
      ratios := next.value;
    }
    assert files[..|xyz|] == files;
    return Ok(ratios);
  }

  /** Reads the lines of one file after the lines before, appending the float of field 4 of
      every six-field line to the ratios read so far. */
  method ScanLines(lines: seq<string>, parse: string -> Option<real>, ghost before: seq<string>, ratios: seq<real>)
    returns (r: Result<seq<real>>)
    requires RatiosOf(SelectedFields(before), parse) == Ok(ratios)
    ensures r == RatiosOf(SelectedFields(before + lines), parse)
  {
    var acc := ratios;
    assert before + lines[..0] == before;
    for i := 0 to |lines|
      invariant RatiosOf(SelectedFields(before + lines[..i]), parse) == Ok(acc)
    {
      ScanStep(before, lines, i);
      var next := ScanLine(lines[i], parse, before + lines[..i], acc);
      if next.Err? {
        ScanFailure(before, lines, i + 1, parse);
        return next;
      }
      acc := next.value;
    }
    assert lines[..|lines|] == lines;
    return Ok(acc);
  }

  /** Reads one line after the lines done: appends the float of its field 4 when it has six
      fields. */
  method ScanLine(line: string, parse: string -> Option<real>, ghost done: seq<string>, acc: seq<real>)
    returns (r: Result<seq<real>>)
    requires RatiosOf(SelectedFields(done), parse) == Ok(acc)
    ensures r == RatiosOf(SelectedFields(done + [line]), parse)
  {
    var selected := LineField(line);
    SelectedFieldsStep(done, line);
    if |selected| == 0 {
      assert SelectedFields(done) + selected == SelectedFields(done);
      return Ok(acc);
    }
    RatiosOfStep(SelectedFields(done), selected[0], parse);
    assert selected == [selected[0]];
    var v := parse(selected[0]);
    if v.None? {
      return Err(BadFloat(selected[0]));
    }
    return Ok(acc + [v.value]);
  }

  lemma SplitAt<T>(a: seq<T>, b: seq<T>, i: nat)
    requires i <= |b|
    ensures a + b == (a + b[..i]) + b[i..]
  {
    assert b == b[..i] + b[i..];
  }

  lemma ScanStep(before: seq<string>, lines: seq<string>, i: nat)
    requires i < |lines|
    ensures before + lines[..i + 1] == (before + lines[..i]) + [lines[i]]
  {
    assert lines[..i + 1] == lines[..i] + [lines[i]];
  }

  lemma RatiosOfStep(fields: seq<string>, f: string, parse: string -> Option<real>)
    ensures RatiosOf(fields + [f], parse) ==
      match RatiosOf(fields, parse)
      case Err(e) => Err(e)
      case Ok(prev) => if parse(f).None? then Err(BadFloat(f)) else Ok(prev + [parse(f).value])
  {
    assert (fields + [f])[..|fields|] == fields;
  }

  lemma SelectedFieldsStep(done: seq<string>, line: string)
    ensures SelectedFields(done + [line]) == SelectedFields(done) + LineField(line)
  {
    assert (done + [line])[..|done|] == done;
  }

  lemma ScanFailure(before: seq<string>, lines: seq<string>, i: nat, parse: string -> Option<real>)
    requires i <= |lines| && RatiosOf(SelectedFields(before + lines[..i]), parse).Err?
    ensures RatiosOf(SelectedFields(before + lines), parse) == RatiosOf(SelectedFields(before + lines[..i]), parse)
  {
    SplitAt(before, lines, i);
    SelectedFieldsAppend(before + lines[..i], lines[i..]);
    RatiosOfFailurePersists(SelectedFields(before + lines[..i]), SelectedFields(lines[i..]), parse);
  }

  /** Once the lines read so far fail to give ratios, so do all the lines. */
  lemma ReadFailure(files: seq<seq<string>>, k: nat, done: seq<string>, i: nat, parse: string -> Option<real>)
    requires k < |files| && i <= |files[k]|
    requires done == Flatten(files[..k]) + files[k][..i]
    requires RatiosOf(SelectedFields(done), parse).Err?
    ensures RatiosOf(SelectedFields(Flatten(files)), parse) == RatiosOf(SelectedFields(done), parse)
  {
    var rest := FlattenSplit(files, k, i);
    SelectedFieldsAppend(done, rest);
    RatiosOfFailurePersists(SelectedFields(done), SelectedFields(rest), parse);
  }

  /** The lines of the files split after line i of file k. */
  lemma FlattenSplit(files: seq<seq<string>>, k: nat, i: nat) returns (rest: seq<string>)
    requires k < |files| && i <= |files[k]|
    ensures Flatten(files) == (Flatten(files[..k]) + files[k][..i]) + rest
  {
    var head, tail := files[..k + 1], files[k + 1..];
    assert files == head + tail;
    FlattenAppend(head, tail);
    assert head[..k] == files[..k];
    assert Flatten(head) == Flatten(files[..k]) + files[k];
    assert files[k] == files[k][..i] + files[k][i..];
    rest := files[k][i..] + Flatten(tail);
  }

  // ---------------------------------------------------------------------------------------
  // The molecule and the predictor

  /** The part of a molecule the predictor reads and writes: its structure file names, its
      Coulomb-matrix descriptors (one per atom), its reference ratios and its predicted ratios. */
  class Molecule {
    const xyz: seq<string>
    var coulombMat: Matrix
    var hirshfeldRef: seq<real>
    var hirshfeldRatios: seq<real>

    constructor(xyz: seq<string>, coulombMat: Matrix, hirshfeldRef: seq<real>)
      ensures this.xyz == xyz && this.coulombMat == coulombMat && this.hirshfeldRef == hirshfeldRef
      ensures hirshfeldRatios == []
    {
      this.xyz := xyz;
      this.coulombMat := coulombMat;
      this.hirshfeldRef := hirshfeldRef;
      hirshfeldRatios := [];
    }
  }

  /** The ratios a molecule is given: read from files in file mode, predicted otherwise. */
  function MoleculeRatios(fromFile: string, filepath: string, xyz: seq<string>, coulombMat: Matrix,
                          descr: Matrix, alpha: Option<seq<real>>, mlMethod: string, kernel: string, sigma: real,
                          math: Transcendentals, read: string -> seq<string>, parse: string -> Option<real>): Result<seq<real>>
  {
    if fromFile == "True" then FileRatios(filepath, xyz, read, parse)
    else Predicted(coulombMat, descr, alpha, mlMethod, kernel, sigma, math)
  }

  /** In file mode the training state and the method play no part; otherwise the files play
      none. */
  lemma MoleculeRatiosSources(fromFile: string, filepath: string, xyz: seq<string>, coulombMat: Matrix,
                              descr: Matrix, alpha: Option<seq<real>>, mlMethod: string, kernel: string, sigma: real,
                              math: Transcendentals, read: string -> seq<string>, parse: string -> Option<real>,
                              descr': Matrix, alpha': Option<seq<real>>, mlMethod': string, read': string -> seq<string>)
    ensures fromFile == "True" ==>
      MoleculeRatios(fromFile, filepath, xyz, coulombMat, descr, alpha, mlMethod, kernel, sigma, math, read, parse) ==
      MoleculeRatios(fromFile, filepath, xyz, coulombMat, descr', alpha', mlMethod', kernel, sigma, math, read, parse)
    ensures fromFile != "True" ==>
      MoleculeRatios(fromFile, filepath, xyz, coulombMat, descr, alpha, mlMethod, kernel, sigma, math, read, parse) ==
      MoleculeRatios(fromFile, filepath, xyz, coulombMat, descr, alpha, mlMethod, kernel, sigma, math, read', parse)
  {}

  /** The Hirshfeld-ratio predictor: its settings and its training state. */
  class Predictor {
    const krrKernel: string
    const krrSigma: real
    const krrLambda: real
    const fromFile: string
    const filepath: string
    const math: Transcendentals
    var descrTrain: Matrix
    var targetTrain: seq<real>
    var alphaTrain: Option<seq<real>>

    /** Every training descriptor has its target. */
    ghost predicate Paired()
      reads this
    {
      |descrTrain| == |targetTrain|
    }

    constructor(krrKernel: string, krrSigma: real, krrLambda: real, fromFile: string, filepath: string,
                math: Transcendentals)
      ensures this.krrKernel == krrKernel && this.krrSigma == krrSigma && this.krrLambda == krrLambda
      ensures this.fromFile == fromFile && this.filepath == filepath && this.math == math
      ensures descrTrain == [] && targetTrain == [] && alphaTrain == None
      ensures Paired()
    {
      this.krrKernel := krrKernel;
      this.krrSigma := krrSigma;
      this.krrLambda := krrLambda;
      this.fromFile := fromFile;
      this.filepath := filepath;
      this.math := math;
      descrTrain := [];
      targetTrain := [];
      alphaTrain := None;
    }

    /** Replaces the descriptors and alpha with stored ones, except in file mode, which needs
        no model; the targets are left as they are. */
    method LoadMl(stored: (Matrix, seq<real>))
      modifies this`descrTrain, this`alphaTrain
      ensures fromFile == "True" ==> descrTrain == old(descrTrain) && alphaTrain == old(alphaTrain)
      ensures fromFile != "True" ==> descrTrain == stored.0 && alphaTrain == Some(stored.1)
    {
      if fromFile == "True" {
        return;
      }
      descrTrain, alphaTrain := stored.0, Some(stored.1);
    }

    /** Adds a molecule's descriptors and reference ratios to the training set, refusing a
        molecule whose ratios and descriptors differ in number; descriptors and targets stay
        paired. */
    method AddMolToTraining(mol: Molecule) returns (e: Option<Error>)
      modifies this`descrTrain, this`targetTrain
      ensures |mol.hirshfeldRef| != |mol.coulombMat| ==>
        e == Some(InconsistentTrainingData) && descrTrain == old(descrTrain) && targetTrain == old(targetTrain)
      ensures |mol.hirshfeldRef| == |mol.coulombMat| ==>
        e == None && descrTrain == old(descrTrain) + mol.coulombMat && targetTrain == old(targetTrain) + mol.hirshfeldRef
      ensures old(Paired()) ==> Paired()
    {
      if |mol.hirshfeldRef| != |mol.coulombMat| {
        return Some(InconsistentTrainingData);
      }
      descrTrain := descrTrain + mol.coulombMat;
      targetTrain := targetTrain + mol.hirshfeldRef;
      return None;
    }

    /** Trains the model: on success alpha is the solver's answer for K + krrLambda I and the
        targets; on failure alpha is left as it was. */
    method TrainMl(mlMethod: string, solve: Solver) returns (e: Option<Error>)
      modifies this`alphaTrain
      ensures var t := TrainedAlpha(descrTrain, targetTrain, mlMethod, krrKernel, krrSigma, krrLambda, math, solve);
        (t.Ok? ==> e == None && alphaTrain == Some(t.value)) &&
        (t.Err? ==> e == Some(t.error) && alphaTrain == old(alphaTrain))
    {
      if |descrTrain| == 0 {
        return Some(EmptyTrainingSet);
      }
      if mlMethod != "krr" {
        return Some(UnknownMlMethod(mlMethod));
      }
      var k := KernelMatrix(krrKernel, krrSigma, descrTrain, descrTrain, math);
      if k.Err? {
        return Some(k.error);
      }
      if |targetTrain| != |descrTrain| {
        return Some(ShapeMismatch);
      }
      KernelMatrixProperties(krrKernel, krrSigma, descrTrain, descrTrain, math);
      var alpha := solve(AddDiagonal(k.value, krrLambda), targetTrain);
      if alpha.None? {
        return Some(SingularMatrix);
      }
      alphaTrain := alpha;
      return None;
    }

    /** Gives the molecule its Hirshfeld ratios, read from files in file mode and predicted
        from the training state otherwise; on failure the molecule's ratios are left as they
        were. */
    method PredictMol(mol: Molecule, mlMethod: string, read: string -> seq<string>, parse: string -> Option<real>)
      returns (e: Option<Error>)
      modifies mol`hirshfeldRatios
      ensures var p := MoleculeRatios(fromFile, filepath, mol.xyz, mol.coulombMat, descrTrain, alphaTrain, mlMethod,
                                      krrKernel, krrSigma, math, read, parse);
        (p.Ok? ==> e == None && mol.hirshfeldRatios == p.value) &&
        (p.Err? ==> e == Some(p.error) && mol.hirshfeldRatios == old(mol.hirshfeldRatios))
    {
      if fromFile == "True" {
        var ratios := ReadRatios(filepath, mol.xyz, read, parse);
        if ratios.Err? {
          return Some(ratios.error);
        }
        mol.hirshfeldRatios := ratios.value;
        return None;
      }
      if mlMethod != "krr" {
        return Some(UnknownMlMethod(mlMethod));
      }
      var k := KernelMatrix(krrKernel, krrSigma, mol.coulombMat, descrTrain, math);
      if k.Err? {
        return Some(k.error);
      }
      if alphaTrain.None? {
        return Some(ModelNotTrained);
      }
      if |alphaTrain.value| != |descrTrain| {
        return Some(ShapeMismatch);
      }
      KernelMatrixProperties(krrKernel, krrSigma, mol.coulombMat, descrTrain, math);
      mol.hirshfeldRatios := MatVec(k.value, alphaTrain.value);
      return None;
    }
  }
}
