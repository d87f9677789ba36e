# cliff: dispersion, Coulomb-matrix descriptors and Hirshfeld-ratio regression in Dafny

This project models the core of cliff, a force field for intermolecular energies built from
atomic properties that are learned by machine learning. It covers four parts:

- **The Tang-Toennies dispersion component** (`DispersionComponent.Dispersion`). It collects
  monomers and, for the first two, fills three coefficient matrices:
  - C6 by the combining rule over free-atom C6 values and polarizabilities scaled by the
    Hirshfeld ratios;
  - C8 from C6 and the atoms' `<r^4>/<r^2>` moments;
  - C10 = (49/40) C8² / C6.

  It then damps every pair term with the Tang-Toennies function, sums the pair energies and keeps
  each one, in kcal/mol, in a decomposition array.

  The methods work on `array2<real>` and loop as the source does. Each one is proved against
  pure functions (modules `TangToennies` and `Passes`). These functions fix the row-major order
  in which the loops meet their first error. The properties are proved about those functions:
  - symmetry and self-consistency of the combining rule;
  - the signs of the coefficients;
  - the damping function lies in [0, 1) and decreases with its order;
  - the dispersion energy is attractive;
  - the exact conditions under which the passes succeed.
- **The Coulomb-matrix descriptor and its helpers** (`Coulomb`, `Reorder`, `Sorting`, `Labels`,
  `Utils`):
  - atoms are reordered by distance to a central atom or to the centre of mass (argsort,
    zero-padded rows, an optional swap step);
  - atomic numbers are read from atom-type labels;
  - the max_neighbors × max_neighbors Coulomb matrix is built, zero-padded and flattened to its
    upper triangle;
  - quadrupoles are converted between spherical and Cartesian form in both conventions;
  - `symmetrize` and `merge_two_dicts`.
- **The Hirshfeld-ratio predictor** (`Hirshfeld`, `Kernels`, `Text`):
  - a paired training set grown molecule by molecule;
  - kernel-ridge training (a Gaussian or Laplacian kernel, λ on the diagonal, a linear solve given
    as a parameter);
  - prediction as the cross-kernel applied to α;
  - file mode, where field 4 of every six-field line of the ratio files is read.
- **The constant tables** (`Constants`) as `map` constants, with lemmas about their key sets and
  signs.

Numbers are Dafny `real`s.
- `exp`, `sqrt` and `z ↦ z**2.4` are fields of a `Numerics.Transcendentals` value passed in as a
  parameter. The few facts some properties need are gathered in `Numerics.Lawful`: exp(0) = 1,
  exp > 0, the Taylor bound, and that sqrt is the non-negative square root.
- Every raised exception, and every `logger.error` followed by `exit(1)`, becomes an `Err`
  value of `Results.Error`.
- A division by zero that numpy would turn into `inf`/`nan` is also an `Err(ZeroDivision)`. This
  covers, for instance, coincident atoms in the Coulomb matrix and σ = 0 in a kernel; "## Left out"
  lists every case.

## Model

| member | source | states |
|---|---|---|
| Constants.UnitConstants | cliff/helpers/constants.py:4-13 | au2kcalmol, a2b and the rounded sqrt 3 are positive |
| Constants.R2R4Tables | cliff/helpers/constants.py:90-111 | `atomic_r2` and `atomic_r4` have the same keys {C, Cl, F, H, N, O, S, Br} and positive entries; every such element has an atomic number, a polarizability and a free-atom C6 |
| Constants.FreeAtomKeys | cliff/helpers/constants.py:36-70 | `pol_free` and `csix_free` have the same key set |
| Constants.FreeAtomPositive | cliff/helpers/constants.py:36-70 | every free-atom polarizability and C6 is strictly positive |
| Constants.R2ElementsAreFree | cliff/helpers/constants.py:22-111 | every element the C8 step accepts is accepted by the C6 step |
| Constants.NoC8Elements | cliff/helpers/constants.py:22-98 | He, Ne, Si, Ar and Kr have a polarizability but no atomic number and no `<r^2>` |
| Constants.AtomicTables | cliff/helpers/constants.py:113-125 | `atomic_number` and `atomic_weight` share their keys; numbers are at least 1 and weights positive; B, P and I have no `<r^2>` |
| Constants.AtomTypeTables | cliff/helpers/constants.py:238-316 | `disp_coeffs`, `elst_cp_exp`, `indu_sr_params` and `exch_int_params` have the same 17 atom types |
| Constants.DispCoeffsPositive | cliff/helpers/constants.py:298-316 | every `disp_coeffs` value is positive |
| Constants.KernelTables | cliff/helpers/constants.py:210-223 | the `ml_*` tables are keyed by {gaussian, laplacian}: gaussian ↦ (euclidean, 2.0, 2), laplacian ↦ (cityblock, 1.0, 1) |
| Constants.DefaultTablesSound | cliff/helpers/constants.py:22-111 | the built-in tables satisfy everything the dispersion model relies on |
| Results.LookupAgrees | cliff/components/dispersion.py:146-153 | a dict subscript depends only on the key's presence and its value: two dicts that agree on the key give the same value or the same KeyError |
| Results.LookupUpdate | cliff/components/dispersion.py:146-153 | after storing v under k, reading k gives v and reading any other key gives what it gave before |
| Numerics.ExpSeriesAtZero | cliff/components/dispersion.py:119-122 | the truncated series is 1 at x = 0 |
| Numerics.ExpSeriesMonotone | cliff/components/dispersion.py:119-122 | for x ≥ 0 the partial sums are at least 1 and grow with the order |
| Geometry.SqDistProperties | cliff/helpers/utils.py:175-176 | the squared distance is symmetric and non-negative |
| Folds.CollectCharacterized | cliff/components/dispersion.py:144-155 | a loop that stops at its first error succeeds exactly when every step does, and then holds every value in order |
| Folds.CollectFailurePersists | cliff/components/dispersion.py:144-155 | once such a loop has failed, later steps do not change its error |
| Folds.CollectFailureAt | cliff/components/dispersion.py:144-155 | the first failing step, after a successful prefix, is the loop's error |
| Folds.CollectErrorFromItem | cliff/components/dispersion.py:144-155 | a failed loop reports the error of one of its steps |
| Matrices.MatrixSumScale | cliff/components/dispersion.py:87-90 | scaling every entry scales the total, so the sum of the kcal/mol entries is the converted hartree total |
| Matrices.MatrixSumNonPositive | cliff/components/dispersion.py:87 | a matrix with no positive entry has a non-positive sum |
| Matrices.MatVecLinear | cliff/atomic_properties/hirshfeld.py:109 | `np.dot(kmat, alpha)` is linear in α: it maps a sum to the sum and a scaled vector to the scaled product |
| Matrices.AddDiagonalCompose | cliff/atomic_properties/hirshfeld.py:73 | adding a I and then b I is adding (a + b) I |
| Matrices.AddDiagonalZeroSymmetric | cliff/atomic_properties/hirshfeld.py:73 | adding 0 I changes nothing, and the regularized kernel matrix stays symmetric |
| Matrices.MatVecAddDiagonal | cliff/atomic_properties/hirshfeld.py:73-74 | (K + λI) x = K x + λ x, entry by entry |
| Matrices.TransposeInvolution | cliff/helpers/utils.py:468 | transposing twice gives back the matrix |
| Matrices.TransposeSymmetric | cliff/helpers/utils.py:468 | a square matrix equals its transpose exactly when it is symmetric |
| TangToennies.TTDenominatorPositive | cliff/components/dispersion.py:116 | the denominator of the damping argument never vanishes |
| TangToennies.SystemsJobFirstTwo | cliff/components/dispersion.py:51-52 | fewer than two systems is an IndexError; only the first two systems are read |
| TangToennies.Coefficients | cliff/components/dispersion.py:55-57 | when the three passes succeed, their matrices have one row per atom of the first system and one column per atom of the second |
| TangToennies.EnergyMatrix | cliff/components/dispersion.py:64-90 | a successful energy pass is an N_i × N_j matrix |
| Passes.RowCharacterized | cliff/components/dispersion.py:144-155 | a row succeeds exactly when its start and every pair in it do, and then holds the pairs' values |
| Passes.SweepCharacterized | cliff/components/dispersion.py:144-155 | a pass succeeds exactly when no row start and no pair fails, and its entries are then the pairs' values |
| Passes.GridRows | cliff/components/dispersion.py:144-155 | the rows of a successful prefix are the rows' own results |
| Passes.RowFailureEndsPass | cliff/components/dispersion.py:144-155 | a failed row after successful rows is the pass's error |
| Passes.RowStartFailureEndsPass | cliff/components/dispersion.py:173-177 | a failed lookup at the start of row A (e.g. `atomic_r2[ele_A]`) is the pass's error |
| Passes.PairFailureEndsPass | cliff/components/dispersion.py:151-155 | the first failing pair in row-major order is the pass's error |
| Passes.RowFailurePersists | cliff/components/dispersion.py:151-155 | once a row has failed, it keeps that error |
| Passes.GridFailurePersists | cliff/components/dispersion.py:144-155 | once the rows so far have failed, the pass keeps that error |
| Passes.C8CellValue | cliff/components/dispersion.py:189-191 | a C8 entry is the C6 entry times 3 sqrt(q_A q_B), or the error of the factor's lookups |
| Passes.C10SweepCharacterized | cliff/components/dispersion.py:208-210 | the C10 pass succeeds exactly when no C6 entry is zero, and otherwise fails with ZeroDivision |
| Passes.GridStep | cliff/components/dispersion.py:144-155 | a successful row extends the successful rows before it |
| CoefficientProperties.CombiningDenominatorSign | cliff/components/dispersion.py:155 | for positive effective C6 values, the denominator is positive when the polarizabilities agree in sign and negative otherwise |
| CoefficientProperties.CombinedC6Sign | cliff/components/dispersion.py:155 | the combined C6 is then non-zero, and positive when the signs agree |
| CoefficientProperties.SelfCombination | cliff/components/dispersion.py:155 | combining an atom with itself gives back its own C6 |
| CoefficientProperties.EffectiveSigns | cliff/components/dispersion.py:146-153 | h² C6_free is positive and h α_free has the sign of h |
| CoefficientProperties.C6SelfValues | cliff/components/dispersion.py:146-149 | an atom with a tabulated element and a non-zero ratio has a positive effective C6 and a polarizability of the ratio's sign |
| CoefficientProperties.C6PairDefined | cliff/components/dispersion.py:144-155 | a pair's C6 exists exactly when both elements have free-atom data and both ratios are non-zero; it is then non-zero |
| CoefficientProperties.C6PairPositive | cliff/components/dispersion.py:144-155 | ratios of one sign give a positive C6 |
| CoefficientProperties.C6PairSymmetric | cliff/components/dispersion.py:155 | the combining rule is symmetric in A and B, failures included |
| CoefficientProperties.C6PairSelf | cliff/components/dispersion.py:146-155 | an atom paired with itself gets h² csix_free, so a free atom (h = 1) gets csix_free |
| CoefficientProperties.DefaultC6PairDefined | cliff/components/dispersion.py:146-153 | with the built-in tables, C6 is defined exactly for the elements of `csix_free` |
| CoefficientProperties.R42Positive | cliff/components/dispersion.py:175-182 | `<r^4>/<r^2>` exists exactly for the tabulated elements and is positive |
| CoefficientProperties.C8FactorDefined | cliff/components/dispersion.py:175-191 | the C8 factor exists exactly when both elements have tabulated moments |
| CoefficientProperties.DefaultC8FactorDefined | cliff/components/dispersion.py:175-191 | with the built-in tables, the C8 factor is defined exactly for {C, Cl, F, H, N, O, S, Br} |
| CoefficientProperties.C8FormulaNonNegative | cliff/components/dispersion.py:189-191 | 3 sqrt(q_A q_B) ≥ 0, with non-negative square-root arguments |
| CoefficientProperties.C8FactorValue | cliff/components/dispersion.py:175-191 | the factor is 3 sqrt(q_A q_B) with q = sqrt(Z) `<r^4>/<r^2>` of each element |
| CoefficientProperties.C8FactorNonNegative | cliff/components/dispersion.py:189-191 | with a lawful sqrt the C8 factor is non-negative |
| CoefficientProperties.C10AfterC6 | cliff/components/dispersion.py:208-210 | the C10 division never fails on a successful C6 |
| CoefficientProperties.C10EntryNonNegative | cliff/components/dispersion.py:208-210 | with a positive C6, C10 exists and is non-negative |
| Damping.ArgumentClosedForm | cliff/components/dispersion.py:116 | x = u - (2u² + 3u)/(u² + 3u + 3) ≥ 0 for u = b r ≥ 0 |
| Damping.TTArgumentNonNegative | cliff/components/dispersion.py:114-116 | the damping argument is non-negative for r, b ≥ 0 |
| Damping.TTDampingAtContact | cliff/components/dispersion.py:113-124 | at r = 0, x = 0 and every damping function is 0 |
| Damping.TTDampingBounds | cliff/components/dispersion.py:113-124 | for r, b ≥ 0 and n ≤ m: 0 ≤ f_m ≤ f_n < 1 |
| Damping.ShareDecreasing | cliff/components/dispersion.py:116 | (2u + 3)/(u² + 3u + 3) does not increase for u ≥ 0 |
| Damping.ArgumentIncreasing | cliff/components/dispersion.py:116 | x(u) = u - (2u² + 3u)/(u² + 3u + 3) does not decrease for u ≥ 0 |
| Damping.TTArgumentMonotone | cliff/components/dispersion.py:114-116 | for a fixed decay rate b ≥ 0, the damping argument does not decrease as r grows |
| Energy.DispersionTermNonPositive | cliff/components/dispersion.py:84-85 | the pair formula is non-positive for non-negative coefficients, dampings and scalings at r > 0 |
| Energy.DistanceNonNegative | cliff/components/dispersion.py:74-75 | the norm of the scaled pbc vector is non-negative |
| Energy.PairDecayNonNegative | cliff/components/dispersion.py:67-78 | b_AB = sqrt(b_A b_B) is non-negative for positive valence widths |
| Energy.DampedTermNonPositive | cliff/components/dispersion.py:80-85 | the damped pair energy is non-positive |
| Energy.PairEnergyValue | cliff/components/dispersion.py:65-85 | a successful pair energy is -f6 C6/r⁶ - (f8 C8/r⁸ + f10 C10/r¹⁰) s[type_A] s[type_B], with the scaling looked up by atom type |
| Energy.PairEnergyNonPositive | cliff/components/dispersion.py:65-85 | each pair energy is attractive under positive widths, non-negative coefficients and scalings |
| Energy.C6PassPositive | cliff/components/dispersion.py:144-155 | positive ratios give a positive C6 matrix |
| Energy.C8PassNonNegative | cliff/components/dispersion.py:173-191 | a non-negative C6 matrix gives a non-negative C8 matrix |
| Energy.C10PassNonNegative | cliff/components/dispersion.py:208-210 | a positive C6 gives a non-negative C10 matrix |
| Energy.CoefficientSigns | cliff/components/dispersion.py:55-57 | positive ratios give C6 > 0, C8 ≥ 0 and C10 ≥ 0 everywhere |
| Energy.DispersionIsAttractive | cliff/components/dispersion.py:45-96 | every pair energy, and hence the total, is non-positive under positive ratios and widths and non-negative scalings |
| Energy.C6PassSucceeds | cliff/components/dispersion.py:144-155 | the C6 pass succeeds on supported monomers |
| Energy.C8PassSucceeds | cliff/components/dispersion.py:173-191 | the C8 pass succeeds on supported monomers |
| Energy.C10PassSucceeds | cliff/components/dispersion.py:202-212 | the C10 pass succeeds after a successful C6 pass |
| Energy.CoefficientsNeedSupport | cliff/components/dispersion.py:127-199 | successful passes over two non-empty monomers imply every atom is supported |
| Energy.CoefficientsDefined | cliff/components/dispersion.py:127-212 | for non-empty monomers, the passes succeed exactly when every element has moments and every ratio is non-zero |
| DispersionComponent.Dispersion.constructor | cliff/components/dispersion.py:16-31 | one system, an empty 0×0 decomposition, the given options |
| DispersionComponent.Dispersion.AddSystem | cliff/components/dispersion.py:33-34 | appends the system and changes nothing else |
| DispersionComponent.Dispersion.ComputeDispersion | cliff/components/dispersion.py:36-43 | for "TT", the Tang-Toennies energy times 627.5095, equal to the sum of the decomposition array; nothing, and no change, for any other method |
| DispersionComponent.Dispersion.ComputeTangToennies | cliff/components/dispersion.py:45-96 | returns the total of the pair energies, or the first error; the decomposition is a fresh N_i × N_j array holding each pair energy in kcal/mol |
| DispersionComponent.Dispersion.ComputeTTDamping | cliff/components/dispersion.py:99-124 | the loop computes 1 - exp(-x) Σ_{k≤n} x^k/k! |
| DispersionComponent.Dispersion.ComputeC6Coeffs | cliff/components/dispersion.py:127-157 | "Need at least two monomers" with fewer than two systems; otherwise a fresh N_i × N_j array equal to the C6 pass, or its first error |
| DispersionComponent.Dispersion.ComputeC8Coeffs | cliff/components/dispersion.py:159-199 | a fresh array of C6's shape equal to the C8 pass over that C6; the input is left unchanged |
| DispersionComponent.Dispersion.ComputeC10Coeffs | cliff/components/dispersion.py:202-212 | entry by entry (49/40) C8²/C6; fails with ZeroDivision exactly when some C6 entry is zero |
| DispersionComponent.SumExpSeries | cliff/components/dispersion.py:119-122 | the accumulated x_sum is the truncated series |
| DispersionComponent.FillC6 | cliff/components/dispersion.py:144-155 | the filled array is the C6 pass, or the pass's first error |
| DispersionComponent.FillC6Row | cliff/components/dispersion.py:151-155 | row A holds the row of the C6 pass and no other row changes |
| DispersionComponent.ScaleC8Rows | cliff/components/dispersion.py:173-191 | the scaled copy is the C8 pass, or its first error |
| DispersionComponent.ScaleC8Row | cliff/components/dispersion.py:178-191 | row A is scaled into the C8 pass's row and no other row changes |
| DispersionComponent.EnergyPair | cliff/components/dispersion.py:69-85 | the loop body computes the pair energy |
| DispersionComponent.EnergyRow | cliff/components/dispersion.py:68-90 | the running total grows by the row's sum, and row A of at_disp holds the row in kcal/mol |
| DispersionComponent.EnergyStep | cliff/components/dispersion.py:65-90 | one outer iteration keeps the running total equal to the sum of the rows done and at_disp equal to them in kcal/mol |
| DispersionComponent.EnergyLoop | cliff/components/dispersion.py:64-90 | the total is the sum of the energy matrix, and at_disp is that matrix times au2kcalmol |
| DispersionComponent.CoefficientArrays | cliff/components/dispersion.py:55-57 | the three arrays are the coefficient passes, or their first error |
| DispersionComponent.SumInKcal | cliff/components/dispersion.py:43 | converting the total equals summing the converted entries |
| Utils.MergeTwoDicts | cliff/helpers/utils.py:36-40 | the keys of both dicts; y's value where y has the key, x's elsewhere |
| Utils.MergeTwoDictsIdempotent | cliff/helpers/utils.py:36-40 | merging the same update again changes nothing; an empty update is a copy |
| Utils.SymmetrizeProperties | cliff/helpers/utils.py:467-468 | the result is symmetric, keeps a's diagonal and has a[i][j] + a[j][i] off it |
| Utils.SymmetrizeUpperTriangular | cliff/helpers/utils.py:467-468 | an upper-triangular matrix is completed to the symmetric matrix that agrees with it on and above the diagonal |
| Utils.SpherToCart | cliff/helpers/utils.py:297-314 | the 3×3 array written cell by cell is the Cartesian quadrupole of either convention |
| Utils.CartOfSpherShape | cliff/helpers/utils.py:299-313 | the Cartesian form is symmetric; its trace is zero in Stone's convention, and xx + yy = 0 in the other |
| Utils.SpherRoundTrip | cliff/helpers/utils.py:297-332 | cart_to_spher(spher_to_cart(q, s), s) == q in both conventions |
| Utils.CartRoundTrip | cliff/helpers/utils.py:297-332 | spher_to_cart(cart_to_spher(c, s), s) == c for every symmetric c in the convention's range |
| Utils.CartRoundTripStone | cliff/helpers/utils.py:297-332 | every entry of a traceless symmetric matrix comes back |
| Utils.CartRoundTripPlain | cliff/helpers/utils.py:297-332 | every entry of a symmetric matrix with xx + yy = 0 comes back |
| Labels.StripCharges | cliff/helpers/utils.py:258 | `re.sub('[0-9+-]', '', t)` keeps every other character and no digit or sign |
| Labels.StripChargesAppend | cliff/helpers/utils.py:258 | stripping distributes over concatenation |
| Labels.StripChargesIdempotent | cliff/helpers/utils.py:258 | stripping twice is stripping once |
| Labels.FirstUpper | cliff/helpers/utils.py:259 | the first upper-case position, or none |
| Labels.FirstElement | cliff/helpers/utils.py:259 | `re.findall('[A-Z][^A-Z]*', name)[0]`: from the first upper-case letter to the next one or the end; none without an upper-case letter |
| Labels.FirstElementOfSymbol | cliff/helpers/utils.py:259 | a symbol followed by nothing or by an upper-case letter is the first match |
| Labels.AtomicNumberOf | cliff/helpers/utils.py:257-265 | a table value; IndexError without an upper-case letter and UnknownElement for an unknown element, exactly in those cases |
| Labels.AtomicNumberOfLabel | cliff/helpers/utils.py:257-265 | a known symbol, then anything starting upper-case, then digits and signs, gives that element's number |
| Labels.ElementSymbols | cliff/helpers/constants.py:22-34 | every element symbol is an upper-case letter followed by lower-case letters |
| Labels.HydrogenTypes | cliff/helpers/utils.py:257-265 | "HC" and "HO" are hydrogen (1) |
| Labels.NumberedTypes | cliff/helpers/utils.py:257-265 | types numbered by bonding pattern keep their element: "C4" → 6, "N3" → 7 |
| Labels.TwoLetterElement | cliff/helpers/utils.py:257-265 | a two-letter element is read whole: "Cl" → 17 |
| Labels.AtomicNumbersCharacterized | cliff/helpers/utils.py:252-266 | the numbers exist exactly when there is a known label for each of the N atoms, and are then those labels' numbers in order |
| Labels.ExtractAtomicNumbers | cliff/helpers/utils.py:252-266 | the loop computes the atomic numbers, or the first failure |
| Sorting.InsertSorted | cliff/helpers/utils.py:177 | inserting into a key-sorted index list keeps it sorted |
| Sorting.InsertDistinct | cliff/helpers/utils.py:177 | inserting a new index keeps the list free of repetitions |
| Sorting.Argsort | cliff/helpers/utils.py:177 | the result lists exactly the indices 0..n-1 |
| Sorting.ArgsortProperties | cliff/helpers/utils.py:177 | argsort is a permutation of 0..n-1 in non-decreasing key order |
| Reorder.PythonIndex | cliff/helpers/utils.py:175 | `coords[central_atom_id]`: negative indices count from the end; IndexError exactly outside [-N, N) |
| Reorder.OrderByProperties | cliff/helpers/utils.py:173-184 | succeeds exactly when every atom has a type; reorder is then a permutation, in non-decreasing distance, with consistent rows and types, and zero rows past N |
| Reorder.ArgsortByDistance | cliff/helpers/utils.py:175-177 | an order sorted by the distance keys lists the atoms by non-decreasing distance |
| Reorder.FillRows | cliff/helpers/utils.py:178-180 | a zeroed M-row array with the first min(N, M) reordered atoms copied in |
| Reorder.TypesInOrder | cliff/helpers/utils.py:181-183 | the types in reorder order; IndexError exactly when there are fewer than N types |
| Reorder.OrderAround | cliff/helpers/utils.py:175-184 | the arrays and lists built are the ordering |
| Reorder.ReorderAtoms | cliff/helpers/utils.py:173-184 | reorder_atoms computes the ordering around the central atom |
| Reorder.SwapConsistent | cliff/helpers/utils.py:202-212 | swapping two positions in rows, types and reorder together keeps the ordering consistent |
| Reorder.OrderPairsFailsWhenPadded | cliff/helpers/utils.py:197-198 | as written, the ordered step fails with IndexError whenever N < max_neighbors |
| Reorder.OrderPairsFixedSucceeds | cliff/helpers/utils.py:197-212 | the intended step fails only on an unknown label among the atoms |
| Reorder.OrderPairsFixedConsistent | cliff/helpers/utils.py:197-212 | the intended step keeps reorder a permutation, with rows and types matching it |
| Reorder.OrderPairsFixedAgrees | cliff/helpers/utils.py:197-212 | the intended step is the written one when the molecule fills all max_neighbors rows |
| Reorder.SwapHeavierFirst | cliff/helpers/utils.py:199-204 | rows 0 and 1 are exchanged in place exactly when Z[1] > Z[0] |
| Reorder.SwapNearerPair | cliff/helpers/utils.py:205-212 | rows 2 and 3 are exchanged in place exactly when row 2 is nearer to row 1 than to row 0 |
| Reorder.OrderPairsInPlace | cliff/helpers/utils.py:197-212 | the in-place swaps compute the ordered step, or its error |
| Reorder.ReorderAtomsCom | cliff/helpers/utils.py:186-213 | reorder_atoms_com computes the ordering around the centre of mass, with the intended ordered step |
| Coulomb.RowStartClosedForm | cliff/helpers/utils.py:81 | row i of the upper triangle starts at i(2M - i + 1)/2 |
| Coulomb.TriangleSize | cliff/helpers/utils.py:81 | the upper triangle holds M(M + 1)/2 entries |
| Coulomb.UpperTriangleProperties | cliff/helpers/utils.py:81 | `d[np.triu_indices(M)]` has M(M + 1)/2 entries, with (i, j) at its row-major position |
| Coulomb.ResizedPrefix | cliff/helpers/utils.py:55 | resizing to M and keeping the first M' entries is resizing to M' |
| Coulomb.ResizedPadding | cliff/helpers/utils.py:55 | when Z has at most M entries, `Z.resize(M)` is Z followed by zeros up to length M |
| Coulomb.CoulombMatrixProperties | cliff/helpers/utils.py:56-78 | the matrix is symmetric, has 0.5 Z_i^2.4 on the diagonal for the atoms, and is zero in every row and column ≥ N |
| Coulomb.CoulombFromOrderedProperties | cliff/helpers/utils.py:54-81 | the descriptor exists exactly for known labels and no coincident atoms; it has M(M+1)/2 entries: Z_i Z_j/d_ij, the diagonal, and zero past N |
| Coulomb.Masses | cliff/helpers/utils.py:145-146 | the weights in order; KeyError exactly for an unknown element |
| Coulomb.MassSumPositive | cliff/helpers/utils.py:148 | a non-empty molecule has a positive total mass |
| Coulomb.CenterOfMass | cliff/helpers/utils.py:148 | the centre of mass, or an IndexError for no atoms, or a KeyError |
| Coulomb.CenterOfMassSingle | cliff/helpers/utils.py:148 | a single atom is its own centre of mass |
| Coulomb.WeightedCenterShift | cliff/helpers/utils.py:148 | moving every atom by t moves the weighted centre by t |
| Coulomb.CenterOfMassShift | cliff/helpers/utils.py:148 | the centre of mass moves with the molecule, and its errors do not depend on positions |
| Coulomb.SquaredDistances | cliff/helpers/utils.py:58-62 | the x, y, z loop adds each of the first min(N, M) rows' squared distances to every row |
| Coulomb.CoulombRow | cliff/helpers/utils.py:64-69 | row i gets Z_i Z_j / d_ij and 0.5 Z_i^2.4, or ZeroDivision at a coincident atom |
| Coulomb.CoulombEntries | cliff/helpers/utils.py:64-69 | the double loop fills the Coulomb entries; it fails exactly when two atoms coincide |
| Coulomb.DistanceArray | cliff/helpers/utils.py:57-63 | the zeroed array, the squared distances, then `np.sqrt` in place give the distances |
| Coulomb.ZeroPad | cliff/helpers/utils.py:77-78 | every row and column ≥ N is zero and the rest are unchanged |
| Coulomb.CoulombArray | cliff/helpers/utils.py:57-78 | the array is the Coulomb matrix, or ZeroDivision exactly for coincident atoms |
| Coulomb.DescriptorOf | cliff/helpers/utils.py:54-81 | numbering, matrix and upper triangle compute the descriptor |
| Coulomb.BuildCoulombMatrix | cliff/helpers/utils.py:43-81 | build_coulomb_matrix computes the descriptor and the reorder around the central atom |
| Coulomb.CoulombMatrixCom | cliff/helpers/utils.py:142-171 | coulomb_matrix_com computes the descriptor around the centre of mass |
| Kernels.SumsSymmetric | cliff/atomic_properties/hirshfeld.py:66-69 | both distances are symmetric and vanish between a vector and itself |
| Kernels.KernelMatrixProperties | cliff/atomic_properties/hirshfeld.py:65-72 | the kernel matrix exists exactly for a known kernel, conformable rows and σ ≠ 0; it is |xs| × |ys| with entries k(x_i, y_j) |
| Kernels.KernelFromTables | cliff/helpers/constants.py:210-223 | each kernel is exp(-d^p/(c σ^p)) with the metric, prefactor and power the `ml_*` tables give |
| Kernels.KernelSymmetric | cliff/atomic_properties/hirshfeld.py:65-70 | the training kernel is symmetric |
| Kernels.KernelDiagonalAndSign | cliff/atomic_properties/hirshfeld.py:65-70 | every entry is positive; the training kernel has 1 = exp(0) on its diagonal |
| Text.Word | cliff/atomic_properties/hirshfeld.py:91 | the longest whitespace-free prefix |
| Text.FieldsProperties | cliff/atomic_properties/hirshfeld.py:91 | `str.split()` yields no empty field and no field with whitespace; a blank line has none |
| Text.FieldsJoin | cliff/atomic_properties/hirshfeld.py:91 | splitting undoes joining by spaces, with any trailing whitespace |
| Text.LastSlash | cliff/atomic_properties/hirshfeld.py:88 | the position of the last '/', or -1 |
| Text.Basename | cliff/atomic_properties/hirshfeld.py:88 | `split('/')[-1]` is a '/'-free suffix, preceded by '/' unless it is the whole path |
| Text.BasenameOfJoin | cliff/atomic_properties/hirshfeld.py:88 | the last component of dir + "/" + name is name |
| Hirshfeld.TrainedAlphaErrors | cliff/atomic_properties/hirshfeld.py:54-77 | training fails on an empty set first, then on a method other than "krr", then on an unknown kernel; success needs a known kernel and as many targets as descriptors |
| Hirshfeld.TrainedAlphaSolves | cliff/atomic_properties/hirshfeld.py:73-74 | with an exact solver, (K + λI) α = target |
| Hirshfeld.TrainingKernelShape | cliff/atomic_properties/hirshfeld.py:65-73 | K + λI is symmetric with exp(0) + λ = 1 + λ on its diagonal |
| Hirshfeld.PredictedProperties | cliff/atomic_properties/hirshfeld.py:97-112 | prediction exists exactly for "krr", a usable cross-kernel and a matching α; ratio i is Σ_j k(x_i, train_j) α_j |
| Hirshfeld.PredictedRowwise | cliff/atomic_properties/hirshfeld.py:97-109 | each descriptor's ratio is its own one-row prediction |
| Hirshfeld.PredictOnTraining | cliff/atomic_properties/hirshfeld.py:73-109 | predicting the training set with the trained α gives target_i - λ α_i |
| Hirshfeld.SelectedFieldsAppend | cliff/atomic_properties/hirshfeld.py:90-93 | field selection works line by line |
| Hirshfeld.LineFieldOfWords | cliff/atomic_properties/hirshfeld.py:91-93 | a six-field line yields its field 4; any other line yields nothing |
| Hirshfeld.RatiosOfCharacterized | cliff/atomic_properties/hirshfeld.py:93 | the ratios exist exactly when every selected field parses as a float; otherwise the error names the first field that does not |
| Hirshfeld.RatiosOfFailurePersists | cliff/atomic_properties/hirshfeld.py:93 | a failed float parse ends the reading whatever follows |
| Hirshfeld.RatioFilesAppend | cliff/atomic_properties/hirshfeld.py:87-89 | the files read for a concatenated list of xyz paths are those of the first part followed by those of the second |
| Hirshfeld.ReadRatios | cliff/atomic_properties/hirshfeld.py:86-95 | the loop over files and lines computes the file-mode ratios |
| Hirshfeld.ScanLines | cliff/atomic_properties/hirshfeld.py:90-93 | the loop over one file's lines extends the ratios read so far |
| Hirshfeld.ScanLine | cliff/atomic_properties/hirshfeld.py:91-93 | one line appends float(field 4) when it has six fields |
| Hirshfeld.MoleculeRatiosSources | cliff/atomic_properties/hirshfeld.py:85-112 | in file mode the training state and method play no part; otherwise the files play none |
| Hirshfeld.Molecule.constructor | cliff/atomic_properties/hirshfeld.py:119-123 | a molecule with its file names, descriptors and reference ratios |
| Hirshfeld.Predictor.constructor | cliff/atomic_properties/hirshfeld.py:22-40 | empty training set, no α, the given settings |
| Hirshfeld.Predictor.LoadMl | cliff/atomic_properties/hirshfeld.py:43-52 | in file mode nothing changes; otherwise the stored descriptors and α replace the current ones |
| Hirshfeld.Predictor.AddMolToTraining | cliff/atomic_properties/hirshfeld.py:116-125 | InconsistentTrainingData with no change when counts differ; otherwise descriptors and targets are appended in order and stay paired |
| Hirshfeld.Predictor.TrainMl | cliff/atomic_properties/hirshfeld.py:54-79 | α becomes the trained α; on any error α is unchanged |
| Hirshfeld.Predictor.PredictMol | cliff/atomic_properties/hirshfeld.py:81-114 | the molecule's ratios become the file-mode or predicted ratios; on error they are unchanged |

## Left out

- Floating point: all arithmetic is exact over the reals. `exp`, `sqrt` and `**2.4` are uninterpreted. No rounding, overflow or `inf`/`nan` behaviour is modelled.
- Divisions by zero that numpy completes with `inf`/`nan` are modelled as `Err(ZeroDivision)`:
  - a zero Coulomb distance;
  - a zero C6 in the C10 division;
  - σ = 0 in a kernel;
  - a zero valence width;
  - r = 0 in the pair energy (`PairEnergy`), where the source's numpy float64 distance gives `inf`/`nan`;
  - a zero Hirshfeld ratio or a zero combining denominator in `C6Combine`. In file mode the ratios are Python floats and the source raises ZeroDivisionError. In krr mode they come from `np.dot` (hirshfeld.py:109), and numpy gives `inf`/`nan`.
- `Cell.pbc_distance` is not part of this model. It is a parameter (`PbcDistance`) returning the difference vector.
- `System.build_coulomb_matrices` is not part of this model. The molecule's descriptors (`coulombMat`) are given.
- File I/O is left out:
  - `pickle.load` in `load_ml`: `LoadMl` takes the stored (descriptors, α) pair;
  - opening the ratio files: a `read` parameter gives each file's lines;
  - `float()`: a `parse` parameter, whose failure is `BadFloat`.
- `np.linalg.solve` is a `Solver` parameter. `ExactSolver` states that its answers solve the system, and `None` stands for a singular matrix.
- Logging and `print` are left out. `exit(1)` and raised exceptions are `Err` values.
- Hirshfeld.TrainedAlpha: an unknown kernel in `train_ml` leaves `kmat` unbound, and Python raises a NameError. The model reports `UnknownKernel`.
- Hirshfeld.Predicted: a missing α is `ModelNotTrained` (numpy raises a TypeError). A descriptor width or α length that does not match is `ShapeMismatch`, which stands for the errors of cdist and `np.dot`.
- `build_coulomb_matrix`'s optional `direction` sign projection, `coulomb_with_grads` and the other helpers of utils.py outside the ones listed in the table are not part of this model.
- The SVR settings and `clf` of the Hirshfeld class are never used by the modelled methods and are left out. So are `max_neighbors` (used only by `build_coulomb_matrices`) and the logger setup.
- Sorting.Argsort: the order among equal keys is not the one numpy's quicksort picks. Only the properties argsort promises are stated: a permutation in non-decreasing key order.
- DispersionComponent.Dispersion.ComputeTangToennies: when a pass fails, the source has already replaced `at_disp` and filled part of it. The model states the decomposition only on success, and unchanged when the coefficient passes fail.
- Text.Fields: whitespace is the fixed set of characters `str.isspace` accepts. The Unicode database it comes from is written out as `IsSpace`, not derived.
- Damping: that f_n increases with x (and so with r) and tends to 1 as r grows is not proved. It needs exp(a + b) = exp(a) exp(b) or limits, and `exp` is uninterpreted beyond `Lawful`. The argument x is proved non-decreasing in r (`TTArgumentMonotone`).
- TangToennies.Atom / TangToennies.Monomer: each atom carries its own element, type, coordinates, Hirshfeld ratio and valence width, where the source keeps five parallel lists (dispersion.py:65-73, 141-153). So two behaviours are lost. When file mode (hirshfeld.py:86-95) reads fewer ratios than there are atoms, the source raises IndexError at `hi[A]`. When it reads more, the extra ratios are silently ignored.
- The remaining constants of constants.py (covalent radii, multipole maps, MBIS data) are not read by the modelled code.

## Findings

| source | as written | input that shows it | evidently intended | confidence | as-written member | corrected member |
|---|---|---|---|---|---|---|
| cliff/helpers/utils.py:197-198 | with `ordered=True`, `reorder_atoms_com` calls `extract_atomic_numbers(cart_ord, atom_typ_ord)`. This numbers all max_neighbors padded rows, but there is only one type per atom, so it raises IndexError whenever the molecule has fewer atoms than max_neighbors | `ordered=True`, one atom of type "H", max_neighbors = 2 | number, compare and swap only among the k = min(N, max_neighbors) rows that hold atoms: the Z[1] > Z[0] swap only when k > 1, the rows 2/3 distance swap only when k > 3 | not executed | Reorder.OrderPairs | Reorder.OrderPairsFixed |
