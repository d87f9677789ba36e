/** The physical constants and per-element / per-atom-type tables that the modelled code reads.
    Decimal literals are exact reals here; the source stores them as IEEE doubles. */
module Constants {

  /** Hartree to kcal/mol. */
  const AU2KCALMOL: real := 627.5095
  /** Angstrom to bohr. */
  const A2B: real := 1.8897268
  /** The rounded square root of 3 used by the quadrupole conversions. */
  const SQRT_3: real := 1.732050808

  /** The unit conversions and the rounded square root of 3 are positive. */
  lemma UnitConstants()
    ensures AU2KCALMOL > 0.0 && A2B > 0.0 && SQRT_3 > 0.0
  {}

  const AtomicNumber: map<string, nat> := map[
    "H" := 1, "B" := 5, "C" := 6, "N" := 7, "O" := 8, "F" := 9,
    "P" := 15, "S" := 16, "Cl" := 17, "Br" := 35, "I" := 53]

  /** Free-atom static polarizabilities (bohr^3). */
  const PolFree: map<string, real> := map[
    "H" := 4.50, "He" := 1.38, "C" := 12.00, "N" := 7.40, "O" := 5.40,
    "F" := 3.80, "Ne" := 2.67, "Si" := 37.00, "P" := 25.00, "S" := 19.60,
    "Cl" := 15.00, "Ar" := 11.10, "Br" := 20.00, "Kr" := 16.80, "I" := 35.00]

  /** Free-atom C6 dispersion coefficients (hartree bohr^6). */
  const CsixFree: map<string, real> := map[
    "H" := 6.50, "He" := 1.46, "C" := 46.60, "N" := 24.20, "O" := 15.60,
    "F" := 9.52, "Ne" := 6.38, "Si" := 305.0, "P" := 185.0, "S" := 134.0,
    "Cl" := 94.60, "Ar" := 64.30, "Br" := 162.0, "Kr" := 130.0, "I" := 385.0]

  /** Free-atom expectation values <r^2>. */
  const AtomicR2: map<string, real> := map[
    "C" := 14.046740332406095, "Cl" := 27.651441841502898, "F" := 10.601441421661603,
    "H" := 3.1589186627858976, "N" := 12.419553635522538, "O" := 11.566513469042524,
    "S" := 29.17364957903178, "Br" := 40.3810331885329]

  /** Free-atom expectation values <r^4>. */
  const AtomicR4: map<string, real> := map[
    "C" := 109.39192409419, "Cl" := 187.29318856137, "F" := 41.707556384507,
    "H" := 26.818416656404, "N" := 71.475971390365, "O" := 56.180301267329,
    "S" := 239.014016575349, "Br" := 288.05982633399606]

  const AtomicWeight: map<string, real> := map[
    "H" := 1.008, "B" := 10.81, "C" := 12.01, "N" := 14.01, "O" := 16.00,
    "F" := 19.00, "P" := 31.00, "S" := 32.06, "Cl" := 35.45, "Br" := 79.90, "I" := 126.90]

  /** Kernel name to the distance metric, prefactor and power of its exponent. */
  const MlMetric: map<string, string> := map["gaussian" := "euclidean", "laplacian" := "cityblock"]
  const MlPrefactor: map<string, real> := map["gaussian" := 2.0, "laplacian" := 1.0]
  const MlPower: map<string, nat> := map["gaussian" := 2, "laplacian" := 1]

  /** Default per-atom-type scaling of the C8 and C10 dispersion terms. */
  const DispCoeffs: map<string, real> := map[
    "Cl" := 0.628936576, "F" := 0.593460843, "S1" := 0.724969324, "S2" := 0.689804317,
    "HS" := 0.00000425713031, "HC" := 0.161948995, "HN" := 0.142004497,
    "HO" := 0.000000803872825, "C4" := 0.348912752, "C3" := 0.380138542,
    "C2" := 0.474737451, "N3" := 0.251517245, "N2" := 0.921337229, "N1" := 0.814292607,
    "O1" := 0.779432259, "O2" := 0.547957036, "Br" := 0.499319918]

  /** Default damping exponents for charge-penetration-corrected electrostatics. */
  const ElstCpExp: map<string, real> := map[
    "Cl" := 3.44023059, "F" := 4.31571359, "S1" := 3.06183507, "S2" := 3.10344458,
    "HS" := 3.59744193, "HC" := 3.59818006, "HN" := 3.25541421, "HO" := 3.12549216,
    "C4" := 3.39104975, "C3" := 3.33249879, "C2" := 3.10571679, "N3" := 3.4371398,
    "N2" := 3.0371811, "N1" := 3.37851869, "O1" := 3.60313323, "O2" := 3.87600408,
    "Br" := 3.69423496]

  /** Default short-range induction parameters. */
  const InduSrParams: map<string, real> := map[
    "Cl" := 0.846826917, "F" := 1.5280835, "S1" := 0.986212886, "S2" := 0.769937266,
    "HS" := 0.603066647, "HC" := 0.378052494, "HN" := 0.595208067, "HO" := 0.685558974,
    "C4" := 0.0000211963996, "C3" := 0.284097106, "C2" := 0.784309524, "N3" := 1.75459668,
    "N2" := 1.52105862, "N1" := 0.813744201, "O1" := 1.6371991, "O2" := 1.14769962,
    "Br" := 1.16121111]

  /** Default exchange parameters. */
  const ExchIntParams: map<string, real> := map[
    "Cl" := 3.8151908, "F" := 7.60360362, "S1" := 3.17730052, "S2" := 3.28418743,
    "HS" := 0.790918621, "HC" := 0.989040149, "HN" := 0.69099863, "HO" := 0.599608839,
    "C4" := 2.26488385, "C3" := 2.45658457, "C2" := 2.80231434, "N3" := 4.46603838,
    "N2" := 4.62514186, "N1" := 3.48963039, "O1" := 5.34349334, "O2" := 5.85377182,
    "Br" := 4.10079141]

  /** The atom types the default parameter tables know. */
  const AtomTypes: set<string> := {
    "Cl", "F", "S1", "S2", "HS", "HC", "HN", "HO", "C4", "C3", "C2",
    "N3", "N2", "N1", "O1", "O2", "Br"}

  /** The elements whose <r^2>/<r^4> are tabulated, hence the only ones with a C8 coefficient. */
  const R2Elements: set<string> := {"C", "Cl", "F", "H", "N", "O", "S", "Br"}

  /** The <r^2> and <r^4> tables cover the same elements, with positive entries, and every such
      element also has an atomic number, a free-atom polarizability and a free-atom C6. */
  lemma R2R4Tables()
    ensures AtomicR2.Keys == AtomicR4.Keys == R2Elements
    ensures forall e :: e in AtomicR2 ==> AtomicR2[e] > 0.0 && AtomicR4[e] > 0.0
    ensures R2Elements <= AtomicNumber.Keys && R2Elements <= PolFree.Keys && R2Elements <= CsixFree.Keys
  {}

  /** The elements with a free-atom polarizability and C6. */
  const FreeAtomElements: set<string> := {
    "H", "He", "C", "N", "O", "F", "Ne", "Si", "P", "S", "Cl", "Ar", "Br", "Kr", "I"}

  /** The polarizability and C6 tables cover the same elements. */
  lemma FreeAtomKeys()
    ensures PolFree.Keys == CsixFree.Keys == FreeAtomElements
  {}

  /** Every free-atom polarizability and C6 is positive. */
  lemma FreeAtomPositive(e: string)
    requires e in FreeAtomElements
    ensures e in PolFree && PolFree[e] > 0.0
    ensures e in CsixFree && CsixFree[e] > 0.0
  {}

  /** Every element with tabulated moments also has free-atom data. */
  lemma R2ElementsAreFree(e: string)
    requires e in R2Elements
    ensures e in FreeAtomElements
  {}

  /** The noble gases and Si have a polarizability and a C6 but no atomic number, hence no C8. */
  lemma NoC8Elements(e: string)
    requires e in {"He", "Ne", "Si", "Ar", "Kr"}
    ensures e in PolFree && e !in AtomicNumber && e !in AtomicR2
  {}

  /** Boron, phosphorus and iodine have an atomic number and a weight but no <r^2>; the atomic
      number and atomic weight tables cover the same elements. */
  lemma AtomicTables()
    ensures AtomicNumber.Keys == AtomicWeight.Keys
    ensures forall e :: e in AtomicNumber ==> AtomicNumber[e] >= 1 && AtomicWeight[e] > 0.0
    ensures forall e :: e in {"B", "P", "I"} ==> e in AtomicNumber && e !in AtomicR2
  {}

  /** The four per-atom-type parameter tables share the same atom types. */
  lemma AtomTypeTables()
    ensures DispCoeffs.Keys == ElstCpExp.Keys == InduSrParams.Keys == ExchIntParams.Keys == AtomTypes
  {}

  lemma DispCoeffsPositive(t: string)
    requires t in AtomTypes
    ensures t in DispCoeffs && DispCoeffs[t] > 0.0
  {}

  /** The two kernels: a Gaussian on the Euclidean distance, exp(-d^2 / (2 sigma^2)), and a
      Laplacian on the city-block distance, exp(-d / sigma). */
  lemma KernelTables()
    ensures MlMetric.Keys == MlPrefactor.Keys == MlPower.Keys == {"gaussian", "laplacian"}
    ensures MlMetric["gaussian"] == "euclidean" && MlPrefactor["gaussian"] == 2.0 && MlPower["gaussian"] == 2
    ensures MlMetric["laplacian"] == "cityblock" && MlPrefactor["laplacian"] == 1.0 && MlPower["laplacian"] == 1
  {}

  /** The tables the dispersion model reads, gathered in one value so that the model can be
      stated for any tables with the properties below. */
  datatype Tables = Tables(
    atomicNumber: map<string, nat>, polFree: map<string, real>, csixFree: map<string, real>,
    atomicR2: map<string, real>, atomicR4: map<string, real>)

  const DefaultTables: Tables := Tables(AtomicNumber, PolFree, CsixFree, AtomicR2, AtomicR4)

  /** What the dispersion model relies on: polarizability and C6 share their elements and are
      positive, <r^2> and <r^4> share theirs and are positive, and every element with moments
      has an atomic number and free-atom data. */
  ghost predicate SoundTables(t: Tables) {
    && t.polFree.Keys == t.csixFree.Keys
    && (forall e :: e in t.csixFree ==> t.csixFree[e] > 0.0 && t.polFree[e] > 0.0)
    && t.atomicR2.Keys == t.atomicR4.Keys
    && (forall e :: e in t.atomicR2 ==> t.atomicR2[e] > 0.0 && t.atomicR4[e] > 0.0)
    && t.atomicR2.Keys <= t.atomicNumber.Keys
    && t.atomicR2.Keys <= t.csixFree.Keys
  }

  /** The tables of this module are sound, and they give C6 to FreeAtomElements and moments to
      R2Elements. */
  lemma DefaultTablesSound()
    ensures SoundTables(DefaultTables)
    ensures DefaultTables.csixFree.Keys == FreeAtomElements
    ensures DefaultTables.atomicR2.Keys == R2Elements
  {
    FreeAtomKeys();
    R2R4Tables();
    forall e | e in CsixFree
      ensures CsixFree[e] > 0.0 && PolFree[e] > 0.0
    {
      FreeAtomPositive(e);
    }
  }
}
