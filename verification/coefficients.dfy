/** What the coefficient passes promise: when a pair's C6 and C8 exist, their symmetry, their
    signs, that C6 reduces to the free-atom value for an atom paired with itself, and that the
    C10 division can never fail once C6 succeeded. */
module CoefficientProperties {
  import opened Results
  import opened Numerics
  import opened Constants
  import opened TangToennies

  lemma NegativeSum(x: real, y: real, z: real, w: real)
    requires -x * y > 0.0 && -z * w > 0.0
    ensures x * y + z * w < 0.0
  {
    assert -x * y == -(x * y);
    assert -z * w == -(z * w);
  }

  /** For positive effective C6 values, the combining-rule denominator is positive when the
      two polarizabilities agree in sign and negative otherwise. */
  lemma CombiningDenominatorSign(p: Effective, q: Effective)
    requires p.c6 > 0.0 && q.c6 > 0.0 && p.alpha != 0.0 && q.alpha != 0.0
    ensures (p.alpha > 0.0 <==> q.alpha > 0.0) ==> CombiningDenominator(p, q) > 0.0
    ensures (p.alpha > 0.0 <==> q.alpha < 0.0) ==> CombiningDenominator(p, q) < 0.0
  {
    var a, b := p.alpha, q.alpha;
    DivSign(b, a);
    DivSign(a, b);
    if (a > 0.0) == (b > 0.0) {
      MulPos(b / a, p.c6);
      MulPos(a / b, q.c6);
    } else {
      MulPos(-(b / a), p.c6);
      MulPos(-(a / b), q.c6);
      NegativeSum(b / a, p.c6, a / b, q.c6);
    }
  }

  /** For positive effective C6 values the combined C6 exists and is non-zero, and it is
      positive when the polarizabilities agree in sign. */
  lemma CombinedC6Sign(p: Effective, q: Effective)
    requires p.c6 > 0.0 && q.c6 > 0.0 && p.alpha != 0.0 && q.alpha != 0.0
    ensures CombiningDenominator(p, q) != 0.0
    ensures CombinedC6(p, q) != 0.0
    ensures (p.alpha > 0.0 <==> q.alpha > 0.0) ==> CombinedC6(p, q) > 0.0
  {
    CombiningDenominatorSign(p, q);
    MulPos(2.0 * p.c6, q.c6);
    DivSign(2.0 * p.c6 * q.c6, CombiningDenominator(p, q));
  }

  /** Combining an atom's values with themselves gives back its C6. */
  lemma SelfCombination(p: Effective)
    requires p.c6 != 0.0 && p.alpha != 0.0 && CombiningDenominator(p, p) != 0.0
    ensures CombinedC6(p, p) == p.c6
  {
    var c, al := p.c6, p.alpha;
    assert al / al == 1.0;
    assert CombiningDenominator(p, p) == 2.0 * c;
    assert 2.0 * c * c == c * (2.0 * c);
  }

  /** Scaling a positive free-atom C6 by h^2 and a positive polarizability by h, for h != 0,
      gives a positive C6 and a non-zero polarizability of the sign of h. */
  lemma EffectiveSigns(csix: real, pol: real, h: real)
    requires csix > 0.0 && pol > 0.0 && h != 0.0
    ensures EffectiveC6(csix, h) > 0.0
    ensures EffectivePolarizability(pol, h) != 0.0
    ensures EffectivePolarizability(pol, h) > 0.0 <==> h > 0.0
  {
    if h > 0.0 {
      MulPos(csix, h);
      MulPos(csix * h, h);
      MulPos(h, pol);
    } else {
      MulPos(csix, -h);
      MulPos(csix * -h, -h);
      assert csix * (-h) * (-h) == csix * h * h;
      MulPos(-h, pol);
    }
  }

  /** The effective self values of an atom with a tabulated element and a non-zero Hirshfeld
      ratio: a positive C6 and a non-zero polarizability of the ratio's sign. */
  lemma C6SelfValues(a: Atom, t: Tables)
    requires SoundTables(t) && a.element in t.csixFree && a.hirshfeldRatio != 0.0
    ensures C6Self(a, t).Ok?
    ensures C6Self(a, t).value.c6 > 0.0
    ensures C6Self(a, t).value.alpha != 0.0
    ensures C6Self(a, t).value.alpha > 0.0 <==> a.hirshfeldRatio > 0.0
  {
    EffectiveSigns(t.csixFree[a.element], t.polFree[a.element], a.hirshfeldRatio);
  }

  /** A pair's C6 exists exactly when both elements have free-atom data and both Hirshfeld
      ratios are non-zero; it is then non-zero. */
  lemma C6PairDefined(a: Atom, b: Atom, t: Tables)
    requires SoundTables(t)
    ensures C6Pair(a, b, t).Ok? <==>
      a.element in t.csixFree && b.element in t.csixFree &&
      a.hirshfeldRatio != 0.0 && b.hirshfeldRatio != 0.0
    ensures C6Pair(a, b, t).Ok? ==> C6Pair(a, b, t).value != 0.0
  {
    if a.element in t.csixFree && b.element in t.csixFree {
      var p, q := C6Self(a, t).value, C6Self(b, t).value;
      if a.hirshfeldRatio != 0.0 && b.hirshfeldRatio != 0.0 {
        C6SelfValues(a, t);
        C6SelfValues(b, t);
        CombinedC6Sign(p, q);
      } else if a.hirshfeldRatio == 0.0 {
        assert p.alpha == 0.0;
      } else {
        assert q.alpha == 0.0;
      }
    }
  }

  /** Two atoms whose Hirshfeld ratios agree in sign (two positive ratios in particular) have
      a positive C6. */
  lemma C6PairPositive(a: Atom, b: Atom, t: Tables)
    requires SoundTables(t) && a.element in t.csixFree && b.element in t.csixFree
    requires a.hirshfeldRatio != 0.0 && b.hirshfeldRatio != 0.0
    requires a.hirshfeldRatio > 0.0 <==> b.hirshfeldRatio > 0.0
    ensures C6Pair(a, b, t).Ok? && C6Pair(a, b, t).value > 0.0
  {
    C6SelfValues(a, t);
    C6SelfValues(b, t);
    CombinedC6Sign(C6Self(a, t).value, C6Self(b, t).value);
  }

  /** The combining rule is symmetric in the two atoms. */
  lemma C6PairSymmetric(a: Atom, b: Atom, t: Tables)
    requires SoundTables(t)
    ensures C6Pair(a, b, t).Ok? <==> C6Pair(b, a, t).Ok?
    ensures C6Pair(a, b, t).Ok? ==> C6Pair(a, b, t).value == C6Pair(b, a, t).value
  {
    C6PairDefined(a, b, t);
    C6PairDefined(b, a, t);
  }

  /** An atom paired with itself gets back its own effective C6, h^2 C6_free; a free atom
      (h = 1) gets back the tabulated free-atom C6. */
  lemma C6PairSelf(a: Atom, t: Tables)
    requires SoundTables(t) && a.element in t.csixFree && a.hirshfeldRatio != 0.0
    ensures C6Pair(a, a, t) == Ok(EffectiveC6(t.csixFree[a.element], a.hirshfeldRatio))
    ensures a.hirshfeldRatio == 1.0 ==> C6Pair(a, a, t) == Ok(t.csixFree[a.element])
  {
    C6SelfValues(a, t);
    var p := C6Self(a, t).value;
    CombinedC6Sign(p, p);
    SelfCombination(p);
  }

  /** With the built-in tables, C6 is defined exactly for the elements of the free-atom table. */
  lemma DefaultC6PairDefined(a: Atom, b: Atom)
    ensures C6Pair(a, b, DefaultTables).Ok? <==>
      a.element in FreeAtomElements && b.element in FreeAtomElements &&
      a.hirshfeldRatio != 0.0 && b.hirshfeldRatio != 0.0
  {
    DefaultTablesSound();
    C6PairDefined(a, b, DefaultTables);
  }

  /** <r^4>/<r^2> exists exactly for the elements with tabulated moments, and is positive. */
  lemma R42Positive(e: string, t: Tables)
    requires SoundTables(t)
    ensures R42(e, t).Ok? <==> e in t.atomicR2
    ensures R42(e, t).Ok? ==> R42(e, t).value > 0.0
  {
    if e in t.atomicR2 {
      DivPos(t.atomicR4[e], t.atomicR2[e]);
    }
  }

  /** The C8 factor exists exactly when both elements have tabulated <r^2> and <r^4>. */
  lemma C8FactorDefined(eA: string, eB: string, t: Tables, math: Transcendentals)
    requires SoundTables(t)
    ensures C8Factor(eA, eB, t, math).Ok? <==> eA in t.atomicR2 && eB in t.atomicR2
  {
    R42Positive(eA, t);
    R42Positive(eB, t);
  }

  /** With the built-in tables, the C8 factor is defined exactly for the elements of the
      moment tables. */
  lemma DefaultC8FactorDefined(eA: string, eB: string, math: Transcendentals)
    ensures C8Factor(eA, eB, DefaultTables, math).Ok? <==> eA in R2Elements && eB in R2Elements
  {
    DefaultTablesSound();
    C8FactorDefined(eA, eB, DefaultTables, math);
  }

  /** 3 sqrt(q_A q_B) is non-negative for positive moment ratios: both square-root arguments
      are non-negative, so a lawful square root never meets a domain error. */
  lemma C8FormulaNonNegative(rA: real, rB: real, zA: nat, zB: nat, math: Transcendentals)
    requires Lawful(math) && rA > 0.0 && rB > 0.0
    ensures C8FromMoments(rA, rB, zA, zB, math) >= 0.0
  {
    var sA, sB := math.sqrt(zA as real), math.sqrt(zB as real);
    assert sA >= 0.0 && sB >= 0.0;
    MulNonNeg(sA, rA);
    MulNonNeg(sB, rB);
    MulNonNeg(sA * rA, sB * rB);
    assert math.sqrt((sA * rA) * (sB * rB)) >= 0.0;
  }

  /** A successful C8 factor is the formula applied to the two elements' tabulated values. */
  lemma C8FactorValue(eA: string, eB: string, t: Tables, math: Transcendentals)
    requires C8Factor(eA, eB, t, math).Ok?
    ensures R42(eA, t).Ok? && R42(eB, t).Ok? && eA in t.atomicNumber && eB in t.atomicNumber
    ensures C8Factor(eA, eB, t, math).value ==
      C8FromMoments(R42(eA, t).value, R42(eB, t).value, t.atomicNumber[eA], t.atomicNumber[eB], math)
  {}

  /** With a lawful square root the C8 factor is non-negative. */
  lemma C8FactorNonNegative(eA: string, eB: string, t: Tables, math: Transcendentals)
    requires Lawful(math) && SoundTables(t)
    requires C8Factor(eA, eB, t, math).Ok?
    ensures C8Factor(eA, eB, t, math).value >= 0.0
  {
    C8FactorValue(eA, eB, t, math);
    R42Positive(eA, t);
    R42Positive(eB, t);
    C8FormulaNonNegative(R42(eA, t).value, R42(eB, t).value, t.atomicNumber[eA], t.atomicNumber[eB], math);
  }

  /** A C10 entry fails only on a zero C6, which a successful C6 never is. */
  lemma C10AfterC6(a: Atom, b: Atom, t: Tables, c8: real)
    requires SoundTables(t) && C6Pair(a, b, t).Ok?
    ensures C10Entry(C6Pair(a, b, t).value, c8).Ok?
  {
    C6PairDefined(a, b, t);
  }

  /** With a positive C6, C10 exists and is non-negative. */
  lemma C10EntryNonNegative(c6: real, c8: real)
    requires c6 > 0.0
    ensures C10Entry(c6, c8).Ok? && C10Entry(c6, c8).value >= 0.0
  {
    SquareQuotientNonNegative(c8, c6);
  }
}
