/** Atomic numbers from atom-type labels. A label such as "HC", "Cl1" or "N3" names an atom
    type; its element is read by dropping the digits and charge signs and keeping the first
    run that starts with an upper-case letter and continues with no upper-case letter. */
module Labels {
  import opened Results
  import opened Constants
  import opened Folds
  import opened Geometry

  predicate IsUpper(c: char) { 'A' <= c <= 'Z' }

  /** The characters the label clean-up removes: digits and the charge signs + and -. */
  predicate IsChargeOrDigit(c: char) { '0' <= c <= '9' || c == '+' || c == '-' }

  /** The label with every digit and charge sign removed, the other characters kept in order. */
  function StripCharges(s: string): (r: string)
    ensures |r| <= |s|
    ensures forall i :: 0 <= i < |r| ==> !IsChargeOrDigit(r[i])
    ensures forall c :: c in s && !IsChargeOrDigit(c) ==> c in r
    ensures forall c :: c in r ==> c in s
  {
    if |s| == 0 then []
    else if IsChargeOrDigit(s[0]) then StripCharges(s[1..])
    else [s[0]] + StripCharges(s[1..])
  }

  /** Stripping works piece by piece: the stripped concatenation is the concatenation of the
      stripped pieces. */
  lemma {:induction false} StripChargesAppend(a: string, b: string)
    ensures StripCharges(a + b) == StripCharges(a) + StripCharges(b)
  {
    if |a| > 0 {
      assert (a + b)[1..] == a[1..] + b;
      StripChargesAppend(a[1..], b);
    } else {
      assert a + b == b;
    }
  }

  /** A label with nothing to strip is its own clean-up, so stripping twice is stripping once. */
  lemma {:induction false} StripChargesIdempotent(s: string)
    ensures StripCharges(StripCharges(s)) == StripCharges(s)
  {
    var r := StripCharges(s);
    StripChargesKeeps(r);
  }

  lemma {:induction false} StripChargesKeeps(s: string)
    requires forall i :: 0 <= i < |s| ==> !IsChargeOrDigit(s[i])
    ensures StripCharges(s) == s
  {
    if |s| > 0 {
      StripChargesKeeps(s[1..]);
      assert [s[0]] + s[1..] == s;
    }
  }

  /** The longest prefix of s without an upper-case letter. */
  function LowerRun(s: string): (r: string)
    ensures |r| <= |s| && r == s[..|r|]
    ensures forall i :: 0 <= i < |r| ==> !IsUpper(r[i])
    ensures |r| < |s| ==> IsUpper(s[|r|])
  {
    if |s| == 0 || IsUpper(s[0]) then [] else [s[0]] + LowerRun(s[1..])
  }

  /** The index of the first upper-case letter of s, None when it has none. */
  function FirstUpper(s: string): (r: Option<nat>)
    ensures r.None? <==> forall i :: 0 <= i < |s| ==> !IsUpper(s[i])
    ensures r.Some? ==> r.value < |s| && IsUpper(s[r.value])
    ensures r.Some? ==> forall i :: 0 <= i < r.value ==> !IsUpper(s[i])
  {
    if |s| == 0 then None
    else if IsUpper(s[0]) then Some(0)
    else match FirstUpper(s[1..]) case None => None case Some(k) => Some(k + 1)
  }

  /** The first match of "an upper-case letter followed by any non-upper-case characters", or
      None when the name has no upper-case letter. The match starts at the first upper-case
      letter and runs up to the next one or to the end of the name. */
  function FirstElement(name: string): (r: Option<string>)
    ensures r.None? <==> FirstUpper(name).None?
    ensures r.Some? ==>
      var k := FirstUpper(name).value;
      k + |r.value| <= |name| && r.value == name[k..k + |r.value|] &&
      |r.value| >= 1 && (forall i :: 1 <= i < |r.value| ==> !IsUpper(r.value[i])) &&
      (k + |r.value| == |name| || IsUpper(name[k + |r.value|]))
  {
    match FirstUpper(name)
    case None => None
    case Some(k) =>
      var run := LowerRun(name[k + 1..]);
      assert name[k..k + 1 + |run|] == [name[k]] + run;
      Some([name[k]] + run)
  }

  /** An element symbol (an upper-case letter, then no upper-case letter) followed by nothing or
      by an upper-case letter is the first match, whatever comes after. */
  lemma {:induction false} FirstElementOfSymbol(e: string, rest: string)
    requires |e| >= 1 && IsUpper(e[0])
    requires forall i :: 1 <= i < |e| ==> !IsUpper(e[i])
    requires |rest| == 0 || IsUpper(rest[0])
    ensures FirstElement(e + rest) == Some(e)
  {
    LowerRunOfRun(e[1..], rest);
    assert FirstUpper(e + rest) == Some(0);
    assert (e + rest)[1..] == e[1..] + rest;
    assert [e[0]] + e[1..] == e;
  }

  lemma {:induction false} LowerRunOfRun(s: string, rest: string)
    requires forall i :: 0 <= i < |s| ==> !IsUpper(s[i])
    requires |rest| == 0 || IsUpper(rest[0])
    ensures LowerRun(s + rest) == s
  {
    if |s| == 0 {
      assert s + rest == rest;
    } else {
      assert (s + rest)[1..] == s[1..] + rest;
      LowerRunOfRun(s[1..], rest);
      assert [s[0]] + s[1..] == s;
    }
  }

  /** The atomic number of an atom-type label: IndexError when the cleaned-up label has no
      upper-case letter, UnknownElement when its element is not in the table. */
  function AtomicNumberOf(atomType: string): (r: Result<nat>)
    ensures r.Ok? ==> exists e :: e in AtomicNumber && r.value == AtomicNumber[e]
    ensures r.Err? <==> FirstElement(StripCharges(atomType)).None? || FirstElement(StripCharges(atomType)).value !in AtomicNumber
    ensures r.Err? ==> r.error == IndexError || r.error.UnknownElement?
  {
    match FirstElement(StripCharges(atomType))
    case None => Err(IndexError)
    case Some(ele) => if ele in AtomicNumber then Ok(AtomicNumber[ele]) else Err(UnknownElement(ele))
  }

  /** A known element symbol, followed by nothing or by an upper-case letter and anything, then
      by digits and charge signs, gives that element's atomic number. */
  lemma AtomicNumberOfLabel(e: string, rest: string, charge: string)
    requires e in AtomicNumber
    requires |rest| == 0 || IsUpper(rest[0])
    requires forall i :: 0 <= i < |rest| ==> !IsChargeOrDigit(rest[i])
    requires forall i :: 0 <= i < |charge| ==> IsChargeOrDigit(charge[i])
    ensures AtomicNumberOf(e + rest + charge) == Ok(AtomicNumber[e])
  {
    StripChargesAppend(e + rest, charge);
    StripChargesAppend(e, rest);
    StripChargesDrops(charge);
    ElementSymbols(e);
    StripChargesKeeps(e);
    StripChargesKeeps(rest);
    assert e + rest + charge == (e + rest) + charge;
    assert StripCharges(e + rest + charge) == e + rest;
    FirstElementOfSymbol(e, rest);
  }

  lemma {:induction false} StripChargesDrops(s: string)
    requires forall i :: 0 <= i < |s| ==> IsChargeOrDigit(s[i])
    ensures StripCharges(s) == []
  {
    if |s| > 0 {
      StripChargesDrops(s[1..]);
    }
  }

  /** Every symbol of the atomic-number table is one upper-case letter and lower-case letters. */
  lemma ElementSymbols(e: string)
    requires e in AtomicNumber
    ensures |e| >= 1 && IsUpper(e[0])
    ensures forall i :: 1 <= i < |e| ==> 'a' <= e[i] <= 'z'
  {}

  /** Hydrogen atom types, named after the element they are bonded to, are hydrogen. */
  lemma HydrogenTypes()
    ensures AtomicNumberOf("HC") == Ok(1) && AtomicNumberOf("HO") == Ok(1)
  {
    assert AtomicNumber["H"] == 1;
    AtomicNumberOfLabel("H", "C", "");
    assert "H" + "C" + "" == "HC";
    AtomicNumberOfLabel("H", "O", "");
    assert "H" + "O" + "" == "HO";
  }

  /** Atom types numbered by their bonding pattern. */
  lemma NumberedTypes()
    ensures AtomicNumberOf("C4") == Ok(6) && AtomicNumberOf("N3") == Ok(7)
  {
    assert AtomicNumber["C"] == 6 && AtomicNumber["N"] == 7;
    AtomicNumberOfLabel("C", "", "4");
    assert "C" + "" + "4" == "C4";
    AtomicNumberOfLabel("N", "", "3");
    assert "N" + "" + "3" == "N3";
  }

  /** A two-letter element symbol is read whole. */
  lemma TwoLetterElement()
    ensures AtomicNumberOf("Cl") == Ok(17)
  {
    assert AtomicNumber["Cl"] == 17;
    AtomicNumberOfLabel("Cl", "", "");
    assert "Cl" + "" + "" == "Cl";
  }

  /** The outcome for entry i of a list of n positions labelled by types: the label's atomic
      number, or IndexError when there are fewer labels than positions. */
  function LabelNumber(types: seq<string>, i: nat): Result<nat> {
    if i < |types| then AtomicNumberOf(types[i]) else Err(IndexError)
  }

  /** The per-position outcomes for n positions. */
  function LabelNumbers(n: nat, types: seq<string>): (items: seq<Result<nat>>)
    ensures |items| == n && forall i :: 0 <= i < n ==> items[i] == LabelNumber(types, i)
  {
    seq(n, i requires 0 <= i => LabelNumber(types, i))
  }

  /** The atomic numbers of the n labelled positions, the first failure ending the scan. */
  function AtomicNumbers(n: nat, types: seq<string>): (r: Result<seq<nat>>)
    ensures r.Ok? ==> |r.value| == n && n <= |types|
  {
    var items := LabelNumbers(n, types);
    CollectCharacterized(None, items, n);
    assert n > |types| ==> items[|types|].Err?;
    Collect(None, items, n)
  }

  /** AtomicNumbers succeeds exactly when there is a known label for every position, and then
      lists their atomic numbers in order. */
  lemma AtomicNumbersCharacterized(n: nat, types: seq<string>)
    ensures AtomicNumbers(n, types).Ok? <==> n <= |types| && forall i :: 0 <= i < n ==> AtomicNumberOf(types[i]).Ok?
    ensures AtomicNumbers(n, types).Ok? ==>
      |AtomicNumbers(n, types).value| == n &&
      forall i :: 0 <= i < n ==> AtomicNumbers(n, types).value[i] == AtomicNumberOf(types[i]).value
  {
    var items := LabelNumbers(n, types);
    CollectCharacterized(None, items, n);
    if n <= |types| {
      assert forall i :: 0 <= i < n ==> items[i] == AtomicNumberOf(types[i]);
    } else {
      assert items[|types|].Err?;
    }
  }

  /** The atomic number of every atom, one label per row of cartesian; the types list may be
      longer than the coordinates, and a shorter one fails with IndexError. */
  method ExtractAtomicNumbers(cartesian: seq<Vec3>, types: seq<string>) returns (r: Result<seq<nat>>)
    ensures r == AtomicNumbers(|cartesian|, types)
  {
    var n := |cartesian|;
    ghost var items := LabelNumbers(n, types);
    var z := new nat[n];
    var i := 0;
    while i < n
      invariant 0 <= i <= n
      invariant Collect(None, items, i) == Ok(z[..i])
    {
      if i >= |types| {
        CollectFailureAt(None, items, i);
        return Err(IndexError);
      }
      var name := StripCharges(types[i]);
      var ele := FirstElement(name);
      if ele.None? {
        CollectFailureAt(None, items, i);
        return Err(IndexError);
      }
      if ele.value !in AtomicNumber {
        CollectFailureAt(None, items, i);
        return Err(UnknownElement(ele.value));
      }
      z[i] := AtomicNumber[ele.value];
      CollectStep(None, items, i);
      assert z[..i + 1] == z[..i] + [z[i]];
      i := i + 1;
    }
    assert z[..n] == z[..];
    return Ok(z[..]);
  }
}
