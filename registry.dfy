/** The equation registry: a constant table pairing each generator with the inclusive range
    its author intends for each of `a`, `b` and `c`, and the dispatch that a caller uses to
    pick a generator by its index. Entry `i` is `equation_i`; the index is what the four
    indicator LEDs show, so the table holds at most 2^4 entries. */
module Registry {
  import opened CArith
  import opened Generators

  /** A generator, under the policy for C's undefined cases. */
  type BytebeatFunc = (Policy, bv32, bv8, bv8, bv8) -> bv8

  /** One table entry: the generator and the inclusive bounds of its three parameters. */
  datatype EquationMeta = EquationMeta(
    func: BytebeatFunc,
    aMin: bv8, aMax: bv8,
    bMin: bv8, bMax: bv8,
    cMin: bv8, cMax: bv8)

  /** The declared parameter domain of one entry. */
  datatype Domain = Domain(aMin: bv8, aMax: bv8, bMin: bv8, bMax: bv8, cMin: bv8, cMax: bv8)

  /** The largest index the four indicator LEDs can show in binary. */
  const MaxShownIndex: nat := 15

  const Equations: seq<EquationMeta> := [
    EquationMeta(Equation0, 0, 8, 0, 12, 3, 10),
    EquationMeta(Equation1, 0, 10, 0, 14, 0, 14),
    EquationMeta(Equation2, 0, 12, 4, 20, 5, 12),
    EquationMeta(Equation3, 6, 30, 0, 16, 0, 10),
    EquationMeta(Equation4, 0, 12, 0, 16, 0, 10),
    EquationMeta(Equation5, 0, 24, 0, 22, 0, 16),
    EquationMeta(Equation6, 3, 10, 0, 28, 3, 10),
    EquationMeta(Equation7, 0, 10, 10, 22, 0, 8),
    EquationMeta(Equation8, 0, 12, 0, 20, 0, 20),
    EquationMeta(Equation9, 0, 16, 0, 86, 0, 26),
    EquationMeta(Equation10, 0, 8, 0, 22, 0, 16),
    EquationMeta(Equation11, 0, 16, 0, 28, 3, 10),
    EquationMeta(Equation12, 0, 18, 0, 28, 3, 10),
    EquationMeta(Equation13, 0, 18, 0, 28, 3, 10),
    EquationMeta(Equation14, 0, 8, 0, 12, 3, 10),
    EquationMeta(Equation15, 0, 8, 0, 12, 3, 10)
  ]

  /** The number of entries: exactly sixteen, so every index fits the 4-bit display. */
  function RegistrySize(): (n: nat)
    ensures n == |Equations|
    ensures n == 16 && n - 1 <= MaxShownIndex
  {
    |Equations|
  }

  /** The bounds of one table row describe non-empty ranges. */
  predicate WellFormed(m: EquationMeta) {
    m.aMin <= m.aMax && m.bMin <= m.bMax && m.cMin <= m.cMax
  }

  /** Every row of the table declares non-empty ranges. */
  lemma DeclaredDomainsWellFormed()
    ensures forall m | m in Equations :: WellFormed(m)
  {
  }

  /** The declared bounds of entry `i`, as written in its table row. Every declared range is
      non-empty. */
  function DomainOf(i: int): (d: Domain)
    requires 0 <= i < RegistrySize()
    ensures d.aMin <= d.aMax && d.bMin <= d.bMax && d.cMin <= d.cMax
  {
    var m := Equations[i];
    DeclaredDomainsWellFormed();
    assert m in Equations;
    Domain(m.aMin, m.aMax, m.bMin, m.bMax, m.cMin, m.cMax)
  }

  /** The parameters lie in the declared domain of entry `i`. */
  predicate InDomain(i: int, a: bv8, b: bv8, c: bv8)
    requires 0 <= i < RegistrySize()
  {
    var d := DomainOf(i);
    d.aMin <= a <= d.aMax && d.bMin <= b <= d.bMax && d.cMin <= c <= d.cMax
  }

  /** Entry `i` of the table holds `equation_i`, for every index. */
  lemma TableHoldsEquations()
    ensures Equations[0].func == Equation0
    ensures Equations[1].func == Equation1
    ensures Equations[2].func == Equation2
    ensures Equations[3].func == Equation3
    ensures Equations[4].func == Equation4
    ensures Equations[5].func == Equation5
    ensures Equations[6].func == Equation6
    ensures Equations[7].func == Equation7
    ensures Equations[8].func == Equation8
    ensures Equations[9].func == Equation9
    ensures Equations[10].func == Equation10
    ensures Equations[11].func == Equation11
    ensures Equations[12].func == Equation12
    ensures Equations[13].func == Equation13
    ensures Equations[14].func == Equation14
    ensures Equations[15].func == Equation15
  {
  }

  /** Calling entry `i` of the table through its function pointer, as a dispatch on the
      index. */
  function EvaluateWith(p: Policy, i: int, t: bv32, a: bv8, b: bv8, c: bv8): bv8
    requires 0 <= i < RegistrySize()
  {
    match i
    case 0 => Equation0(p, t, a, b, c)
    case 1 => Equation1(p, t, a, b, c)
    case 2 => Equation2(p, t, a, b, c)
    case 3 => Equation3(p, t, a, b, c)
    case 4 => Equation4(p, t, a, b, c)
    case 5 => Equation5(p, t, a, b, c)
    case 6 => Equation6(p, t, a, b, c)
    case 7 => Equation7(p, t, a, b, c)
    case 8 => Equation8(p, t, a, b, c)
    case 9 => Equation9(p, t, a, b, c)
    case 10 => Equation10(p, t, a, b, c)
    case 11 => Equation11(p, t, a, b, c)
    case 12 => Equation12(p, t, a, b, c)
    case 13 => Equation13(p, t, a, b, c)
    case 14 => Equation14(p, t, a, b, c)
    case 15 => Equation15(p, t, a, b, c)
  }

  /** The dispatch reaches the generator the table holds at `i`, for every index. */
  lemma DispatchFollowsTable(p: Policy, i: int, t: bv32, a: bv8, b: bv8, c: bv8)
    requires 0 <= i < RegistrySize()
    ensures EvaluateWith(p, i, t, a, b, c) == Equations[i].func(p, t, a, b, c)
  {
    TableHoldsEquations();
    match i
    case 0 => assert Equations[0].func == Equation0;
    case 1 => assert Equations[1].func == Equation1;
    case 2 => assert Equations[2].func == Equation2;
    case 3 => assert Equations[3].func == Equation3;
    case 4 => assert Equations[4].func == Equation4;
    case 5 => assert Equations[5].func == Equation5;
    case 6 => assert Equations[6].func == Equation6;
    case 7 => assert Equations[7].func == Equation7;
    case 8 => assert Equations[8].func == Equation8;
    case 9 => assert Equations[9].func == Equation9;
    case 10 => assert Equations[10].func == Equation10;
    case 11 => assert Equations[11].func == Equation11;
    case 12 => assert Equations[12].func == Equation12;
    case 13 => assert Equations[13].func == Equation13;
    case 14 => assert Equations[14].func == Equation14;
    case 15 => assert Equations[15].func == Equation15;
  }

  /** One sample of entry `i` under the documented policy: what calling `equations[i].func`
      gives. */
  function Evaluate(i: int, t: bv32, a: bv8, b: bv8, c: bv8): (r: bv8)
    requires 0 <= i < RegistrySize()
    ensures r == Equations[i].func(Default, t, a, b, c)
  {
    DispatchFollowsTable(Default, i, t, a, b, c);
    EvaluateWith(Default, i, t, a, b, c)
  }

  /** Evaluation of entry `i` meets none of C's undefined cases. */
  predicate Defined(i: int, t: bv32, a: bv8, b: bv8, c: bv8)
    requires 0 <= i < RegistrySize()
  {
    match i
    case 0 => Defined0(t, a, b, c)
    case 1 => Defined1(t, a, b, c)
    case 2 => Defined2(t, a, b, c)
    case 3 => Defined3(t, a, b, c)
    case 4 => Defined4(t, a, b, c)
    case 5 => Defined5(t, a, b, c)
    case 6 => Defined6(t, a, b, c)
    case 7 => Defined7(t, a, b, c)
    case 8 => Defined8(t, a, b, c)
    case 9 => Defined9(t, a, b, c)
    case 10 => Defined10(t, a, b, c)
    case 11 => Defined11(t, a, b, c)
    case 12 => Defined12(t, a, b, c)
    case 13 => Defined13(t, a, b, c)
    case 14 => Defined14(t, a, b, c)
    case 15 => Defined15(t, a, b, c)
  }
}
