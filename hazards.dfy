/** Which generators reach C's undefined cases, and what that means for the sample.

    - Each `DefinedK` is sound: where it holds, the sample is the same under every policy.
    - Inside the declared domains, the clean entries {0, 3, 4, 5, 6, 8, 12, 13, 15} are
      `Defined` for every time value; each other entry has an in-domain input where it is not.
    - For entries 1, 2, 7, 9, 10 and 14 the hazard reaches the sample: two policies give
      different samples on some in-domain input. Entry 11 divides by zero when `b == 0`, but
      `t * b` masks the quotient, so its sample never depends on the policy in its domain. */
module Hazards {
  import opened CArith
  import opened Generators
  import opened Registry

  /** Equation 0 without an undefined case does not depend on the policy. */
  lemma Equation0IgnoresPolicy(p: Policy, q: Policy, t: bv32, a: bv8, b: bv8, c: bv8)
    requires Defined0(t, a, b, c)
    ensures Equation0(p, t, a, b, c) == Equation0(q, t, a, b, c)
  {
    ShrAgrees(p, q, t, a as bv32);
    ShrAgrees(p, q, t, b as bv32);
    ShrAgrees(p, q, t, ToU32(Promote(c) + 1));
  }

  lemma Equation1IgnoresPolicy(p: Policy, q: Policy, t: bv32, a: bv8, b: bv8, c: bv8)
    requires Defined1(t, a, b, c)
    ensures Equation1(p, t, a, b, c) == Equation1(q, t, a, b, c)
  {
    ShrAgrees(p, q, t, ToU32(Promote(a) + 1));
    RemAgrees(p, q, t, b as bv32);
    ShlAgrees(p, q, Shr(p, t, ToU32(Promote(a) + 1)), Amount1(t, Rem(p, t, b as bv32), c));
  }

  lemma Equation2IgnoresPolicy(p: Policy, q: Policy, t: bv32, a: bv8, b: bv8, c: bv8)
    requires Defined2(t, a, b, c)
    ensures Equation2(p, t, a, b, c) == Equation2(q, t, a, b, c)
  {
    RemAgrees(p, q, t, a as bv32);
    ShrAgrees(p, q, t, c as bv32);
    ShrAgrees(p, q, t, a as bv32);
    ShrAgrees(p, q, t, b as bv32);
  }

  lemma Equation3IgnoresPolicy(p: Policy, q: Policy, t: bv32, a: bv8, b: bv8, c: bv8)
    requires Defined3(t, a, b, c)
    ensures Equation3(p, t, a, b, c) == Equation3(q, t, a, b, c)
  {
    ShrAgrees(p, q, (b as bv32) * t, a as bv32);
    ShrAgrees(p, q, t, ToU32(Promote(c) + Promote(b)));
    if !BitsMeet(t, 6) {
      ShrAgrees(p, q, t, c as bv32);
    }
  }

  lemma Equation4IgnoresPolicy(p: Policy, q: Policy, t: bv32, a: bv8, b: bv8, c: bv8)
    requires Defined4(t, a, b, c)
    ensures Equation4(p, t, a, b, c) == Equation4(q, t, a, b, c)
  {
    ShrAgrees(p, q, t, b as bv32);
    ShrAgrees(p, q, t, a as bv32);
    if !BitsMeet(t, b as bv32) {
      ShrAgrees(p, q, t, c as bv32);
    }
  }

  lemma Equation5IgnoresPolicy(p: Policy, q: Policy, t: bv32, a: bv8, b: bv8, c: bv8)
    requires Defined5(t, a, b, c)
    ensures Equation5(p, t, a, b, c) == Equation5(q, t, a, b, c)
  {
    ShrAgrees(p, q, t, a as bv32);
    ShrAgrees(p, q, t, c as bv32);
  }

  lemma Equation6IgnoresPolicy(p: Policy, q: Policy, t: bv32, a: bv8, b: bv8, c: bv8)
    requires Defined6(t, a, b, c)
    ensures Equation6(p, t, a, b, c) == Equation6(q, t, a, b, c)
  {
    ShrAgrees(p, q, t, b as bv32);
    if BitsMeet(t >> (b as bv32), t) {
      ShrAgrees(p, q, t, a as bv32);
    } else {
      ShrAgrees(p, q, -t, c as bv32);
    }
  }

  lemma Equation7IgnoresPolicy(p: Policy, q: Policy, t: bv32, a: bv8, b: bv8, c: bv8)
    requires Defined7(t, a, b, c)
    ensures Equation7(p, t, a, b, c) == Equation7(q, t, a, b, c)
  {
    var t := ClampTime(t);
    ShrAgrees(p, q, t, a as bv32);
    ShrAgrees(p, q, t, t >> 16);
    ShrAgrees(p, q, t, ToU32(Promote(b) + 1));
  }

  lemma Equation8IgnoresPolicy(p: Policy, q: Policy, t: bv32, a: bv8, b: bv8, c: bv8)
    requires Defined8(t, a, b, c)
    ensures Equation8(p, t, a, b, c) == Equation8(q, t, a, b, c)
  {
    ShrAgrees(p, q, t, a as bv32);
    ShrAgrees(p, q, t, ToU32(Promote(a) & Promote(c)));
    ShrAgrees(p, q, t, c as bv32);
  }

  lemma Equation9IgnoresPolicy(p: Policy, q: Policy, t: bv32, a: bv8, b: bv8, c: bv8)
    requires Defined9(t, a, b, c)
    ensures Equation9(p, t, a, b, c) == Equation9(q, t, a, b, c)
  {
    ShrAgrees(p, q, t, c as bv32);
    ShrAgrees(p, q, t, a as bv32);
    ShrAgrees(p, q, t, b as bv32);
  }

  lemma Equation10IgnoresPolicy(p: Policy, q: Policy, t: bv32, a: bv8, b: bv8, c: bv8)
    requires Defined10(t, a, b, c)
    ensures Equation10(p, t, a, b, c) == Equation10(q, t, a, b, c)
  {
    ShrAgrees(p, q, t, Amount10(c));
    var divisor := IShl(p, 128 - Promote(b), Shr(p, t, Amount10(c)));
    IShlAgrees(p, q, 128 - Promote(b), Shr(p, t, Amount10(c)));
    IDivAgrees(p, q, Promote(a), divisor);
    var x := Shr(p, t, ToU32(IRem(p, Promote(a), divisor)));
    ShrAgrees(p, q, t, ToU32(IRem(p, Promote(a), divisor)));
    ShrAgrees(p, q, Product10(x, b, t), OuterAmount10(t, c));
  }

  lemma Equation11IgnoresPolicy(p: Policy, q: Policy, t: bv32, a: bv8, b: bv8, c: bv8)
    requires Defined11(t, a, b, c)
    ensures Equation11(p, t, a, b, c) == Equation11(q, t, a, b, c)
  {
    ShrAgrees(p, q, t, a as bv32);
    ShrAgrees(p, q, t, c as bv32);
    IShlAgrees(p, q, Promote(b), 2);
    IDivAgrees(p, q, Promote(c), IShl(p, Promote(b), 2));
  }

  lemma Equation12IgnoresPolicy(p: Policy, q: Policy, t: bv32, a: bv8, b: bv8, c: bv8)
    requires Defined12(t, a, b, c)
    ensures Equation12(p, t, a, b, c) == Equation12(q, t, a, b, c)
  {
    ShrAgrees(p, q, t, a as bv32);
    ShrAgrees(p, q, 8 * t, c as bv32);
  }

  lemma Equation13IgnoresPolicy(p: Policy, q: Policy, t: bv32, a: bv8, b: bv8, c: bv8)
    requires Defined13(t, a, b, c)
    ensures Equation13(p, t, a, b, c) == Equation13(q, t, a, b, c)
  {
    ShrAgrees(p, q, t, c as bv32);
    ShrAgrees(p, q, t, Amount13(a));
  }

  lemma Equation14IgnoresPolicy(p: Policy, q: Policy, t: bv32, a: bv8, b: bv8, c: bv8)
    requires Defined14(t, a, b, c)
    ensures Equation14(p, t, a, b, c) == Equation14(q, t, a, b, c)
  {
    IShlAgrees(p, q, 4, a as bv32);
    if BitsMeet(t, ToU32(WrapShl(4, a as bv32))) {
      ShrAgrees(p, q, t, b as bv32);
      ShrAgrees(p, q, ZeroProductOr(t, Shr(p, t, b as bv32)), c as bv32);
    } else {
      IShlAgrees(p, q, Promote(c), b as bv32);
    }
  }

  lemma Equation15IgnoresPolicy(p: Policy, q: Policy, t: bv32, a: bv8, b: bv8, c: bv8)
    requires Defined15(t, a, b, c)
    ensures Equation15(p, t, a, b, c) == Equation15(q, t, a, b, c)
  {
    IShlAgrees(p, q, 4, a as bv32);
    if BitsMeet(t, ToU32(WrapShl(4, a as bv32))) {
      ShrAgrees(p, q, t, b as bv32);
    } else {
      ShrAgrees(p, q, t, c as bv32);
      IShlAgrees(p, q, 3, b as bv32);
    }
  }

  /** The per-equation lemmas restated for the table's dispatch, one entry at a time. */
  lemma Entry0IgnoresPolicy(p: Policy, q: Policy, t: bv32, a: bv8, b: bv8, c: bv8)
    requires Defined0(t, a, b, c)
    ensures EvaluateWith(p, 0, t, a, b, c) == EvaluateWith(q, 0, t, a, b, c)
  {
    Equation0IgnoresPolicy(p, q, t, a, b, c);
  }

  lemma Entry1IgnoresPolicy(p: Policy, q: Policy, t: bv32, a: bv8, b: bv8, c: bv8)
    requires Defined1(t, a, b, c)
    ensures EvaluateWith(p, 1, t, a, b, c) == EvaluateWith(q, 1, t, a, b, c)
  {
    Equation1IgnoresPolicy(p, q, t, a, b, c);
  }

  lemma Entry2IgnoresPolicy(p: Policy, q: Policy, t: bv32, a: bv8, b: bv8, c: bv8)
    requires Defined2(t, a, b, c)
    ensures EvaluateWith(p, 2, t, a, b, c) == EvaluateWith(q, 2, t, a, b, c)
  {
    Equation2IgnoresPolicy(p, q, t, a, b, c);
  }

  lemma Entry3IgnoresPolicy(p: Policy, q: Policy, t: bv32, a: bv8, b: bv8, c: bv8)
    requires Defined3(t, a, b, c)
    ensures EvaluateWith(p, 3, t, a, b, c) == EvaluateWith(q, 3, t, a, b, c)
  {
    Equation3IgnoresPolicy(p, q, t, a, b, c);
  }

  lemma Entry4IgnoresPolicy(p: Policy, q: Policy, t: bv32, a: bv8, b: bv8, c: bv8)
    requires Defined4(t, a, b, c)
    ensures EvaluateWith(p, 4, t, a, b, c) == EvaluateWith(q, 4, t, a, b, c)
  {
    Equation4IgnoresPolicy(p, q, t, a, b, c);
  }

  lemma Entry5IgnoresPolicy(p: Policy, q: Policy, t: bv32, a: bv8, b: bv8, c: bv8)
    requires Defined5(t, a, b, c)
    ensures EvaluateWith(p, 5, t, a, b, c) == EvaluateWith(q, 5, t, a, b, c)
  {
    Equation5IgnoresPolicy(p, q, t, a, b, c);
  }

  lemma Entry6IgnoresPolicy(p: Policy, q: Policy, t: bv32, a: bv8, b: bv8, c: bv8)
    requires Defined6(t, a, b, c)
    ensures EvaluateWith(p, 6, t, a, b, c) == EvaluateWith(q, 6, t, a, b, c)
  {
    Equation6IgnoresPolicy(p, q, t, a, b, c);
  }

  lemma Entry7IgnoresPolicy(p: Policy, q: Policy, t: bv32, a: bv8, b: bv8, c: bv8)
    requires Defined7(t, a, b, c)
    ensures EvaluateWith(p, 7, t, a, b, c) == EvaluateWith(q, 7, t, a, b, c)
  {
    Equation7IgnoresPolicy(p, q, t, a, b, c);
  }

  lemma Entry8IgnoresPolicy(p: Policy, q: Policy, t: bv32, a: bv8, b: bv8, c: bv8)
    requires Defined8(t, a, b, c)
    ensures EvaluateWith(p, 8, t, a, b, c) == EvaluateWith(q, 8, t, a, b, c)
  {
    Equation8IgnoresPolicy(p, q, t, a, b, c);
  }

  lemma Entry9IgnoresPolicy(p: Policy, q: Policy, t: bv32, a: bv8, b: bv8, c: bv8)
    requires Defined9(t, a, b, c)
    ensures EvaluateWith(p, 9, t, a, b, c) == EvaluateWith(q, 9, t, a, b, c)
  {
    Equation9IgnoresPolicy(p, q, t, a, b, c);
  }

  lemma Entry10IgnoresPolicy(p: Policy, q: Policy, t: bv32, a: bv8, b: bv8, c: bv8)
    requires Defined10(t, a, b, c)
    ensures EvaluateWith(p, 10, t, a, b, c) == EvaluateWith(q, 10, t, a, b, c)
  {
    Equation10IgnoresPolicy(p, q, t, a, b, c);
  }

  lemma Entry11IgnoresPolicy(p: Policy, q: Policy, t: bv32, a: bv8, b: bv8, c: bv8)
    requires Defined11(t, a, b, c)
    ensures EvaluateWith(p, 11, t, a, b, c) == EvaluateWith(q, 11, t, a, b, c)
  {
    Equation11IgnoresPolicy(p, q, t, a, b, c);
  }

  lemma Entry12IgnoresPolicy(p: Policy, q: Policy, t: bv32, a: bv8, b: bv8, c: bv8)
    requires Defined12(t, a, b, c)
    ensures EvaluateWith(p, 12, t, a, b, c) == EvaluateWith(q, 12, t, a, b, c)
  {
    Equation12IgnoresPolicy(p, q, t, a, b, c);
  }

  lemma Entry13IgnoresPolicy(p: Policy, q: Policy, t: bv32, a: bv8, b: bv8, c: bv8)
    requires Defined13(t, a, b, c)
    ensures EvaluateWith(p, 13, t, a, b, c) == EvaluateWith(q, 13, t, a, b, c)
  {
    Equation13IgnoresPolicy(p, q, t, a, b, c);
  }

  lemma Entry14IgnoresPolicy(p: Policy, q: Policy, t: bv32, a: bv8, b: bv8, c: bv8)
    requires Defined14(t, a, b, c)
    ensures EvaluateWith(p, 14, t, a, b, c) == EvaluateWith(q, 14, t, a, b, c)
  {
    Equation14IgnoresPolicy(p, q, t, a, b, c);
  }

  lemma Entry15IgnoresPolicy(p: Policy, q: Policy, t: bv32, a: bv8, b: bv8, c: bv8)
    requires Defined15(t, a, b, c)
    ensures EvaluateWith(p, 15, t, a, b, c) == EvaluateWith(q, 15, t, a, b, c)
  {
    Equation15IgnoresPolicy(p, q, t, a, b, c);
  }

  /** Without an undefined case on the way, the sample of any entry does not depend on the
      policy. */
  lemma DefinedIgnoresPolicy(p: Policy, q: Policy, i: int, t: bv32, a: bv8, b: bv8, c: bv8)
    requires 0 <= i < RegistrySize() && Defined(i, t, a, b, c)
    ensures EvaluateWith(p, i, t, a, b, c) == EvaluateWith(q, i, t, a, b, c)
  {
    match i
    case 0 => Entry0IgnoresPolicy(p, q, t, a, b, c);
    case 1 => Entry1IgnoresPolicy(p, q, t, a, b, c);
    case 2 => Entry2IgnoresPolicy(p, q, t, a, b, c);
    case 3 => Entry3IgnoresPolicy(p, q, t, a, b, c);
    case 4 => Entry4IgnoresPolicy(p, q, t, a, b, c);
    case 5 => Entry5IgnoresPolicy(p, q, t, a, b, c);
    case 6 => Entry6IgnoresPolicy(p, q, t, a, b, c);
    case 7 => Entry7IgnoresPolicy(p, q, t, a, b, c);
    case 8 => Entry8IgnoresPolicy(p, q, t, a, b, c);
    case 9 => Entry9IgnoresPolicy(p, q, t, a, b, c);
    case 10 => Entry10IgnoresPolicy(p, q, t, a, b, c);
    case 11 => Entry11IgnoresPolicy(p, q, t, a, b, c);
    case 12 => Entry12IgnoresPolicy(p, q, t, a, b, c);
    case 13 => Entry13IgnoresPolicy(p, q, t, a, b, c);
    case 14 => Entry14IgnoresPolicy(p, q, t, a, b, c);
    case 15 => Entry15IgnoresPolicy(p, q, t, a, b, c);
  }

  const CleanEntries: set<int> := {0, 3, 4, 5, 6, 8, 12, 13, 15}

  lemma Entry0Defined(t: bv32, a: bv8, b: bv8, c: bv8)
    requires InDomain(0, a, b, c)
    ensures Defined(0, t, a, b, c)
  {
    assert ShiftOk(a as bv32) && ShiftOk(b as bv32);
  }

  lemma Entry3Defined(t: bv32, a: bv8, b: bv8, c: bv8)
    requires InDomain(3, a, b, c)
    ensures Defined(3, t, a, b, c)
  {
    assert ShiftOk(a as bv32) && ShiftOk(c as bv32);
  }

  lemma Entry4Defined(t: bv32, a: bv8, b: bv8, c: bv8)
    requires InDomain(4, a, b, c)
    ensures Defined(4, t, a, b, c)
  {
    assert ShiftOk(a as bv32) && ShiftOk(b as bv32) && ShiftOk(c as bv32);
  }

  lemma Entry5Defined(t: bv32, a: bv8, b: bv8, c: bv8)
    requires InDomain(5, a, b, c)
    ensures Defined(5, t, a, b, c)
  {
    assert ShiftOk(a as bv32) && ShiftOk(c as bv32);
  }

  lemma Entry6Defined(t: bv32, a: bv8, b: bv8, c: bv8)
    requires InDomain(6, a, b, c)
    ensures Defined(6, t, a, b, c)
  {
    assert ShiftOk(a as bv32) && ShiftOk(b as bv32) && ShiftOk(c as bv32);
  }

  lemma Entry8Defined(t: bv32, a: bv8, b: bv8, c: bv8)
    requires InDomain(8, a, b, c)
    ensures Defined(8, t, a, b, c)
  {
    assert ShiftOk(a as bv32) && ShiftOk(c as bv32);
  }

  lemma Entry12Defined(t: bv32, a: bv8, b: bv8, c: bv8)
    requires InDomain(12, a, b, c)
    ensures Defined(12, t, a, b, c)
  {
    assert ShiftOk(a as bv32) && ShiftOk(c as bv32);
  }

  lemma Entry13Defined(t: bv32, a: bv8, b: bv8, c: bv8)
    requires InDomain(13, a, b, c)
    ensures Defined(13, t, a, b, c)
  {
    assert ShiftOk(c as bv32);
  }

  lemma Entry15Defined(t: bv32, a: bv8, b: bv8, c: bv8)
    requires InDomain(15, a, b, c)
    ensures Defined(15, t, a, b, c)
  {
    assert a <= 8 && b <= 12 && c <= 10;
    assert IShlOk(4, a as bv32) && IShlOk(3, b as bv32);
    assert ShiftOk(b as bv32) && ShiftOk(c as bv32);
  }

  /** The clean entries never reach an undefined case inside their declared domains. */
  lemma CleanEntriesDefined(i: int, t: bv32, a: bv8, b: bv8, c: bv8)
    requires i in CleanEntries && InDomain(i, a, b, c)
    ensures Defined(i, t, a, b, c)
  {
    if i == 0 {
      Entry0Defined(t, a, b, c);
    } else if i == 3 {
      Entry3Defined(t, a, b, c);
    } else if i == 4 {
      Entry4Defined(t, a, b, c);
    } else if i == 5 {
      Entry5Defined(t, a, b, c);
    } else if i == 6 {
      Entry6Defined(t, a, b, c);
    } else if i == 8 {
      Entry8Defined(t, a, b, c);
    } else if i == 12 {
      Entry12Defined(t, a, b, c);
    } else if i == 13 {
      Entry13Defined(t, a, b, c);
    } else {
      Entry15Defined(t, a, b, c);
    }
  }

  /** Hence a clean entry gives the same sample under every policy. */
  lemma CleanEntriesIgnorePolicy(p: Policy, q: Policy, i: int, t: bv32, a: bv8, b: bv8, c: bv8)
    requires i in CleanEntries && InDomain(i, a, b, c)
    ensures EvaluateWith(p, i, t, a, b, c) == EvaluateWith(q, i, t, a, b, c)
  {
    CleanEntriesDefined(i, t, a, b, c);
    DefinedIgnoresPolicy(p, q, i, t, a, b, c);
  }

  /** Every entry outside the clean set reaches an undefined case for some in-domain input:
      `t % 0` (1, 2), a shift by 65535 after the clamp (7), a shift by `b >= 32` (9), a shift by
      `9 - c < 0` (10), `c / 0` (11), and `c << b` overflowing `int` (14). */
  lemma OtherEntriesReachHazard(i: int)
    requires 0 <= i < RegistrySize() && i !in CleanEntries
    ensures exists t: bv32, a: bv8, b: bv8, c: bv8 :: InDomain(i, a, b, c) && !Defined(i, t, a, b, c)
  {
    var w: (bv32, bv8, bv8, bv8) :=
      match i
      case 1 => (0, 0, 0, 0)
      case 2 => (0, 0, 4, 5)
      case 7 => (65537, 0, 10, 0)
      case 9 => (0, 0, 32, 0)
      case 10 => (0, 0, 0, 10)
      case 11 => (0, 0, 0, 3)
      case _ => (0, 0, 12, 10);
    assert InDomain(i, w.1, w.2, w.3) && !Defined(i, w.0, w.1, w.2, w.3);
  }

  /** A policy other than `Default`, used to show that a hazard changes the sample: an
      out-of-range shift gives all ones, and every other undefined case gives 0. */
  const AllOnes: Policy := Policy(
    (x: bv32, n: bv32) => 0xFFFF_FFFF,
    (x: bv32, n: bv32) => 0xFFFF_FFFF,
    (x: bv32) => 0,
    (x: Int16, n: bv32) => 0,
    (x: Int16, d: Int16) => 0,
    (x: Int16, d: Int16) => 0)

  lemma Entry1HazardShows()
    ensures InDomain(1, 0, 0, 1)
    ensures EvaluateWith(Default, 1, 2, 0, 0, 1) != EvaluateWith(AllOnes, 1, 2, 0, 0, 1)
  {
  }

  lemma Entry2HazardShows()
    ensures InDomain(2, 0, 4, 5)
    ensures EvaluateWith(Default, 2, 68, 0, 4, 5) != EvaluateWith(AllOnes, 2, 68, 0, 4, 5)
  {
  }

  lemma Entry7HazardShows()
    ensures InDomain(7, 0, 10, 0)
    ensures EvaluateWith(Default, 7, 65537, 0, 10, 0) != EvaluateWith(AllOnes, 7, 65537, 0, 10, 0)
  {
  }

  lemma Entry9HazardShows()
    ensures InDomain(9, 0, 32, 0)
    ensures EvaluateWith(Default, 9, 128, 0, 32, 0) != EvaluateWith(AllOnes, 9, 128, 0, 32, 0)
  {
  }

  lemma Entry10HazardShows()
    ensures InDomain(10, 0, 0, 2)
    ensures EvaluateWith(Default, 10, 1, 0, 0, 2) != EvaluateWith(AllOnes, 10, 1, 0, 0, 2)
  {
  }

  lemma Entry14HazardShows()
    ensures InDomain(14, 0, 12, 8)
    ensures EvaluateWith(Default, 14, 65537, 0, 12, 8) != EvaluateWith(AllOnes, 14, 65537, 0, 12, 8)
  {
  }

  /** For entries 1, 2, 7, 9, 10 and 14 the hazard reaches the sample: on some in-domain
      input the documented policy and `AllOnes` give different samples. */
  lemma HazardsReachTheSample(i: int)
    requires i in {1, 2, 7, 9, 10, 14}
    ensures exists t: bv32, a: bv8, b: bv8, c: bv8 ::
      InDomain(i, a, b, c) && EvaluateWith(Default, i, t, a, b, c) != EvaluateWith(AllOnes, i, t, a, b, c)
  {
    if i == 1 {
      Entry1HazardShows();
      assert InDomain(i, 0, 0, 1) && EvaluateWith(Default, i, 2, 0, 0, 1) != EvaluateWith(AllOnes, i, 2, 0, 0, 1);
    } else if i == 2 {
      Entry2HazardShows();
      assert InDomain(i, 0, 4, 5) && EvaluateWith(Default, i, 68, 0, 4, 5) != EvaluateWith(AllOnes, i, 68, 0, 4, 5);
    } else if i == 7 {
      Entry7HazardShows();
      assert InDomain(i, 0, 10, 0) && EvaluateWith(Default, i, 65537, 0, 10, 0) != EvaluateWith(AllOnes, i, 65537, 0, 10, 0);
    } else if i == 9 {
      Entry9HazardShows();
      assert InDomain(i, 0, 32, 0) && EvaluateWith(Default, i, 128, 0, 32, 0) != EvaluateWith(AllOnes, i, 128, 0, 32, 0);
    } else if i == 10 {
      Entry10HazardShows();
      assert InDomain(i, 0, 0, 2) && EvaluateWith(Default, i, 1, 0, 0, 2) != EvaluateWith(AllOnes, i, 1, 0, 0, 2);
    } else {
      Entry14HazardShows();
      assert InDomain(i, 0, 12, 8) && EvaluateWith(Default, i, 65537, 0, 12, 8) != EvaluateWith(AllOnes, i, 65537, 0, 12, 8);
    }
  }

  /** Entry 11 reaches `c / 0` when `b == 0`, but there `t * b` is 0 and masks the quotient:
      in its domain its sample is the same under every policy. */
  lemma Entry11DivisionMasked(p: Policy, q: Policy, t: bv32, a: bv8, b: bv8, c: bv8)
    requires InDomain(11, a, b, c)
    ensures EvaluateWith(p, 11, t, a, b, c) == EvaluateWith(q, 11, t, a, b, c)
  {
    if b != 0 {
      Entry11DefinedIff(t, a, b, c);
      Entry11IgnoresPolicy(p, q, t, a, b, c);
    } else {
      assert a <= 16 && 3 <= c <= 10;
      ShrAgrees(p, q, t, a as bv32);
      ShrAgrees(p, q, t, c as bv32);
      QuotientMasked(t, Shr(p, t, a as bv32), Shr(p, t, c as bv32),
        IDiv(p, Promote(c), IShl(p, Promote(b), 2)), IDiv(q, Promote(c), IShl(q, Promote(b), 2)));
    }
  }

  /** With `b == 0` the quotient does not reach equation 11's sample. */
  lemma QuotientMasked(t: bv32, shrA: bv32, shrC: bv32, quot1: Int16, quot2: Int16)
    ensures Combine11(t, 0, shrA, shrC, quot1) == Combine11(t, 0, shrA, shrC, quot2)
  {
  }

  /** Entry 1 reaches an out-of-range left shift even with `b != 0`: at `t = 2`, `a = 0`,
      `b = 3`, `c = 14` the amount `t % b * t * c` is 56, and the sample shows it. */
  lemma Entry1ShiftHazardShows()
    ensures InDomain(1, 0, 3, 14) && !Defined(1, 2, 0, 3, 14)
    ensures EvaluateWith(Default, 1, 2, 0, 3, 14) != EvaluateWith(AllOnes, 1, 2, 0, 3, 14)
  {
  }

  /** Entry 2 in its domain: defined exactly when `a != 0`. */
  lemma Entry2DefinedIff(t: bv32, a: bv8, b: bv8, c: bv8)
    requires InDomain(2, a, b, c)
    ensures Defined(2, t, a, b, c) <==> a != 0
  {
    assert a <= 12 && b <= 20 && c <= 12;
  }

  /** Entry 7 in its domain: defined exactly up to the clamp, `t <= 65536`; above it the
      clamped time is shifted by 65535. */
  lemma Entry7DefinedIff(t: bv32, a: bv8, b: bv8, c: bv8)
    requires InDomain(7, a, b, c)
    ensures Defined(7, t, a, b, c) <==> t <= 65536
  {
    assert a <= 10 && b <= 22;
  }

  /** Entry 9 in its domain: defined exactly when `b < 32`. */
  lemma Entry9DefinedIff(t: bv32, a: bv8, b: bv8, c: bv8)
    requires InDomain(9, a, b, c)
    ensures Defined(9, t, a, b, c) <==> b < 32
  {
    assert a <= 16 && c <= 26;
  }

  /** Entry 10 in its domain: defined only when `c <= 9` and the outer shift amount
      `16 * c * t * t`, computed in 32 bits, is below 32. */
  lemma Entry10DefinedOnlyIf(t: bv32, a: bv8, b: bv8, c: bv8)
    requires InDomain(10, a, b, c) && Defined(10, t, a, b, c)
    ensures c <= 9 && ((((c as bv32) * t) << 4) * t) < 32
  {
    assert c <= 16;
  }

  /** Entry 11 in its domain: defined exactly when `b != 0`. */
  lemma Entry11DefinedIff(t: bv32, a: bv8, b: bv8, c: bv8)
    requires InDomain(11, a, b, c)
    ensures Defined(11, t, a, b, c) <==> b != 0
  {
    assert a <= 16 && b <= 28 && 3 <= c <= 10;
  }

  /** Entry 14 in its domain: defined exactly when the first branch is taken (`t & (4 << a)`)
      or `c << b` fits in a 16-bit `int`. */
  lemma Entry14DefinedIff(t: bv32, a: bv8, b: bv8, c: bv8)
    requires InDomain(14, a, b, c)
    ensures Defined(14, t, a, b, c) <==>
      (t & ((4 as bv32) << (a as bv32)) != 0 || (c as bv32) << (b as bv32) < 0x8000)
  {
    assert a <= 8 && b <= 12 && 3 <= c <= 10;
    FourShiftedFits(a);
    SmallShiftFits(c, b);
  }

  /** `4 << a` for `a <= 8` is a positive `int`, whose conversion is the 32-bit shift. */
  lemma FourShiftedFits(a: bv8)
    requires a <= 8
    ensures IShlOk(4, a as bv32)
    ensures ToU32(WrapShl(4, a as bv32)) == (4 as bv32) << (a as bv32)
  {
  }

  /** For `b <= 12` and `c <= 10`, `c << b` on `int` is defined exactly when the 32-bit
      shift stays below 2^15. */
  lemma SmallShiftFits(c: bv8, b: bv8)
    requires b <= 12 && c <= 10
    ensures IShlOk(Promote(c), b as bv32) <==> (c as bv32) << (b as bv32) < 0x8000
  {
  }
}
