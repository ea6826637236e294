/** Facts about single generators that follow from their arithmetic: where a term vanishes,
    where time stops mattering, and where a hazard cannot reach the sample. Each holds under
    every policy. */
module Facts {
  import opened CArith
  import opened Generators

  /** Equation 7 replaces every time above 65536 by the same value, so there its sample no
      longer depends on `t`. */
  lemma Equation7ClampsTime(p: Policy, t1: bv32, t2: bv32, a: bv8, b: bv8, c: bv8)
    requires t1 > 65536 && t2 > 65536
    ensures Equation7(p, t1, a, b, c) == Equation7(p, t2, a, b, c)
  {
    assert ClampTime(t1) == ClampTime(t2);
  }

  /** `-t * (t ^ t)` is 0, since `t ^ t` is. */
  lemma ZeroProductVanishes(t: bv32, x: bv32)
    ensures ZeroProductOr(t, x) == x
  {
    assert t ^ t == 0;
  }

  /** When `t & (4 << a)` is set, equation 14 is `(t >> b) >> c`. */
  lemma Equation14FirstBranch(p: Policy, t: bv32, a: bv8, b: bv8, c: bv8)
    requires BitsMeet(t, ToU32(IShl(p, 4, a as bv32)))
    ensures Equation14(p, t, a, b, c) == Low8(Shr(p, Shr(p, t, b as bv32), c as bv32))
  {
    ZeroProductVanishes(t, Shr(p, t, b as bv32));
  }

  /** When `t & (4 << a)` is set, equation 15 is `(t >> b) >> 3`. */
  lemma Equation15FirstBranch(p: Policy, t: bv32, a: bv8, b: bv8, c: bv8)
    requires BitsMeet(t, ToU32(IShl(p, 4, a as bv32)))
    ensures Equation15(p, t, a, b, c) == Low8(Shr(p, t, b as bv32) >> 3)
  {
    ZeroProductVanishes(t, Shr(p, t, b as bv32));
  }

  /** Equation 9 is masked by `t >> 7`: silent for the first 128 ticks. */
  lemma Equation9SilentAtStart(p: Policy, t: bv32, a: bv8, b: bv8, c: bv8)
    requires t < 128
    ensures Equation9(p, t, a, b, c) == 0
  {
    assert t >> 7 == 0;
  }

  /** Equation 12 is masked by `b * t >> 7`: silent when `b` is 0. */
  lemma Equation12SilentWithoutB(p: Policy, t: bv32, a: bv8, c: bv8)
    ensures Equation12(p, t, a, 0, c) == 0
  {
    assert ((0 as bv32) * t) >> 7 == 0;
  }

  /** At `t = 0` equation 11 is `0 - 2`, wrapped to 254, whatever `c / (b << 2)` gives. */
  lemma Equation11AtZero(p: Policy, a: bv8, b: bv8, c: bv8)
    ensures Equation11(p, 0, a, b, c) == 254
  {
  }

  /** With `b != 0` and `c == 0` the left shift of equation 1 is by 0, leaving `t >> (a + 1)`. */
  lemma Equation1WithoutC(p: Policy, t: bv32, a: bv8, b: bv8)
    requires b != 0
    ensures Equation1(p, t, a, b, 0) == Low8(Shr(p, t, ToU32(Promote(a) + 1)))
  {
    assert Amount1(t, Rem(p, t, b as bv32), 0) == 0;
  }
}
