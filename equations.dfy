/** The sixteen bytebeat generators. Each maps the time counter `t` (`uint32_t`) and the
    parameters `a`, `b`, `c` (`uint8_t`) to one `uint8_t` sample, the low byte of a 32-bit
    expression. C's precedence (`* / %` over `+ -` over `<< >>` over `&` over `^` over `|`
    over `?:`, shifts grouping to the left) is written out with parentheses, since Dafny's
    own precedence for these operators differs.

    Each generator is written in two parts. `EquationK(p, t, a, b, c)` evaluates the
    operations C may leave undefined (shifts by a computed amount, `%` and `/`, shifts of an
    `int`) through the `CArith` helpers, taking their value from the policy `p` where C does
    not define it, and hands those values to `CombineK`, the rest of the expression, which
    only uses operations that are always defined (constant shifts, `& | ^ + - *`).

    Beside each generator, `DefinedK(t, a, b, c)` says that evaluating it meets none of C's
    undefined cases. Only the branch a `?:` takes is evaluated, so only its hazards count. */
module Generators {
  import opened CArith

  /** `((t & t >> a) + (t | t >> b)) & t >> (c + 1) | t >> a & t * (t >> b)`, given
      `shrA = t >> a`, `shrB = t >> b` and `shrC1 = t >> (c + 1)`. */
  function Combine0(t: bv32, shrA: bv32, shrB: bv32, shrC1: bv32): bv8 {
    Low8((((t & shrA) + (t | shrB)) & shrC1) | (shrA & (t * shrB)))
  }

  function Equation0(p: Policy, t: bv32, a: bv8, b: bv8, c: bv8): bv8 {
    Combine0(t, Shr(p, t, a as bv32), Shr(p, t, b as bv32), Shr(p, t, ToU32(Promote(c) + 1)))
  }

  predicate Defined0(t: bv32, a: bv8, b: bv8, c: bv8) {
    ShiftOk(a as bv32) && ShiftOk(b as bv32) && ShiftOk(ToU32(Promote(c) + 1))
  }

  /** The left-shift amount of equation 1, `t % b * t * c`, given `remB = t % b`. */
  function Amount1(t: bv32, remB: bv32, c: bv8): bv32 {
    (remB * t) * (c as bv32)
  }

  /** `t >> a + 1 << t % b * t * c` groups as `(t >> (a + 1)) << (((t % b) * t) * c)`. */
  function Equation1(p: Policy, t: bv32, a: bv8, b: bv8, c: bv8): bv8 {
    Low8(Shl(p, Shr(p, t, ToU32(Promote(a) + 1)), Amount1(t, Rem(p, t, b as bv32), c)))
  }

  predicate Defined1(t: bv32, a: bv8, b: bv8, c: bv8) {
    ShiftOk(ToU32(Promote(a) + 1)) && b != 0 && ShiftOk(Amount1(t, t % (b as bv32), c))
  }

  /** `t >> c ^ t & 37 | t + (t ^ t >> a) - t * ((t % a ? 2 : 6) & t >> b)
      ^ t << 1 & (t & b ? t >> 4 : t >> 10)`, given `remA = t % a` and the three shifts. */
  function Combine2(t: bv32, b: bv8, remA: bv32, shrC: bv32, shrA: bv32, shrB: bv32): bv8 {
    var m: bv32 := if remA != 0 then 2 else 6;
    Low8(((shrC ^ (t & 37))
         | (((t + (t ^ shrA)) - (t * (m & shrB)))
            ^ ((t << 1) & (if BitsMeet(t, b as bv32) then t >> 4 else t >> 10)))))
  }

  function Equation2(p: Policy, t: bv32, a: bv8, b: bv8, c: bv8): bv8 {
    Combine2(t, b, Rem(p, t, a as bv32), Shr(p, t, c as bv32), Shr(p, t, a as bv32), Shr(p, t, b as bv32))
  }

  predicate Defined2(t: bv32, a: bv8, b: bv8, c: bv8) {
    ShiftOk(c as bv32) && a != 0 && ShiftOk(a as bv32) && ShiftOk(b as bv32)
  }

  /** `b * t >> a ^ t & (37 - c) | t + (t ^ t >> 11) - t * ((t >> 6 ? 2 : a) & t >> (c + b))
      ^ t << 1 & (t & 6 ? t >> 4 : t >> c)`, given `btShrA = b * t >> a`,
      `shrCB = t >> (c + b)` and the value `pick` of `(t & 6 ? t >> 4 : t >> c)`. */
  function Combine3(t: bv32, a: bv8, c: bv8, btShrA: bv32, shrCB: bv32, pick: bv32): bv8 {
    var m: bv32 := if t >> 6 != 0 then 2 else a as bv32;
    Low8((btShrA ^ (t & ToU32(37 - Promote(c))))
         | (((t + (t ^ (t >> 11))) - (t * (m & shrCB)))
            ^ ((t << 1) & pick)))
  }

  function Equation3(p: Policy, t: bv32, a: bv8, b: bv8, c: bv8): bv8 {
    Combine3(t, a, c, Shr(p, (b as bv32) * t, a as bv32), Shr(p, t, ToU32(Promote(c) + Promote(b))),
             if BitsMeet(t, 6) then t >> 4 else Shr(p, t, c as bv32))
  }

  predicate Defined3(t: bv32, a: bv8, b: bv8, c: bv8) {
    ShiftOk(a as bv32) && ShiftOk(ToU32(Promote(c) + Promote(b))) && (BitsMeet(t, 6) || ShiftOk(c as bv32))
  }

  /** `c * t >> 2 ^ t & (30 - b) | t + (t ^ t >> b) - t * ((t >> 6 ? a : c) & t >> a)
      ^ t << 1 & (t & b ? t >> 4 : t >> c)`, given `shrB = t >> b`, `shrA = t >> a` and the
      value `pick` of `(t & b ? t >> 4 : t >> c)`. */
  function Combine4(t: bv32, a: bv8, b: bv8, c: bv8, shrB: bv32, shrA: bv32, pick: bv32): bv8 {
    var m: bv32 := if t >> 6 != 0 then a as bv32 else c as bv32;
    Low8(((((c as bv32) * t) >> 2) ^ (t & ToU32(30 - Promote(b))))
         | (((t + (t ^ shrB)) - (t * (m & shrA)))
            ^ ((t << 1) & pick)))
  }

  function Equation4(p: Policy, t: bv32, a: bv8, b: bv8, c: bv8): bv8 {
    Combine4(t, a, b, c, Shr(p, t, b as bv32), Shr(p, t, a as bv32),
             if BitsMeet(t, b as bv32) then t >> 4 else Shr(p, t, c as bv32))
  }

  predicate Defined4(t: bv32, a: bv8, b: bv8, c: bv8) {
    ShiftOk(b as bv32) && ShiftOk(a as bv32) && (BitsMeet(t, b as bv32) || ShiftOk(c as bv32))
  }

  /** `((t >> a & t) - (t >> a) + (t >> a & t)) + t * ((t >> c) & b)`. */
  function Combine5(t: bv32, b: bv8, shrA: bv32, shrC: bv32): bv8 {
    Low8((((shrA & t) - shrA) + (shrA & t)) + (t * (shrC & (b as bv32))))
  }

  function Equation5(p: Policy, t: bv32, a: bv8, b: bv8, c: bv8): bv8 {
    Combine5(t, b, Shr(p, t, a as bv32), Shr(p, t, c as bv32))
  }

  predicate Defined5(t: bv32, a: bv8, b: bv8, c: bv8) {
    ShiftOk(a as bv32) && ShiftOk(c as bv32)
  }

  /** `t >> b & t ? t >> a : -t >> c`, where `-t` is unary minus on `uint32_t`, that is
      2^32 - t modulo 2^32. */
  function Combine6(t: bv32, shrB: bv32, shrA: bv32, negShrC: bv32): bv8 {
    if BitsMeet(shrB, t) then Low8(shrA) else Low8(negShrC)
  }

  function Equation6(p: Policy, t: bv32, a: bv8, b: bv8, c: bv8): bv8 {
    Combine6(t, Shr(p, t, b as bv32), Shr(p, t, a as bv32), Shr(p, -t, c as bv32))
  }

  predicate Defined6(t: bv32, a: bv8, b: bv8, c: bv8) {
    ShiftOk(b as bv32) && (if BitsMeet(t >> (b as bv32), t) then ShiftOk(a as bv32) else ShiftOk(c as bv32))
  }

  /** The time equation 7 works with: any `t` above 65536 is replaced by `-65536`, which as a
      `uint32_t` is 2^32 - 65536. */
  function ClampTime(t: bv32): (r: bv32)
    ensures t <= 65536 ==> r == t && r >> 16 <= 1
    ensures t > 65536 ==> r == 0xFFFF_0000 && r >> 16 == 0xFFFF
  {
    if t > 65536 then -65536 else t
  }

  /** `(t >> a | c | t >> (t >> 16)) * b + (t >> (b + 1))` on the clamped time. */
  function Combine7(b: bv8, c: bv8, shrA: bv32, selfShr: bv32, shrB1: bv32): bv8 {
    Low8((((shrA | (c as bv32)) | selfShr) * (b as bv32)) + shrB1)
  }

  function Equation7(p: Policy, t: bv32, a: bv8, b: bv8, c: bv8): bv8 {
    var t := ClampTime(t);
    Combine7(b, c, Shr(p, t, a as bv32), Shr(p, t, t >> 16), Shr(p, t, ToU32(Promote(b) + 1)))
  }

  predicate Defined7(t: bv32, a: bv8, b: bv8, c: bv8) {
    ShiftOk(a as bv32) && ShiftOk(ClampTime(t) >> 16) && ShiftOk(ToU32(Promote(b) + 1))
  }

  /** `(t * (t >> a | t >> (a & c)) & b & t >> 8) ^ (t & t >> c | t >> 6)`. */
  function Combine8(t: bv32, b: bv8, shrA: bv32, shrAC: bv32, shrC: bv32): bv8 {
    Low8((((t * (shrA | shrAC)) & (b as bv32)) & (t >> 8)) ^ ((t & shrC) | (t >> 6)))
  }

  function Equation8(p: Policy, t: bv32, a: bv8, b: bv8, c: bv8): bv8 {
    Combine8(t, b, Shr(p, t, a as bv32), Shr(p, t, ToU32(Promote(a) & Promote(c))), Shr(p, t, c as bv32))
  }

  predicate Defined8(t: bv32, a: bv8, b: bv8, c: bv8) {
    ShiftOk(a as bv32) && ShiftOk(ToU32(Promote(a) & Promote(c))) && ShiftOk(c as bv32)
  }

  /** `((t >> c) * 7 | (t >> a) * 8 | (t >> b) * 7) & (t >> 7)`. */
  function Combine9(t: bv32, shrC: bv32, shrA: bv32, shrB: bv32): bv8 {
    Low8((((shrC * 7) | (shrA * 8)) | (shrB * 7)) & (t >> 7))
  }

  function Equation9(p: Policy, t: bv32, a: bv8, b: bv8, c: bv8): bv8 {
    Combine9(t, Shr(p, t, c as bv32), Shr(p, t, a as bv32), Shr(p, t, b as bv32))
  }

  predicate Defined9(t: bv32, a: bv8, b: bv8, c: bv8) {
    ShiftOk(c as bv32) && ShiftOk(a as bv32) && ShiftOk(b as bv32)
  }

  /** The amount of the first shift of equation 10's time counter, `9 - c`. */
  function Amount10(c: bv8): bv32 {
    ToU32(9 - Promote(c))
  }

  /** The outer shift amount of equation 10, `(c * t << 4) * t`. */
  function OuterAmount10(t: bv32, c: bv8): bv32 {
    (((c as bv32) * t) << 4) * t
  }

  /** The operand of equation 10's outer shift, `x * b * t`. */
  function Product10(x: bv32, b: bv8, t: bv32): bv32 {
    (x * (b as bv32)) * t
  }

  /** The last step of equation 10: `y >> 18`, truncated to a byte. */
  function Combine10(y: bv32): bv8 {
    Low8(y >> 18)
  }

  /** `(t >> a % (128 - b << (t >> (9 - c)))) * b * t >> (c * t << 4) * t >> 18`: the divisor
      `(128 - b) << (t >> (9 - c))` is an `int` shift (its left operand is an `int`), the
      remainder is an `int` too, and the tail groups as
      `((X * b * t) >> (((c * t) << 4) * t)) >> 18`. */
  function Equation10(p: Policy, t: bv32, a: bv8, b: bv8, c: bv8): bv8 {
    var divisor := IShl(p, 128 - Promote(b), Shr(p, t, Amount10(c)));
    var x := Shr(p, t, ToU32(IRem(p, Promote(a), divisor)));
    Combine10(Shr(p, Product10(x, b, t), OuterAmount10(t, c)))
  }

  predicate Defined10(t: bv32, a: bv8, b: bv8, c: bv8) {
    && ShiftOk(Amount10(c))
    && IShlOk(128 - Promote(b), t >> Amount10(c))
    && var divisor := WrapShl(128 - Promote(b), t >> Amount10(c));
       && IDivOk(Promote(a), divisor)
       && ShiftOk(ToU32(CRem(Promote(a), divisor)))
       && ShiftOk(OuterAmount10(t, c))
  }

  /** `(t * 12 & t >> a | t * b & t >> c | t * b & c / (b << 2)) - 2`, given the two shifts
      and the `int` quotient `quot = c / (b << 2)`, which meets `t * b` as a `uint32_t`. */
  function Combine11(t: bv32, b: bv8, shrA: bv32, shrC: bv32, quot: Int16): bv8 {
    Low8(((((t * 12) & shrA) | ((t * (b as bv32)) & shrC)) | ((t * (b as bv32)) & ToU32(quot))) - 2)
  }

  function Equation11(p: Policy, t: bv32, a: bv8, b: bv8, c: bv8): bv8 {
    Combine11(t, b, Shr(p, t, a as bv32), Shr(p, t, c as bv32),
              IDiv(p, Promote(c), IShl(p, Promote(b), 2)))
  }

  predicate Defined11(t: bv32, a: bv8, b: bv8, c: bv8) {
    && ShiftOk(a as bv32) && ShiftOk(c as bv32) && IShlOk(Promote(b), 2)
    && IDivOk(Promote(c), WrapShl(Promote(b), 2))
  }

  /** `t * (t >> a) & (b * t >> 7) & (8 * t >> c)`. */
  function Combine12(t: bv32, b: bv8, shrA: bv32, eightTShrC: bv32): bv8 {
    Low8(((t * shrA) & (((b as bv32) * t) >> 7)) & eightTShrC)
  }

  function Equation12(p: Policy, t: bv32, a: bv8, b: bv8, c: bv8): bv8 {
    Combine12(t, b, Shr(p, t, a as bv32), Shr(p, 8 * t, c as bv32))
  }

  predicate Defined12(t: bv32, a: bv8, b: bv8, c: bv8) {
    ShiftOk(a as bv32) && ShiftOk(c as bv32)
  }

  /** The shift amount `12 - (a >> 1)` of equation 13. */
  function Amount13(a: bv8): bv32 {
    ToU32(12 - (Promote(a) >> 1))
  }

  /** `t >> c ^ t & 1 | t + (t ^ t >> 21) - t * ((t >> 4 ? b : a) & t >> (12 - (a >> 1)))
      ^ t << 1 & (a & 12 ? t >> 4 : t >> 10)`. */
  function Combine13(t: bv32, a: bv8, b: bv8, shrC: bv32, shrHalfA: bv32): bv8 {
    var m: bv32 := if t >> 4 != 0 then b as bv32 else a as bv32;
    Low8((shrC ^ (t & 1))
         | (((t + (t ^ (t >> 21))) - (t * (m & shrHalfA)))
            ^ ((t << 1) & (if a & 12 != 0 then t >> 4 else t >> 10))))
  }

  function Equation13(p: Policy, t: bv32, a: bv8, b: bv8, c: bv8): bv8 {
    Combine13(t, a, b, Shr(p, t, c as bv32), Shr(p, t, Amount13(a)))
  }

  predicate Defined13(t: bv32, a: bv8, b: bv8, c: bv8) {
    ShiftOk(c as bv32) && ShiftOk(Amount13(a))
  }

  /** `-t * (t ^ t) | x`, the operand shared by the first branch of equations 14 and 15
      (`-t * (t ^ t)` is `(-t) * (t ^ t)`). */
  function ZeroProductOr(t: bv32, x: bv32): bv32 {
    ((-t) * (t ^ t)) | x
  }

  /** `(t & (4 << a)) ? (-t * (t ^ t) | t >> b) >> c : (t >> 4) | ((t & (c << b)) ? t << 1 : t)`,
      given the `int` shifts `fourShlA = 4 << a` and `cShlB = c << b` and the value `first`
      of the first branch. */
  function Combine14(t: bv32, fourShlA: Int16, first: bv32, cShlB: Int16): bv8 {
    if BitsMeet(t, ToU32(fourShlA)) then Low8(first)
    else Low8((t >> 4) | (if BitsMeet(t, ToU32(cShlB)) then t << 1 else t))
  }

  function Equation14(p: Policy, t: bv32, a: bv8, b: bv8, c: bv8): bv8 {
    Combine14(t, IShl(p, 4, a as bv32),
              Shr(p, ZeroProductOr(t, Shr(p, t, b as bv32)), c as bv32),
              IShl(p, Promote(c), b as bv32))
  }

  predicate Defined14(t: bv32, a: bv8, b: bv8, c: bv8) {
    && IShlOk(4, a as bv32)
    && if BitsMeet(t, ToU32(WrapShl(4, a as bv32))) then ShiftOk(b as bv32) && ShiftOk(c as bv32)
       else IShlOk(Promote(c), b as bv32)
  }

  /** `(t & (4 << a)) ? (-t * (t ^ t) | t >> b) >> 3 : (t >> c) | ((t & (3 << b)) ? t << 1 : t)`. */
  function Combine15(t: bv32, fourShlA: Int16, shrB: bv32, shrC: bv32, threeShlB: Int16): bv8 {
    if BitsMeet(t, ToU32(fourShlA)) then Low8(ZeroProductOr(t, shrB) >> 3)
    else Low8(shrC | (if BitsMeet(t, ToU32(threeShlB)) then t << 1 else t))
  }

  function Equation15(p: Policy, t: bv32, a: bv8, b: bv8, c: bv8): bv8 {
    Combine15(t, IShl(p, 4, a as bv32), Shr(p, t, b as bv32), Shr(p, t, c as bv32), IShl(p, 3, b as bv32))
  }

  predicate Defined15(t: bv32, a: bv8, b: bv8, c: bv8) {
    && IShlOk(4, a as bv32)
    && if BitsMeet(t, ToU32(WrapShl(4, a as bv32))) then ShiftOk(b as bv32)
       else ShiftOk(c as bv32) && IShlOk(3, b as bv32)
  }
}
