/** C integer arithmetic as the equations use it on the 8-bit AVR target.

    The header is compiled as C++ (its table declaration needs C++), but every operation the
    equations use follows the rules C and C++11 share, and "C" below means those rules. In
    particular a signed left shift is taken as defined only when its result fits in a
    non-negative `int`; C++14 and later also define it when the result fits in the unsigned
    type, which this model does not adopt.

    `uint32_t` values are `bv32`, whose `+ - *` and unary minus already wrap modulo 2^32;
    `uint8_t` parameters are `bv8`. C promotes a `uint8_t` to `int`, which is 16 bits wide on
    AVR, so small-parameter subexpressions such as `37 - c` or `4 << a` are 16-bit two's
    complement values (`Int16`, the bit pattern as a `bv16`) that become `uint32_t` (by
    `ToU32`, which sign-extends) only when they meet the time counter or serve as a shift
    amount.

    Where C leaves the result undefined (a shift by a negative amount or by the operand's
    width or more, a zero divisor, a signed shift whose result does not fit, a quotient that
    overflows), the value is taken from a `Policy`, so every statement proved for all
    policies holds whatever the compiler does there. `Default` is the one documented policy
    the registry evaluates with. */
module CArith {

  /** An AVR `int`: 16-bit two's complement, as its bit pattern. */
  type Int16 = bv16

  /** The sign bit of an `int` is set. */
  predicate Negative(x: Int16) {
    x >= 0x8000
  }

  /** The mathematical value of an `int` bit pattern. */
  function IntValue(x: Int16): (v: int)
    ensures -0x8000 <= v < 0x8000
    ensures Negative(x) <==> v < 0
  {
    if Negative(x) then x as int - 0x1_0000 else x as int
  }

  /** Integer promotion of a `uint8_t` to `int`: the value is kept. */
  function Promote(x: bv8): (r: Int16)
    ensures !Negative(r)
  {
    x as bv16
  }

  /** Conversion of an `int` to `uint32_t`: the value modulo 2^32, so `30 - b` with `b > 30`
      wraps around. A negative `int` has the value `x - 2^16` for its pattern `x`, so it
      becomes `x - 2^16 + 2^32`: the 16-bit pattern sign-extended to 32 bits, its low half
      kept and its high half all ones. */
  function ToU32(x: Int16): (r: bv32)
    ensures !Negative(x) ==> r == x as bv32
    ensures Negative(x) ==> r == x as bv32 + 0xFFFF_0000
    ensures Negative(x) ==> r >= 0xFFFF_8000
    ensures r >> 16 == if Negative(x) then 0xFFFF else 0
  {
    if Negative(x) then (x as bv32) | 0xFFFF_0000 else x as bv32
  }

  /** The conversion of the `uint32_t` result to the `uint8_t` sample: its low byte. */
  function Low8(x: bv32): bv8 {
    (x & 0xFF) as bv8
  }

  /** The sample is the 32-bit result modulo 256. */
  lemma Low8IsResidue(x: bv32)
    ensures Low8(x) as bv32 == x % 256
  {
  }

  /** C's truth value of `x & y`, the condition of a `?:` such as `t & b ? ... : ...`. */
  predicate BitsMeet(x: bv32, y: bv32) {
    x & y != 0
  }

  /** The magnitude of an `int`, as an unsigned 16-bit number (32768 for the most negative). */
  function Magnitude(x: Int16): bv16 {
    if Negative(x) then -x else x
  }

  /** C's `/` on `int` without overflow: the quotient of the magnitudes, negated when the
      signs differ. */
  function CDiv(x: Int16, d: Int16): Int16
    requires d != 0
  {
    var q := Magnitude(x) / Magnitude(d);
    if Negative(x) == Negative(d) then q else -q
  }

  /** C's `%` on `int`: the remainder of the magnitudes, with the sign of `x`. */
  function CRem(x: Int16, d: Int16): Int16
    requires d != 0
  {
    var r := Magnitude(x) % Magnitude(d);
    if Negative(x) then -r else r
  }

  /** The value a compiler gives in each undefined case, as a function of the operands
      (a shift amount is passed as its `uint32_t` value). */
  datatype Policy = Policy(
    shr: (bv32, bv32) -> bv32,      // `x >> n` on uint32_t with n outside [0, 32)
    shl: (bv32, bv32) -> bv32,      // `x << n` on uint32_t with n outside [0, 32)
    rem: bv32 -> bv32,              // `x % 0` on uint32_t
    ishl: (Int16, bv32) -> Int16,   // `x << n` on int when x < 0, n outside [0, 16) or the result overflows
    idiv: (Int16, Int16) -> Int16,  // `x / d` on int when d == 0 or the quotient overflows
    irem: (Int16, Int16) -> Int16)  // `x % d` on int in the same cases

  /** The documented policy: a shift out of range shifts every bit out (0); `x % 0` is `x`;
      `x / 0` saturates to the largest `int`, 32767; an `int` left shift keeps the low 16 bits
      of the shifted pattern (and is 0 when `n` is out of range); `x % d` is `x` when `d` is
      0 and 0 on overflow. */
  const Default: Policy := Policy(
    (x: bv32, n: bv32) => 0,
    (x: bv32, n: bv32) => 0,
    (x: bv32) => x,
    (x: Int16, n: bv32) => WrapShl(x, n),
    (x: Int16, d: Int16) => 0x7FFF,
    (x: Int16, d: Int16) => if d == 0 then x else 0)

  /** The shift amounts C defines for a 32-bit operand (a negative `int` amount converts to
      a `uint32_t` of at least 2^31, so it is excluded too). */
  predicate ShiftOk(n: bv32) {
    n < 32
  }

  /** `x >> n` on `uint32_t`. */
  function Shr(p: Policy, x: bv32, n: bv32): bv32 {
    if ShiftOk(n) then x >> n else p.shr(x, n)
  }

  /** `x << n` on `uint32_t` (bits shifted past bit 31 are lost). */
  function Shl(p: Policy, x: bv32, n: bv32): bv32 {
    if ShiftOk(n) then x << n else p.shl(x, n)
  }

  /** `x % d` on `uint32_t`. */
  function Rem(p: Policy, x: bv32, d: bv32): bv32 {
    if d != 0 then x % d else p.rem(x)
  }

  /** The low 16 bits of `x` shifted left by `n`: 0 once every bit is shifted out. */
  function WrapShl(x: Int16, n: bv32): Int16 {
    if n < 16 then x << (n as bv16) else 0
  }

  /** C defines `x << n` on a signed `int` only for `x >= 0`, `0 <= n < 16` and a result
      below 2^15, that is `x < 2^15 >> n`. */
  predicate IShlOk(x: Int16, n: bv32) {
    !Negative(x) && n < 16 && x < (0x8000 as bv16) >> (n as bv16)
  }

  /** `x << n` on `int`. */
  function IShl(p: Policy, x: Int16, n: bv32): Int16 {
    if IShlOk(x, n) then WrapShl(x, n) else p.ishl(x, n)
  }

  /** C defines `x / d` and `x % d` on `int` unless `d` is 0 or the quotient overflows
      (`-32768 / -1`). */
  predicate IDivOk(x: Int16, d: Int16) {
    d != 0 && !(x == 0x8000 && d == 0xFFFF)
  }

  /** `x / d` on `int`. */
  function IDiv(p: Policy, x: Int16, d: Int16): Int16 {
    if IDivOk(x, d) then CDiv(x, d) else p.idiv(x, d)
  }

  /** `x % d` on `int`. */
  function IRem(p: Policy, x: Int16, d: Int16): Int16 {
    if IDivOk(x, d) then CRem(x, d) else p.irem(x, d)
  }

  /** Where C defines an operation, its value does not depend on the policy. */
  lemma ShrAgrees(p: Policy, q: Policy, x: bv32, n: bv32)
    requires ShiftOk(n)
    ensures Shr(p, x, n) == Shr(q, x, n) == x >> n
  {
  }

  lemma ShlAgrees(p: Policy, q: Policy, x: bv32, n: bv32)
    requires ShiftOk(n)
    ensures Shl(p, x, n) == Shl(q, x, n) == x << n
  {
  }

  lemma RemAgrees(p: Policy, q: Policy, x: bv32, d: bv32)
    requires d != 0
    ensures Rem(p, x, d) == Rem(q, x, d) == x % d
  {
  }

  lemma IShlAgrees(p: Policy, q: Policy, x: Int16, n: bv32)
    requires IShlOk(x, n)
    ensures IShl(p, x, n) == IShl(q, x, n) == WrapShl(x, n)
  {
  }

  lemma IDivAgrees(p: Policy, q: Policy, x: Int16, d: Int16)
    requires IDivOk(x, d)
    ensures IDiv(p, x, d) == IDiv(q, x, d) == CDiv(x, d)
    ensures IRem(p, x, d) == IRem(q, x, d) == CRem(x, d)
  {
  }
}
