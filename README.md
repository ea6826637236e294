# Glitch Storm equation registry in Dafny

Glitch Storm makes sound from "bytebeat" generators. Each generator is one integer expression
over a 32-bit time counter `t` and three 8-bit parameters `a`, `b`, `c`, and returns one 8-bit
sample. The header `Glitch_Storm/equations.h` is C++ (its table declaration
`EquationMeta equations[]` needs it), but the expressions use only operations whose rules C and
C++11 share; "C" below means those rules. The header defines sixteen generators
(`equation_0` … `equation_15`).
It also defines a constant table `equations[]`: each `EquationMeta` row pairs a generator with
the inclusive range its author intends for each parameter. Callers pick a generator by its
index, which the device shows on four indicator LEDs.

The model has four modules:

- `CArith` (`c_arith.dfy`): the C arithmetic the expressions use on the 8-bit AVR target.
  - `uint32_t` is `bv32`, where `+ - *` and unary minus already wrap modulo 2^32. So `-t` is
    2^32 - t.
  - `uint8_t` is `bv8`. It promotes to a 16-bit `int`, held as its `bv16` bit pattern.
  - An `int` becomes `uint32_t` by sign extension (`ToU32`).
  - The sample is the low byte of the 32-bit result (`Low8`).
  - Wherever C leaves a result undefined, the value comes from a `Policy`. The cases are a
    shift by the operand's width or more, a negative shift amount, a zero divisor, a signed
    shift that overflows, and `-32768 / -1`. `Default` is the one documented policy; every
    other statement holds for all policies.
- `Generators` (`equations.dfy`): the sixteen generators, with C's operator precedence
  written out. `EquationK` evaluates the operations that can be undefined and passes their
  values to `CombineK`, the always-defined rest of the expression. `DefinedK` says that
  evaluating the generator meets none of C's undefined cases. Only the branch a `?:` takes
  counts.
- `Registry` (`registry.dfy`): `EquationMeta`, the table, its size, the declared domains,
  and dispatch by index.
- `Hazards` (`hazards.dfy`) and `Facts` (`facts.dfy`): what the generators do.
  - Which entries stay clear of undefined behaviour inside their declared domains.
  - Which entries do not, and whether the compiler's choice then shows in the sample.
  - Identities of single generators.

## Model

| member | source | states |
|---|---|---|
| CArith.ToU32 | Glitch_Storm/equations.h:52 | converting an `int` such as `30 - b` to `uint32_t` keeps a non-negative value; a negative one becomes its value plus 2^32 (its pattern plus 2^32 - 2^16), so its high half is all ones and its low half is the `int`'s pattern |
| CArith.Low8IsResidue | Glitch_Storm/equations.h:26 | the returned `uint8_t` is the 32-bit result modulo 256 |
| CArith.Low8 | Glitch_Storm/equations.h:26 | no contract of its own: the `uint8_t` return value, the low byte of the 32-bit result; stated by `CArith.Low8IsResidue` |
| CArith.Shr | Glitch_Storm/equations.h:30 | no contract of its own: `x >> n` on `uint32_t`, with the policy's value for `n >= 32`; `CArith.ShrAgrees` states that below 32 it is the shift under every policy |
| CArith.Shl | Glitch_Storm/equations.h:40 | no contract of its own: `x << n` on `uint32_t`, with the policy's value for `n >= 32`; partner `CArith.ShlAgrees` |
| CArith.Rem | Glitch_Storm/equations.h:40 | no contract of its own: `t % b` on `uint32_t`, with the policy's value for `b == 0`; partner `CArith.RemAgrees` |
| CArith.IShl | Glitch_Storm/equations.h:93 | no contract of its own: `x << n` on a 16-bit `int` such as `4 << a` or `c << b`, defined as in `CArith.IShlOk`; partner `CArith.IShlAgrees` |
| CArith.IDiv | Glitch_Storm/equations.h:81 | no contract of its own: `c / (b << 2)` on `int`, with the policy's value for a zero divisor or overflow; partner `CArith.IDivAgrees` |
| CArith.IRem | Glitch_Storm/equations.h:77 | no contract of its own: `a % (...)` on `int`, likewise; partner `CArith.IDivAgrees` |
| CArith.CDiv | Glitch_Storm/equations.h:81 | no contract of its own: the defined quotient, the quotient of the magnitudes negated when the signs differ |
| CArith.CRem | Glitch_Storm/equations.h:77 | no contract of its own: the defined remainder, the remainder of the magnitudes with the sign of the dividend |
| CArith.ShrAgrees | Glitch_Storm/equations.h:30 | a `uint32_t` right shift by less than 32 is the plain shift, the same under every policy |
| CArith.ShlAgrees | Glitch_Storm/equations.h:40 | a `uint32_t` left shift by less than 32 is the plain shift, the same under every policy |
| CArith.RemAgrees | Glitch_Storm/equations.h:40 | a `uint32_t` remainder by a non-zero divisor is the plain remainder, the same under every policy |
| CArith.IShlAgrees | Glitch_Storm/equations.h:93 | a defined `int` left shift is the 16-bit shift, the same under every policy |
| CArith.IDivAgrees | Glitch_Storm/equations.h:77-81 | a defined `int` division and remainder are the truncating quotient and its remainder, the same under every policy |
| Generators.Equation0 | Glitch_Storm/equations.h:29-31 | no contract of its own: `equation_0`, written as `Generators.Combine0` over the values of its possibly undefined operations, with `Generators.Defined0` for when none is undefined; its properties are stated by Hazards.Equation0IgnoresPolicy, Hazards.Entry0Defined |
| Generators.Equation1 | Glitch_Storm/equations.h:33-41 | no contract of its own: `equation_1`, a shift of a shift whose amount is `Generators.Amount1`, both through the policy helpers, with `Generators.Defined1` for when none is undefined; its properties are stated by Hazards.Equation1IgnoresPolicy, Hazards.Entry1ShiftHazardShows, Hazards.HazardsReachTheSample, Facts.Equation1WithoutC |
| Generators.Equation2 | Glitch_Storm/equations.h:43-45 | no contract of its own: `equation_2`, written as `Generators.Combine2` over the values of its possibly undefined operations, with `Generators.Defined2` for when none is undefined; its properties are stated by Hazards.Equation2IgnoresPolicy, Hazards.Entry2DefinedIff, Hazards.HazardsReachTheSample |
| Generators.Equation3 | Glitch_Storm/equations.h:47-49 | no contract of its own: `equation_3`, written as `Generators.Combine3` over the values of its possibly undefined operations, with `Generators.Defined3` for when none is undefined; its properties are stated by Hazards.Equation3IgnoresPolicy, Hazards.Entry3Defined |
| Generators.Equation4 | Glitch_Storm/equations.h:51-53 | no contract of its own: `equation_4`, written as `Generators.Combine4` over the values of its possibly undefined operations, with `Generators.Defined4` for when none is undefined; its properties are stated by Hazards.Equation4IgnoresPolicy, Hazards.Entry4Defined |
| Generators.Equation5 | Glitch_Storm/equations.h:55-57 | no contract of its own: `equation_5`, written as `Generators.Combine5` over the values of its possibly undefined operations, with `Generators.Defined5` for when none is undefined; its properties are stated by Hazards.Equation5IgnoresPolicy, Hazards.Entry5Defined |
| Generators.Equation6 | Glitch_Storm/equations.h:59-61 | no contract of its own: `equation_6`, written as `Generators.Combine6` over the values of its possibly undefined operations, with `Generators.Defined6` for when none is undefined; its properties are stated by Hazards.Equation6IgnoresPolicy, Hazards.Entry6Defined |
| Generators.Equation7 | Glitch_Storm/equations.h:63-66 | no contract of its own: `equation_7`, written as `Generators.Combine7` over the values of its possibly undefined operations, with `Generators.Defined7` for when none is undefined; its properties are stated by Hazards.Equation7IgnoresPolicy, Hazards.Entry7DefinedIff, Hazards.HazardsReachTheSample, Facts.Equation7ClampsTime |
| Generators.Equation8 | Glitch_Storm/equations.h:68-70 | no contract of its own: `equation_8`, written as `Generators.Combine8` over the values of its possibly undefined operations, with `Generators.Defined8` for when none is undefined; its properties are stated by Hazards.Equation8IgnoresPolicy, Hazards.Entry8Defined |
| Generators.Equation9 | Glitch_Storm/equations.h:72-74 | no contract of its own: `equation_9`, written as `Generators.Combine9` over the values of its possibly undefined operations, with `Generators.Defined9` for when none is undefined; its properties are stated by Hazards.Equation9IgnoresPolicy, Hazards.Entry9DefinedIff, Hazards.HazardsReachTheSample, Facts.Equation9SilentAtStart |
| Generators.Equation10 | Glitch_Storm/equations.h:76-78 | no contract of its own: `equation_10`, written as `Generators.Combine10` over the values of its possibly undefined operations, with `Generators.Defined10` for when none is undefined; its properties are stated by Hazards.Equation10IgnoresPolicy, Hazards.Entry10DefinedOnlyIf, Hazards.HazardsReachTheSample |
| Generators.Equation11 | Glitch_Storm/equations.h:80-82 | no contract of its own: `equation_11`, written as `Generators.Combine11` over the values of its possibly undefined operations, with `Generators.Defined11` for when none is undefined; its properties are stated by Hazards.Equation11IgnoresPolicy, Hazards.Entry11DefinedIff, Hazards.Entry11DivisionMasked, Facts.Equation11AtZero |
| Generators.Equation12 | Glitch_Storm/equations.h:84-86 | no contract of its own: `equation_12`, written as `Generators.Combine12` over the values of its possibly undefined operations, with `Generators.Defined12` for when none is undefined; its properties are stated by Hazards.Equation12IgnoresPolicy, Hazards.Entry12Defined, Facts.Equation12SilentWithoutB |
| Generators.Equation13 | Glitch_Storm/equations.h:88-90 | no contract of its own: `equation_13`, written as `Generators.Combine13` over the values of its possibly undefined operations, with `Generators.Defined13` for when none is undefined; its properties are stated by Hazards.Equation13IgnoresPolicy, Hazards.Entry13Defined |
| Generators.Equation14 | Glitch_Storm/equations.h:92-94 | no contract of its own: `equation_14`, written as `Generators.Combine14` over the values of its possibly undefined operations, with `Generators.Defined14` for when none is undefined; its properties are stated by Hazards.Equation14IgnoresPolicy, Hazards.Entry14DefinedIff, Hazards.HazardsReachTheSample, Facts.Equation14FirstBranch |
| Generators.Equation15 | Glitch_Storm/equations.h:96-98 | no contract of its own: `equation_15`, written as `Generators.Combine15` over the values of its possibly undefined operations, with `Generators.Defined15` for when none is undefined; its properties are stated by Hazards.Equation15IgnoresPolicy, Hazards.Entry15Defined, Facts.Equation15FirstBranch |
| Registry.Equations | Glitch_Storm/equations.h:106-123 | no contract of its own: the sixteen rows with their functions and bounds as declared; stated by `Registry.TableHoldsEquations`, `Registry.RegistrySize` and `Registry.DeclaredDomainsWellFormed` |
| Registry.EvaluateWith | Glitch_Storm/equations.h:106-123 | no contract of its own: the call through row `i`'s function pointer as a `match` on the index; tied to the table by `Registry.DispatchFollowsTable` |
| Generators.ClampTime | Glitch_Storm/equations.h:64 | up to 65536 the time is kept and its self-shift amount `t >> 16` is at most 1; above it the time becomes 2^32 - 65536 and the self-shift amount is 65535 |
| Registry.RegistrySize | Glitch_Storm/equations.h:104-123 | the table has exactly 16 entries, so every index fits the 4-bit LED display |
| Registry.DeclaredDomainsWellFormed | Glitch_Storm/equations.h:107-122 | every row declares `aMin <= aMax`, `bMin <= bMax` and `cMin <= cMax` |
| Registry.DomainOf | Glitch_Storm/equations.h:6-11 | the declared bounds of a valid index describe non-empty ranges |
| Registry.TableHoldsEquations | Glitch_Storm/equations.h:106-127 | entry `i` holds `equation_i` for every index (not `equation_{i+1}`, as the comment at line 127 says) |
| Registry.DispatchFollowsTable | Glitch_Storm/equations.h:106-123 | dispatching index `i` by `match` gives what calling the function pointer in row `i` gives |
| Registry.Evaluate | Glitch_Storm/equations.h:106-123 | one sample of entry `i` under the documented policy is the table's function applied to `(t, a, b, c)` |
| Hazards.Equation0IgnoresPolicy | Glitch_Storm/equations.h:30 | without an out-of-range shift, equation 0 gives the same sample under every policy |
| Hazards.Equation1IgnoresPolicy | Glitch_Storm/equations.h:40 | with `b != 0` and every shift in range, equation 1 is policy-independent |
| Hazards.Equation2IgnoresPolicy | Glitch_Storm/equations.h:44 | with `a != 0` and every shift in range, equation 2 is policy-independent |
| Hazards.Equation3IgnoresPolicy | Glitch_Storm/equations.h:48 | with the shifts in range (`t >> c` only where `t & 6` is 0), equation 3 is policy-independent |
| Hazards.Equation4IgnoresPolicy | Glitch_Storm/equations.h:52 | with the shifts in range (`t >> c` only where `t & b` is 0), equation 4 is policy-independent |
| Hazards.Equation5IgnoresPolicy | Glitch_Storm/equations.h:56 | with `a, c < 32`, equation 5 is policy-independent |
| Hazards.Equation6IgnoresPolicy | Glitch_Storm/equations.h:60 | with `t >> b` in range and the taken branch's shift in range, equation 6 is policy-independent |
| Hazards.Equation7IgnoresPolicy | Glitch_Storm/equations.h:64-65 | with the shifts of the clamped time in range, equation 7 is policy-independent |
| Hazards.Equation8IgnoresPolicy | Glitch_Storm/equations.h:69 | with the shifts by `a`, `a & c` and `c` in range, equation 8 is policy-independent |
| Hazards.Equation9IgnoresPolicy | Glitch_Storm/equations.h:73 | with `a, b, c < 32`, equation 9 is policy-independent |
| Hazards.Equation10IgnoresPolicy | Glitch_Storm/equations.h:77 | with `9 - c` in range, `(128 - b) << (t >> (9 - c))` a defined `int` shift, a defined non-zero `%`, and in-range outer shifts, equation 10 is policy-independent |
| Hazards.Equation11IgnoresPolicy | Glitch_Storm/equations.h:81 | with the shifts in range and `c / (b << 2)` defined, equation 11 is policy-independent |
| Hazards.Equation12IgnoresPolicy | Glitch_Storm/equations.h:85 | with `a, c < 32`, equation 12 is policy-independent |
| Hazards.Equation13IgnoresPolicy | Glitch_Storm/equations.h:89 | with `c` and `12 - (a >> 1)` in range, equation 13 is policy-independent |
| Hazards.Equation14IgnoresPolicy | Glitch_Storm/equations.h:93 | with `4 << a` defined and the taken branch defined (`c << b` fitting an `int` in the second), equation 14 is policy-independent |
| Hazards.Equation15IgnoresPolicy | Glitch_Storm/equations.h:97 | with `4 << a` defined and the taken branch defined, equation 15 is policy-independent |
| Hazards.DefinedIgnoresPolicy | Glitch_Storm/equations.h:29-123 | for every index, a sample reached without an undefined case does not depend on the policy |
| Hazards.Entry0Defined | Glitch_Storm/equations.h:107 | entry 0 never meets an undefined case inside its declared domain, for every `t` |
| Hazards.Entry3Defined | Glitch_Storm/equations.h:110 | the same for entry 3 |
| Hazards.Entry4Defined | Glitch_Storm/equations.h:111 | the same for entry 4 |
| Hazards.Entry5Defined | Glitch_Storm/equations.h:112 | the same for entry 5 |
| Hazards.Entry6Defined | Glitch_Storm/equations.h:113 | the same for entry 6 |
| Hazards.Entry8Defined | Glitch_Storm/equations.h:115 | the same for entry 8 |
| Hazards.Entry12Defined | Glitch_Storm/equations.h:119 | the same for entry 12 |
| Hazards.Entry13Defined | Glitch_Storm/equations.h:120 | the same for entry 13 |
| Hazards.Entry15Defined | Glitch_Storm/equations.h:122 | the same for entry 15 |
| Hazards.CleanEntriesDefined | Glitch_Storm/equations.h:29-122 | entries 0, 3, 4, 5, 6, 8, 12, 13 and 15 are defined on their whole declared domains |
| Hazards.CleanEntriesIgnorePolicy | Glitch_Storm/equations.h:29-122 | so their samples on their declared domains are the same under every policy |
| Hazards.OtherEntriesReachHazard | Glitch_Storm/equations.h:29-122 | each of entries 1, 2, 7, 9, 10, 11 and 14 has an in-domain input that meets an undefined case |
| Hazards.HazardsReachTheSample | Glitch_Storm/equations.h:29-122 | for entries 1, 2, 7, 9, 10 and 14, some in-domain input gives different samples under two policies |
| Hazards.Entry1ShiftHazardShows | Glitch_Storm/equations.h:40 | entry 1 also overflows its left shift with `b != 0` (`t = 2, a = 0, b = 3, c = 14`: amount 56), and the sample shows it |
| Hazards.Entry11DivisionMasked | Glitch_Storm/equations.h:81 | entry 11 divides by zero when `b == 0`, yet its sample never depends on the policy inside its domain |
| Hazards.QuotientMasked | Glitch_Storm/equations.h:81 | with `b == 0` the quotient `c / (b << 2)` is masked by `t * b` |
| Hazards.Entry2DefinedIff | Glitch_Storm/equations.h:44 | in its domain, entry 2 is defined exactly when `a != 0` |
| Hazards.Entry7DefinedIff | Glitch_Storm/equations.h:64-65 | in its domain, entry 7 is defined exactly when `t <= 65536` |
| Hazards.Entry9DefinedIff | Glitch_Storm/equations.h:73 | in its domain, entry 9 is defined exactly when `b < 32` |
| Hazards.Entry10DefinedOnlyIf | Glitch_Storm/equations.h:77 | in its domain, entry 10 is defined only when `c <= 9` and the outer shift amount `16 * c * t * t` (32 bits) is below 32 |
| Hazards.Entry11DefinedIff | Glitch_Storm/equations.h:81 | in its domain, entry 11 is defined exactly when `b != 0` |
| Hazards.Entry14DefinedIff | Glitch_Storm/equations.h:93 | in its domain, entry 14 is defined exactly when `t & (4 << a)` is set or `c << b` is below 2^15 |
| Hazards.FourShiftedFits | Glitch_Storm/equations.h:93 | for `a <= 8`, `4 << a` is a defined `int` shift whose conversion is the 32-bit shift |
| Hazards.SmallShiftFits | Glitch_Storm/equations.h:93 | for `b <= 12` and `c <= 10`, `c << b` on `int` is defined exactly when it is below 2^15 |
| Facts.Equation7ClampsTime | Glitch_Storm/equations.h:64-65 | equation 7 gives the same sample for every `t > 65536` with the same `a, b, c` |
| Facts.ZeroProductVanishes | Glitch_Storm/equations.h:93 | `-t * (t ^ t) \| x` is `x` |
| Facts.Equation14FirstBranch | Glitch_Storm/equations.h:93 | when `t & (4 << a)` is set, equation 14 is the low byte of `(t >> b) >> c` |
| Facts.Equation15FirstBranch | Glitch_Storm/equations.h:97 | when `t & (4 << a)` is set, equation 15 is the low byte of `(t >> b) >> 3` |
| Facts.Equation9SilentAtStart | Glitch_Storm/equations.h:73 | equation 9 is 0 for every `t < 128` |
| Facts.Equation12SilentWithoutB | Glitch_Storm/equations.h:85 | equation 12 is 0 whenever `b == 0` |
| Facts.Equation11AtZero | Glitch_Storm/equations.h:81 | equation 11 at `t = 0` is 254, under every policy |
| Facts.Equation1WithoutC | Glitch_Storm/equations.h:40 | with `b != 0` and `c == 0`, equation 1 is the low byte of `t >> (a + 1)` |

## Left out

- Hardware is not modelled: the AVR interrupt header (line 2), timers, audio output and the
  LED display. Only the LEDs' 4-bit limit (line 104) appears, as `MaxShownIndex`.
- Callers are not modelled: the loop that advances `t`, and how the index and parameters are
  chosen or validated. Dispatch accepts any parameter values, as the C code does.
- The commented-out old body of `equation_1` (lines 34-37) and the template in the comment at
  lines 21-25 are not live code and are not modelled.
- CArith.IShlOk: adopts the signed left-shift rule of C and C++11 (defined only when the
  result fits in a non-negative `int`). C++14 and later also define a shift of a non-negative
  `int` whose result fits in `unsigned int`, such as `10 << 12`. Under that rule entry 14's
  `c << b` would not be a hazard, and `Hazards.Entry14DefinedIff` would not apply.
- What AVR-GCC really produces in C's undefined cases is not modelled. The `Policy` parameter
  stands for it, and `Default` is one documented choice. Entries whose sample depends on that
  choice are identified instead.
- Function pointers are modelled as function values in the table. Calling one is a `match` on
  the index, and `DispatchFollowsTable` ties the two together.
- `Registry.Evaluate` and `Registry.DomainOf` require a valid index. The C code indexes the
  array unchecked and has no failure path. A design that reports a failure for an invalid
  index would add a checked wrapper; the code has none, so the model follows the code.
- The split of each generator into `EquationK` and `CombineK` is a structural choice of the
  model. `CombineK` holds the part of the expression that is always defined.
- Hazards.Entry10DefinedOnlyIf: states only the necessary direction. The exact condition for
  entry 10 also depends on `t >> (9 - c)` and on the `%`, and it is `Generators.Defined10` itself.
- Entry 1 has no exact "defined iff" lemma. Its condition is `Generators.Defined1`:
  `b != 0` and the amount `t % b * t * c` below 32. `Hazards.Entry1ShiftHazardShows` exhibits
  the second hazard.
- The link between bit-vector values and mathematical integers (`x as int`) is not stated
  beyond `CArith.IntValue`. Statements are made on the bit patterns, whose arithmetic is
  already modulo 2^32.
