# psimd pack/mask engine in Dafny

This project models the portable-SIMD header `psimd/psimd.h`. A `pack<T, W>` is a fixed-width array of W lanes of one scalar type. A `mask<W>` is a `pack<int, W>` in which zero means false and any other value means true. The model covers what the header defines on packs and proves what each operation promises:

- the default and broadcast constructors, and lane access;
- the lane-wise arithmetic operators `+ - * / %`, each in its three forms (pack ⊕ pack, pack ⊕ scalar, scalar ⊕ pack);
- the comparisons `==` and `!=`, which produce 0/1 masks;
- `abs` on `int` lanes;
- the reductions `any` and `all`;
- `select`;
- the in-place transforms `foreach` and `foreach_active`.

Files and modules:

- `cint.dfy`, module `CInt`: the C++ `int` lane type as the newtype `int32`. It also defines C++'s truncating `/` (`Quot`) and `%` (`Rem`). Dafny's own operators are Euclidean. Their contracts and the lemmas beside them prove the quotient–remainder identity, the bound and sign of the remainder, and that these rules fix `Quot` and `Rem` uniquely. They also prove that `int / int` stays in range except for `INT_MIN / -1`.
- `packspec.dfy`, module `PackSpec`: reference definitions on values. These are the mask predicates `SomeActive` and `EveryActive`, and three recursive head/tail functions: `Blend` (what `select` computes), `MapAll` (`foreach`) and `MapActive` (`foreach_active`). Lemmas give their lane-wise meaning and relate them to each other. For example, `foreach_active` is `select` between the transformed pack and the original.
- `psimd.dfy`, module `Psimd`: the header's operations as methods, each following the header's own loop:
  - each lane-wise operation that returns a pack fills a local result array in a `for` loop over the W lanes and returns its contents;
  - `foreach` and `foreach_active` update the caller's array in place;
  - `any` and `all` update a `bool` accumulator;
  - the scalar-left forms delegate as the header does: `v + p` to `p + v`, and `v - p` to `pack(v) - p`;
  - a lane write through `operator[]` is a single array assignment.

  Each method's postcondition gives the result lane by lane, or ties it to a `PackSpec` function.
- `tests.dfy`, module `PsimdTests`: the integer test cases of `tests/test_pack.cpp` as methods. Their postconditions are the checks the suite makes.

Modelling choices:

- A pack passed by const reference or returned by value is a `seq` of lanes, and its width W is the length of that sequence. A pack passed by mutable reference (`pack &` in `foreach` and `foreach_active`) is the caller's storage, an `array` that the method modifies. Reading a lane through the const `operator[]` is sequence indexing `p[i]`. Writing a lane through the reference returned by the other `operator[]` is `SetLane`.
- `select`, `==`, `!=`, the constructors, `foreach` and `foreach_active` are generic in the lane type, as in the header. Arithmetic and `abs` are modelled for `int` lanes only.
- Signed overflow is undefined in C++. So every arithmetic operation requires that no lane overflows `int`, and its postcondition gives each result lane as the exact mathematical value.
- `/` and `%` require non-zero divisor lanes and no lane computing `INT_MIN / -1` or `INT_MIN % -1`. In C++ both of these are undefined behaviour.
- `abs` requires that no lane is `INT_MIN`.
- The `foreach`/`foreach_active` callback is a function `T -> T`: the new lane value is the callback applied to the old one. The callback receives only the lane value, as the header's call `fcn(p[i])` does (psimd/psimd.h:405, 414).
- Two details of the test suite:
  - Some tests pass a two-argument lambda `(value, index)` to `foreach` (tests/test_pack.cpp:375, 421). That does not match the header's call. `ForeachTest` and `AllTest` use the one-argument form.
  - The second test case headed `binary operator==()` (tests/test_pack.cpp:234) exercises `!=`. It is modelled as `InequalityTest`.

## Model

| member | source | states |
|---|---|---|
| CInt.Quot | psimd/psimd.h:201 | C++ `int` division: the magnitude of the quotient is the magnitude of the algebraic quotient rounded down, and its sign is the product of the operands' signs (truncation toward zero) |
| CInt.Rem | psimd/psimd.h:237 | C++ `int` remainder: smaller in magnitude than the divisor, same sign as the dividend, and `(a / b) * b + a % b == a` |
| CInt.QuotRemUnique | psimd/psimd.h:194-240 | any quotient/remainder pair that meets the identity, the remainder bound and the sign rule is (`Quot`, `Rem`), so these two functions are C++'s `/` and `%` and nothing else |
| CInt.QuotFits | psimd/psimd.h:201 | dividing two `int` lanes gives an `int`, except for `INT_MIN / -1` |
| CInt.DivModLane | psimd/psimd.h:194-240 | on `int32` lanes, the `/` and `%` lane results satisfy C++'s identity, remainder bound and sign rule |
| CInt.DivLane | psimd/psimd.h:201 | the `int` lane quotient the `/` loops store is the truncating quotient `Quot` of the lanes, for lanes with a non-zero divisor that are not `INT_MIN, -1` |
| CInt.ModLane | psimd/psimd.h:237 | the `int` lane remainder the `%` loops store is the C++ remainder `Rem` of the lanes, under the same condition |
| CInt.TruncationIsNotEuclidean | psimd/psimd.h:201 | on a negative dividend C++ truncation differs from Dafny's Euclidean operators: -7 / 2 is -3 (Dafny: -4) and -7 % 2 is -1 (Dafny: 1); with a non-negative dividend they agree, e.g. 7 / -2 is -3 and 7 % -2 is 1 in both |
| CInt.NonNegativeDividend | psimd/psimd.h:194-240 | for every dividend `a >= 0` and divisor `b != 0`, C++'s `a / b` and `a % b` equal Dafny's Euclidean `a / b` and `a % b` |
| PackSpec.BoolLane | psimd/psimd.h:273 | a comparison stored in an `int` mask lane is 1 when it holds and 0 when it does not; the lane is true exactly when the comparison holds |
| PackSpec.Blend | psimd/psimd.h:443-459 | the reference value of `select` has one lane per mask lane |
| PackSpec.MapAll | psimd/psimd.h:400-406 | the reference value of `foreach` has as many lanes as the pack |
| PackSpec.MapActive | psimd/psimd.h:408-415 | the reference value of `foreach_active` has as many lanes as the pack |
| PackSpec.BlendAt | psimd/psimd.h:451-456 | lane i of the `select` value is `t[i]` where `m[i] != 0` and `f[i]` elsewhere |
| PackSpec.MapAllAt | psimd/psimd.h:404-405 | lane i of the `foreach` value is the callback applied to lane i |
| PackSpec.MapActiveAt | psimd/psimd.h:412-414 | lane i of the `foreach_active` value is the callback applied to lane i where `m[i] != 0`, and the unchanged lane elsewhere |
| PackSpec.BlendSame | psimd/psimd.h:443-459 | `select(m, t, t) == t` for every mask |
| PackSpec.BlendUniform | psimd/psimd.h:443-459 | an all-true mask selects `t` and an all-false mask selects `f` |
| PackSpec.MapActiveIsBlend | psimd/psimd.h:408-415 | `foreach_active(m, p, fcn)` leaves `p` equal to `select(m, foreach(p, fcn), p)` |
| PackSpec.MapActiveUniform | psimd/psimd.h:400-415 | under an all-true mask `foreach_active` does what `foreach` does; under an all-false mask it changes nothing |
| PackSpec.AllImpliesAny | psimd/psimd.h:417-441 | for W >= 1, `all(m)` implies `any(m)` |
| PackSpec.MixedMask | psimd/psimd.h:417-441 | a mask with a zero lane and a non-zero lane has `any` true and `all` false |
| PackSpec.ZeroMaskInactive | psimd/psimd.h:417-441 | an all-zero mask has `any` false and, for W >= 1, `all` false |
| Psimd.Uninitialized | psimd/psimd.h:45 | the default constructor gives W lanes whose values are unspecified |
| Psimd.Broadcast | psimd/psimd.h:62-68 | `pack(value)` sets every lane to `value` |
| Psimd.SetLane | psimd/psimd.h:76-80 | writing through the reference the mutable `operator[]` returns changes lane i and no other lane; `i` must be in range |
| Psimd.Add | psimd/psimd.h:86-96 | `(p1 + p2)[i] == p1[i] + p2[i]` on every lane, when no lane overflows |
| Psimd.AddScalar | psimd/psimd.h:98-110 | `(p + v)[i] == p[i] + v` on every lane |
| Psimd.ScalarAdd | psimd/psimd.h:112-118 | `v + p` is `p + v`, lane by lane |
| Psimd.Sub | psimd/psimd.h:122-132 | `(p1 - p2)[i] == p1[i] - p2[i]` on every lane |
| Psimd.SubScalar | psimd/psimd.h:134-146 | `(p - v)[i] == p[i] - v` on every lane |
| Psimd.ScalarSub | psimd/psimd.h:148-154 | `v - p` is `pack(v) - p`, so `(v - p)[i] == v - p[i]`: the scalar stays the left operand |
| Psimd.Mul | psimd/psimd.h:158-168 | `(p1 * p2)[i] == p1[i] * p2[i]` on every lane |
| Psimd.MulScalar | psimd/psimd.h:170-182 | `(p * v)[i] == p[i] * v` on every lane |
| Psimd.ScalarMul | psimd/psimd.h:184-190 | `v * p` is `p * v`, lane by lane |
| Psimd.Div | psimd/psimd.h:194-204 | `(p1 / p2)[i]` is the truncating quotient of the lanes; every divisor lane is non-zero and no lane is `INT_MIN / -1` |
| Psimd.DivScalar | psimd/psimd.h:206-218 | `(p / v)[i]` is the truncating quotient `p[i] / v` |
| Psimd.ScalarDiv | psimd/psimd.h:220-226 | `v / p` is `pack(v) / p`, so `(v / p)[i] == v / p[i]`: the scalar stays the dividend |
| Psimd.Mod | psimd/psimd.h:230-240 | `(p1 % p2)[i]` is the C++ remainder of the lanes, with the same preconditions as `/` |
| Psimd.ModScalar | psimd/psimd.h:242-254 | `(p % v)[i]` is the C++ remainder `p[i] % v` |
| Psimd.ScalarMod | psimd/psimd.h:256-262 | `v % p` is `pack(v) % p`, so `(v % p)[i] == v % p[i]` |
| Psimd.Equal | psimd/psimd.h:266-276 | lane i of `p1 == p2` is 1 where the lanes are equal and 0 elsewhere; the mask is all-true exactly when the packs are equal |
| Psimd.EqualScalar | psimd/psimd.h:278-290 | lane i of `p == v` is 1 where `p[i] == v` and 0 elsewhere; all-true exactly when every lane is `v` |
| Psimd.ScalarEqual | psimd/psimd.h:292-298 | `v == p` is `p == v` as a mask |
| Psimd.NotEqual | psimd/psimd.h:302-312 | lane i of `p1 != p2` is 1 where the lanes differ and 0 elsewhere, which is `1 - (p1 == p2)[i]`; some lane is true exactly when the packs differ |
| Psimd.NotEqualScalar | psimd/psimd.h:314-326 | lane i of `p != v` is `1 - (p == v)[i]`; some lane is true exactly when some lane differs from `v` |
| Psimd.ScalarNotEqual | psimd/psimd.h:328-334 | `v != p` is `p != v` as a mask |
| Psimd.Abs | psimd/psimd.h:338-348 | `abs(p)[i] == |p[i]|` for `int` lanes other than `INT_MIN` |
| Psimd.Foreach | psimd/psimd.h:400-406 | after `foreach(p, fcn)`, every lane of the caller's pack is `fcn` of its old value |
| Psimd.ForeachActive | psimd/psimd.h:408-415 | after `foreach_active(m, p, fcn)`, the lanes where `m` is true are `fcn` of their old value and the others are unchanged |
| Psimd.Any | psimd/psimd.h:417-428 | `any(m)` holds exactly when some lane of `m` is non-zero |
| Psimd.All | psimd/psimd.h:430-441 | `all(m)` holds exactly when every lane of `m` is non-zero |
| Psimd.Select | psimd/psimd.h:443-459 | `select(m, t, f)[i]` is `t[i]` where `m[i] != 0` and `f[i]` elsewhere, and equals the `Blend` reference value |
| PsimdTests.AdditionTest | tests/test_pack.cpp:48-61 | with `int` lanes: `pack(1) + pack(2)`, `pack(1) + 2` and `2 + pack(1)` all equal `pack(3)` |
| PsimdTests.SubtractionTest | tests/test_pack.cpp:74-87 | with `int` lanes: `pack(2) - pack(1)`, `pack(2) - 2` and `4 - pack(2)` equal `pack(1)`, `pack(0)` and `pack(2)` |
| PsimdTests.MultiplicationTest | tests/test_pack.cpp:100-113 | with `int` lanes: `pack(2) * pack(1)`, `pack(2) * 2` and `2 * pack(2)` equal `pack(2)`, `pack(4)` and `pack(4)` |
| PsimdTests.DivisionTest | tests/test_pack.cpp:126-139 | `pack(4) / pack(2)`, `pack(4) / 2` and `8 / pack(4)` all equal `pack(2)` |
| PsimdTests.ModuloTest | tests/test_pack.cpp:152-163 | `pack(4) % pack(3)`, `pack(4) % 8` and `8 % pack(4)` equal `pack(1)`, `pack(4)` and `pack(0)` |
| PsimdTests.EqualityTest | tests/test_pack.cpp:218-232 | equal packs compare all-true in all three forms; after lane 0 is changed none of the three is all-true |
| PsimdTests.InequalityTest | tests/test_pack.cpp:234-246 | `pack(1) != pack(2)` is all-true in all three forms; after lane 0 becomes 2 it is not |
| PsimdTests.AbsTest | tests/test_pack.cpp:328-334 | `pack(-4)` differs from `pack(4)` on every lane and `abs(pack(-4))` equals it |
| PsimdTests.ForeachTest | tests/test_pack.cpp:370-378 | with `int` lanes, setting every lane of `pack(0)` to 1 gives `pack(1)` |
| PsimdTests.ForeachActiveTest | tests/test_pack.cpp:380-397 | mask `[1,0,1,0]` and "set to 2" applied to `pack(0)` give `[2,0,2,0]` |
| PsimdTests.AnyTest | tests/test_pack.cpp:399-405 | the zero mask has `any` false; after lane 0 is set to 1, `any` is true |
| PsimdTests.AllTest | tests/test_pack.cpp:415-423 | `all` is false on the zero mask and with one true lane, and true after `foreach` sets every lane to 1 |
| PsimdTests.SelectTest | tests/test_pack.cpp:425-447 | mask `[1,0,1,0]`, `t = pack(0)`, `f = pack(2)` select `[0,2,0,2]`, which differs from both `t` and `f` |

## Left out

- Floating-point lanes and the math functions `sqrt`, `sin`, `cos`, `tan` (psimd/psimd.h:350-396): they are float numerics, which Dafny does not model. The test cases for `sqrt`, `sin`, `cos` and `tan` are left out for the same reason. The float test cases for `+`, `-`, `*` and `foreach` use only whole numbers, so they are restated with `int` lanes.
- Arithmetic on lane types other than `int` (for example `pack<float>` arithmetic): only `int` lanes are modelled for `+ - * / %` and `abs`.
- The `#pragma omp simd` hints on every lane loop and the `PSIMD_ALIGN(16)` alignment (psimd/psimd.h:34-38, 43): they guide code generation and layout and do not change any lane value.
- The `std::enable_if<std::is_convertible<OTHER_T, T>>` gating of the scalar overloads, and the tests' checks that arithmetic does not promote its type (tests/test_pack.cpp:57-60): these are C++ type-system facts. In the model the scalar simply has the lane type.
- Operations the header does not define, so the model does not invent them: `none`, `load`, `store`, `<`, `<=`, `>`, `>=`, `&&`, `||`, unary `!` and `-`, `<<`, `>>`, `^` and the compound assignments, which tests/test_pack.cpp calls; and `as<float>()`, which examples/mandelbrot/mandelbrot.cpp:107 calls.
- Side effects of a `foreach` callback beyond the lane it is given, such as captured state or a callback that reads other lanes: the callback is a pure function of the lane value.
- Aliasing between the mask and the pack in `foreach_active(m, m, fcn)`: the mask is taken as a value. Lane i of the mask is read before lane i of the pack is written, and no other lane is written in that step, so the result is the same.
- `Psimd.Uninitialized`: C++ leaves the lanes indeterminate, and reading them is undefined. The model only promises W lanes of unspecified value and cannot flag a read before write.
- The compile-time width W is the length of the lane sequence, so two packs of different widths are excluded by a precondition rather than by the type.
- examples/mandelbrot/mandelbrot.cpp and examples/simple/simple.cpp: a float benchmark with file output and external backends, and a program that prints construction counts. They call the engine but are not part of it.
