/**
 * Scalar semantics of the C++ `int` lane type used by integer packs and masks:
 * a 32-bit two's-complement integer whose signed overflow is undefined, whose
 * `/` discards the fractional part of the algebraic quotient (truncation toward
 * zero) and whose `%` takes the sign of the dividend. Dafny's own `/` and `%`
 * are Euclidean, so the C++ operators are written out here.
 */
module CInt {

  const IntMin: int := -0x8000_0000
  const IntMax: int := 0x7fff_ffff

  /** The lane type `int` of `pack<int, W>` and `mask<W>`. */
  newtype int32 = x: int | IntMin <= x <= IntMax

  /** The mathematical value `x` is representable as an `int`. */
  predicate Fits(x: int) {
    IntMin <= x <= IntMax
  }

  function AbsInt(x: int): (n: nat)
    ensures n == x || n == -x
  {
    if x < 0 then -x else x
  }

  /**
   * C++ integer division: the algebraic quotient with any fractional part
   * discarded, so the magnitude rounds down and the sign is the product of
   * the operands' signs.
   */
  function Quot(a: int, b: int): (q: int)
    requires b != 0
    ensures AbsInt(q) * AbsInt(b) <= AbsInt(a) < (AbsInt(q) + 1) * AbsInt(b)
    ensures q < 0 ==> (a < 0) != (b < 0)
    ensures q > 0 ==> (a < 0) == (b < 0)
  {
    var m := AbsInt(a) / AbsInt(b);
    NatDivMod(AbsInt(a), AbsInt(b));
    if (a < 0) == (b < 0) then m else -m
  }

  /** Dafny's `/` and `%` on naturals: quotient rounded down, remainder below the divisor. */
  lemma NatDivMod(x: nat, y: nat)
    requires y > 0
    ensures (x / y) * y <= x < (x / y + 1) * y
    ensures x == (x / y) * y + x % y && x % y < y
  {
  }

  /**
   * C++ integer remainder: its magnitude is below the divisor's and its sign
   * is the dividend's, so that `(a / b) * b + a % b == a`.
   */
  function Rem(a: int, b: int): (r: int)
    requires b != 0
    ensures AbsInt(r) < AbsInt(b)
    ensures r != 0 ==> (r < 0) == (a < 0)
    ensures Quot(a, b) * b + r == a
  {
    var m := AbsInt(a) % AbsInt(b);
    if a < 0 then -m else m
  }

  /** A non-zero multiple of `b` is at least as large as `b` in magnitude. */
  lemma MultipleAtLeast(k: int, b: int)
    requires k != 0
    ensures AbsInt(k * b) >= AbsInt(b)
  {
  }

  /**
   * The pair (Quot, Rem) is the only one that meets the identity, the bound
   * on the remainder and the sign rule, so these fix C++'s `/` and `%`.
   */
  lemma QuotRemUnique(a: int, b: int, q: int, r: int)
    requires b != 0
    requires q * b + r == a
    requires AbsInt(r) < AbsInt(b)
    requires r != 0 ==> (r < 0) == (a < 0)
    ensures q == Quot(a, b) && r == Rem(a, b)
  {
    var q0, r0 := Quot(a, b), Rem(a, b);
    assert (q - q0) * b == r0 - r by {
      assert (q - q0) * b == q * b - q0 * b;
    }
    assert AbsInt(r0 - r) < AbsInt(b);
    if q != q0 {
      MultipleAtLeast(q - q0, b);
      assert false;
    }
  }

  /** Dividing two `int`s gives an `int`, except for `IntMin / -1`. */
  lemma QuotFits(a: int, b: int)
    requires Fits(a) && Fits(b) && b != 0
    requires !(a == IntMin && b == -1)
    ensures Fits(Quot(a, b))
  {
  }

  /** C++ `/` and `%` on `int` are defined: non-zero divisor, representable quotient. */
  predicate DivDefined(a: int32, b: int32) {
    b != 0 && !(a as int == IntMin && b == -1)
  }

  /** C++ `a / b` on `int`. */
  function DivLane(a: int32, b: int32): (q: int32)
    requires DivDefined(a, b)
    ensures q as int == Quot(a as int, b as int)
  {
    QuotFits(a as int, b as int);
    Quot(a as int, b as int) as int32
  }

  /** C++ `a % b` on `int`. */
  function ModLane(a: int32, b: int32): (r: int32)
    requires DivDefined(a, b)
    ensures r as int == Rem(a as int, b as int)
  {
    Rem(a as int, b as int) as int32
  }

  /** The quotient and remainder lanes satisfy C++'s identity and sign rules. */
  lemma DivModLane(a: int32, b: int32)
    requires DivDefined(a, b)
    ensures DivLane(a, b) as int * b as int + ModLane(a, b) as int == a as int
    ensures AbsInt(ModLane(a, b) as int) < AbsInt(b as int)
    ensures ModLane(a, b) != 0 ==> (ModLane(a, b) < 0) == (a < 0)
  {
  }

  /** Truncation differs from Dafny's Euclidean operators on a negative dividend. */
  lemma TruncationIsNotEuclidean()
    ensures Quot(-7, 2) == -3 && -7 / 2 == -4
    ensures Rem(-7, 2) == -1 && -7 % 2 == 1
    ensures Quot(7, -2) == -3 && Rem(7, -2) == 1
    ensures 7 / -2 == -3 && 7 % -2 == 1
  {
  }

  /** With a non-negative dividend, C++'s operators and Dafny's agree for every divisor. */
  lemma NonNegativeDividend(a: int, b: int)
    requires a >= 0 && b != 0
    ensures Quot(a, b) == a / b && Rem(a, b) == a % b
  {
  }
}
