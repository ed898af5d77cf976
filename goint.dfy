/**
 * Go's 64-bit signed integers: their range, two's-complement wrap-around,
 * saturation, and the `/` and `%` operators, which truncate toward zero
 * (Dafny's own `/` and `%` are Euclidean).
 */
module GoInt {

  const MinInt64: int := -0x8000_0000_0000_0000
  const MaxInt64: int := 0x7fff_ffff_ffff_ffff
  const MaxUint64: int := 0xffff_ffff_ffff_ffff
  const Modulus64: int := 0x1_0000_0000_0000_0000

  predicate IsInt64(x: int) {
    MinInt64 <= x <= MaxInt64
  }

  function Abs(x: int): nat {
    if x < 0 then -x else x
  }

  /** The int64 value an exact result `x` wraps to (Go's `+` on int64 ignores overflow). */
  function Wrap64(x: int): (r: int)
    ensures IsInt64(r)
    ensures (r - x) % Modulus64 == 0
    ensures IsInt64(x) ==> r == x
    ensures MaxInt64 < x <= MaxInt64 + Modulus64 ==> r == x - Modulus64
  {
    (x - MinInt64) % Modulus64 + MinInt64
  }

  /** `x` clamped into the int64 range. */
  function Saturate64(x: int): (r: int)
    ensures IsInt64(r)
    ensures IsInt64(x) ==> r == x
    ensures x > MaxInt64 ==> r == MaxInt64
    ensures x < MinInt64 ==> r == MinInt64
  {
    if x > MaxInt64 then MaxInt64 else if x < MinInt64 then MinInt64 else x
  }

  /** Go's `a / b`: the quotient truncated toward zero. */
  function Quot(a: int, b: int): int
    requires b != 0
  {
    if (a >= 0) == (b > 0) then Abs(a) / Abs(b) else -(Abs(a) / Abs(b))
  }

  /** Go's `a % b`: the remainder that goes with `Quot`, carrying the sign of `a`. */
  function Rem(a: int, b: int): int
    requires b != 0
  {
    a - b * Quot(a, b)
  }

  /** Truncated division by a positive divisor and its remainder recombine to
      the dividend; the remainder is smaller than the divisor and never has the
      opposite sign of the dividend. */
  lemma QuotRem(a: int, b: int)
    requires b > 0
    ensures Quot(a, b) * b + Rem(a, b) == a
    ensures Abs(Rem(a, b)) < b
    ensures a >= 0 ==> 0 <= Rem(a, b) && Quot(a, b) == a / b
    ensures a <= 0 ==> Rem(a, b) <= 0 && Quot(a, b) == -((-a) / b)
  {
    var q := Abs(a) / b;
    var r := Abs(a) % b;
    assert Abs(a) == q * b + r;
    if a >= 0 {
      assert Quot(a, b) == q;
      assert Rem(a, b) == r;
    } else {
      assert Quot(a, b) == -q;
      assert b * Quot(a, b) == -(q * b);
      assert Rem(a, b) == -r;
    }
  }
}
