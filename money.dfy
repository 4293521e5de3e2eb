/**
 * Money columns of the system are `DecimalField(max_digits=10, decimal_places=2)`.
 * They are modelled exactly as integer cents; a value fits its column when it
 * has at most ten digits, i.e. when its magnitude in cents is below 10^10.
 */
module Money {

  /** 10^10: the first magnitude, in cents, that needs an eleventh digit. */
  const CentsBound: int := 10_000_000_000

  /** A value the database column `numeric(10, 2)` can store. */
  predicate Fits(cents: int) {
    -CentsBound < cents < CentsBound
  }

  /** A value a 32-bit `IntegerField` column can store. */
  predicate FitsInt32(n: int) {
    -0x8000_0000 <= n < 0x8000_0000
  }

  function Abs(x: int): nat {
    if x < 0 then -x else x
  }

  /**
   * `a // b` on Python `Decimal` values: the integer part of the true quotient,
   * truncated toward zero (unlike Dafny's Euclidean `/`).
   */
  function TruncDiv(a: int, b: int): int
    requires b != 0
  {
    var q := Abs(a) / Abs(b);
    if (a < 0) == (b < 0) then q else -q
  }

  /** For non-negative dividends and positive divisors truncation is floor division. */
  lemma TruncDivIsFloor(a: int, b: int)
    requires a >= 0 && b > 0
    ensures TruncDiv(a, b) == a / b
  {
  }

  /** Division with remainder on naturals, stated as the multiples taken away. */
  lemma NatRemainder(x: nat, y: nat)
    requires y > 0
    ensures x - y * (x / y) == x % y
    ensures 0 <= x % y < y && x % y <= x
  {
    var q := x / y;
    assert x == y * q + x % y;
    assert q >= 0;
    assert y * q >= 0;
  }

  /**
   * What is left after taking `TruncDiv(a, b)` whole multiples of `b` from `a`:
   * it has the sign of `a`, is smaller than `b` in magnitude and no larger than `a`.
   */
  lemma TruncDivRemainder(a: int, b: int)
    requires b != 0
    ensures var r := a - b * TruncDiv(a, b);
      && Abs(r) < Abs(b)
      && Abs(r) <= Abs(a)
      && (a >= 0 ==> r >= 0)
      && (a <= 0 ==> r <= 0)
  {
    var x: int, y: int := Abs(a), Abs(b);
    var q := x / y;
    NatRemainder(x, y);
    var m := x - y * q;
    var t := TruncDiv(a, b);
    if (a < 0) == (b < 0) {
      assert t == q;
      if a < 0 {
        assert a == -x && b == -y;
        assert b * q == -(y * q);
        assert a - b * t == -m;
      } else {
        assert a == x && b == y;
        assert a - b * t == m;
      }
    } else {
      assert t == -q;
      if a < 0 {
        assert a == -x && b == y;
        assert b * t == -(y * q);
        assert a - b * t == -m;
      } else {
        assert a == x && b == -y;
        assert b * t == y * q;
        assert a - b * t == m;
      }
    }
  }

  /** A dividend at least as large as a positive divisor gives at least one whole interval. */
  lemma TruncDivAtLeastOne(a: int, b: int)
    requires 0 < b <= a
    ensures TruncDiv(a, b) >= 1
  {
    NatRemainder(a, b);
    assert b * (a / b) > 0;
  }
}
