/**
 * Java integer arithmetic where it differs from Dafny's: the 32-bit range and
 * wrap-around of `int`, division and remainder that truncate toward zero,
 * Math.floorDiv, Math.min and Math.max.
 */
module JavaMath {
  const INT_MIN: int := -0x8000_0000
  const INT_MAX: int := 0x7fff_ffff

  /** The value a 32-bit `int` holds after an addition whose exact result is x. */
  function Wrap32(x: int): (r: int)
    ensures INT_MIN <= r <= INT_MAX
    ensures (r - x) % 0x1_0000_0000 == 0
    ensures INT_MIN <= x <= INT_MAX ==> r == x
  {
    (x - INT_MIN) % 0x1_0000_0000 + INT_MIN
  }

  /** Java's `/` on a positive divisor: the quotient rounded toward zero. */
  function JavaDiv(a: int, b: int): (q: int)
    requires b > 0
    ensures a >= 0 ==> q * b <= a < q * b + b
    ensures a < 0 ==> q * b - b < a <= q * b
  {
    if a >= 0 then a / b else -((-a) / b)
  }

  /** Division rounded toward zero keeps the order of its dividends. */
  lemma JavaDivMonotone(a: int, b: int, d: int)
    requires d > 0 && a <= b
    ensures JavaDiv(a, d) <= JavaDiv(b, d)
  {
    var qa, qb := JavaDiv(a, d), JavaDiv(b, d);
    if qa > qb {
      if a >= 0 || b < 0 {
        MulStep(qb, qa, d);
        assert false;
      } else if qa >= 1 {
        MulStep(0, qa, d);
        assert false;
      } else {
        MulStep(qb, 0, d);
        assert false;
      }
    }
  }

  lemma DivMonotone(a: nat, b: nat, d: int)
    requires d > 0 && a <= b
    ensures a / d <= b / d
  {
    JavaDivMonotone(a, b, d);
  }

  /**
   * n * pos / total, rounded toward zero, for a bar of n slots: inside the
   * bar for a position inside the track, past it at or after the end, and
   * not past the start for a negative position.
   */
  lemma ScaledDivRange(n: int, pos: int, total: int)
    requires n > 0 && total > 0
    ensures 0 <= pos < total ==> 0 <= JavaDiv(n * pos, total) < n
    ensures pos >= total ==> JavaDiv(n * pos, total) >= n
    ensures pos < 0 ==> JavaDiv(n * pos, total) <= 0
  {
    var q := JavaDiv(n * pos, total);
    if 0 <= pos < total {
      MulLeft(0, pos, n);
      MulStep(pos, total, n);
      if q < 0 {
        MulStep(q, 0, total);
        assert false;
      } else if q >= n {
        MulLeft(n, q, total);
        assert false;
      }
    } else if pos >= total {
      MulLeft(total, pos, n);
      if q < n {
        MulStep(q, n, total);
        assert false;
      }
    } else {
      MulStep(pos, 0, n);
      if q >= 1 {
        MulStep(0, q, total);
        assert false;
      }
    }
  }

  /** Multiplying by a positive d widens a strict gap to at least d. */
  lemma MulStep(x: int, y: int, d: int)
    requires x < y && d > 0
    ensures x * d + d <= y * d
  {
    MulLeft(x + 1, y, d);
    assert (x + 1) * d == x * d + d;
  }

  lemma {:induction false} MulLeft(x: int, y: int, d: nat)
    requires x <= y
    ensures x * d <= y * d
  {
    if d > 0 {
      MulLeft(x, y, d - 1);
      assert x * d == x * (d - 1) + x && y * d == y * (d - 1) + y;
    }
  }

  /** Java's `%` on a positive divisor: the remainder carries the sign of a. */
  function JavaRem(a: int, b: int): (r: int)
    requires b > 0
    ensures a >= 0 ==> 0 <= r < b
    ensures a < 0 ==> -b < r <= 0
    ensures JavaDiv(a, b) * b + r == a
  {
    a - JavaDiv(a, b) * b
  }

  /** Math.floorDiv on a positive divisor: the quotient rounded down. */
  function FloorDiv(a: int, b: int): (q: int)
    requires b > 0
    ensures q * b <= a < q * b + b
  {
    a / b
  }

  /** Math.min */
  function Min(a: int, b: int): int {
    if a <= b then a else b
  }

  /** Math.max */
  function Max(a: int, b: int): int {
    if a >= b then a else b
  }
}
