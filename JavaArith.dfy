/**
 * Java's integer division and remainder, its float-to-int cast and its float
 * remainder `x % 1f`, written out over Dafny's unbounded `int` and `real`.
 * Java rounds all of these toward zero, whereas Dafny's `/` and `%` on `int`
 * are Euclidean and `.Floor` rounds down, so each is spelled out here.
 */
module JavaArith {

  /** Java's `a / b` for a positive divisor: the quotient rounded toward zero. */
  function Div(a: int, b: int): (q: int)
    requires b > 0
    ensures a >= 0 ==> 0 <= q * b <= a < q * b + b
    ensures a <= 0 ==> q * b - b < a <= q * b <= 0
  {
    if a >= 0 then a / b else -((-a) / b)
  }

  /** Java's `a % b` for a positive divisor: the remainder that carries the sign of `a`. */
  function Rem(a: int, b: int): (r: int)
    requires b > 0
    ensures a >= 0 ==> 0 <= r < b
    ensures a <= 0 ==> -b < r <= 0
    ensures (a - r) % b == 0
  {
    MultipleHasNoRemainder(Div(a, b), b);
    a - Div(a, b) * b
  }

  /** A multiple of `b` leaves no Euclidean remainder. */
  lemma MultipleHasNoRemainder(q: int, b: int)
    requires b > 0
    ensures (q * b) % b == 0
  {
    var d, m := (q * b) / b, (q * b) % b;
    assert q * b == d * b + m;
    assert m == (q - d) * b;
    ProductOfNonzero(q - d, b);
  }

  /** A nonzero multiple of `b` is at least `b` away from zero. */
  lemma ProductOfNonzero(k: int, b: int)
    requires b > 0
    ensures k >= 1 ==> k * b >= b
    ensures k <= -1 ==> k * b <= -b
  {
  }

  /** A remainder already below the divisor in magnitude is left alone. */
  lemma RemIdempotent(a: int, b: int)
    requires b > 0
    ensures Rem(Rem(a, b), b) == Rem(a, b)
  {
    var r := Rem(a, b);
    SmallQuotient(if r >= 0 then r else -r, b);
  }

  /** A non-negative value below the divisor has quotient 0. */
  lemma SmallQuotient(n: int, b: int)
    requires 0 <= n < b
    ensures n / b == 0
  {
  }

  /** Java's `(int) x` cast (and the integral part that `%` on floats removes): `x` rounded toward zero. */
  function Trunc(x: real): (n: int)
    ensures x >= 0.0 ==> 0 <= n && n as real <= x < n as real + 1.0
    ensures x <= 0.0 ==> n <= 0 && n as real - 1.0 < x <= n as real
  {
    if x >= 0.0 then x.Floor else -((-x).Floor)
  }

  /** Truncation recovers the integer part of a sum whose fraction has the integer's sign. */
  lemma TruncOfSum(n: int, y: real)
    requires (n >= 0 && 0.0 <= y < 1.0) || (n <= 0 && -1.0 < y <= 0.0)
    ensures Trunc(n as real + y) == n
  {
    var x := n as real + y;
    if x >= 0.0 {
      assert x.Floor == n;
    } else {
      assert (-x).Floor == -n;
    }
  }

  /** Java's `x % 1f`: the fractional part of `x`, with the sign of `x`. */
  function FracPart(x: real): (r: real)
    ensures x >= 0.0 ==> 0.0 <= r < 1.0
    ensures x <= 0.0 ==> -1.0 < r <= 0.0
    ensures (x - r).Floor as real == x - r
  {
    x - Trunc(x) as real
  }
}
