/** Java's integer division and remainder. Java truncates the quotient toward
    zero and gives the remainder the sign of the dividend, whereas Dafny's `/`
    and `%` are Euclidean; the two agree only for non-negative operands. */
module JavaArith {
  import opened Arith

  function Abs(x: int): (r: nat)
    ensures r == x || r == -x
  {
    if x < 0 then -x else x
  }

  /** `a / b` on Java `int` or `long` (no overflow case arises here). */
  function JavaDiv(a: int, b: int): (q: int)
    requires b != 0
    ensures a >= 0 && b > 0 ==> q == a / b
    ensures a >= 0 && b < 0 ==> q == -(a / -b)
  {
    var m := Abs(a) / Abs(b);
    if (a < 0) != (b < 0) then -m else m
  }

  /** `a % b` on Java `int` or `long`. Section 15.17.3 of the Java Language
      Specification defines it by `(a / b) * b + a % b == a`, with the
      remainder smaller than the divisor in magnitude and never of the
      opposite sign to the dividend; these determine both the quotient and
      the remainder. */
  function JavaRem(a: int, b: int): (r: int)
    requires b != 0
    ensures JavaDiv(a, b) * b + r == a
    ensures Abs(r) < Abs(b)
    ensures a >= 0 ==> r >= 0
    ensures a <= 0 ==> r <= 0
    ensures a >= 0 ==> r == a % Abs(b)
    ensures a < 0 ==> r == -((-a) % Abs(b))
  {
    var m := Abs(a) % Abs(b);
    if a < 0 then -m else m
  }

  /** A positive dividend truncates to a zero quotient exactly when the
      divisor is larger in magnitude. */
  lemma QuotientZero(a: int, b: int)
    requires a > 0 && b != 0
    ensures JavaDiv(a, b) == 0 <==> Abs(b) > a
  {
    assert JavaDiv(a, b) == 0 <==> Abs(a) / Abs(b) == 0;
    TruncatesToZero(a, Abs(b));
  }

  /** Euclidean division of a positive number yields 0 exactly when the
      divisor is larger. */
  lemma TruncatesToZero(a: nat, d: nat)
    requires a > 0 && d > 0
    ensures a / d == 0 <==> d > a
  {
    var q, r := a / d, a % d;
    assert a == d * q + r && 0 <= r < d;
    if q <= 0 {
      NonPositiveProduct(d, q);
    } else {
      ProductAtLeast(d, q);
    }
  }
}
