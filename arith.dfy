/** Facts about products that the solver's non-linear arithmetic does not find
    on its own, shared by the scheduler, the physics and the perturbation. */
module Arith {

  function RealAbs(x: real): (r: real)
    ensures r >= 0.0 && (r == x || r == -x)
  {
    if x < 0.0 then -x else x
  }

  /** A square is never negative. */
  function Square(x: real): (r: real)
    ensures r >= 0.0
  {
    x * x
  }

  /** ... and it vanishes only at zero, whatever the sign of `x`. */
  lemma SquarePositive(x: real)
    ensures x != 0.0 <==> Square(x) > 0.0
    ensures Square(-x) == Square(x)
  {
    calc {
      Square(-x);
    ==
      (-x) * (-x);
    ==
      x * x;
    ==
      Square(x);
    }
    if x > 0.0 {
      calc {
        Square(x);
      ==
        x * x;
      > { PositiveProduct(x, x); }
        0.0;
      }
    } else if x < 0.0 {
      calc {
        Square(x);
      ==
        (-x) * (-x);
      > { PositiveProduct(-x, -x); }
        0.0;
      }
    }
  }

  lemma NonPositiveProduct(d: nat, q: int)
    requires q <= 0
    ensures d * q <= 0
  {
  }

  lemma ProductAtLeast(d: nat, q: int)
    requires q >= 1
    ensures d * q >= d
  {
    assert d * q == d + d * (q - 1);
  }

  lemma PositiveProduct(a: real, b: real)
    requires a > 0.0 && b > 0.0
    ensures a * b > 0.0
  {
  }

  lemma SquareBound(x: real, m: real)
    requires 0.0 <= x <= m
    ensures Square(x) <= Square(m)
  {
    calc {
      Square(x);
    ==
      x * x;
    <= { ScaleLe(x, x, m); }
      x * m;
    <= { ScaleLe(m, x, m); }
      m * m;
    ==
      Square(m);
    }
  }

  lemma ScaleLe(a: real, x: real, y: real)
    requires a >= 0.0 && x <= y
    ensures a * x <= a * y
  {
    assert a * y - a * x == a * (y - x);
  }

  lemma AbsProduct(x: real, y: real)
    ensures RealAbs(x * y) == RealAbs(x) * RealAbs(y)
  {
    if x < 0.0 && y < 0.0 { assert x * y == (-x) * (-y); }
    else if x < 0.0 { assert x * y == -((-x) * y); }
    else if y < 0.0 { assert x * y == -(x * (-y)); }
  }
}
