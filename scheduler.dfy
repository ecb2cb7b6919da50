/** The tick-rate scheduler: a periodic action configured at `rate` ticks per
    second fires on tick `clock` iff `rate != 0 && clock % (base / rate) == 0`,
    evaluated with Java's truncating integer arithmetic and short-circuit `&&`. */
module RateScheduler {
  import opened Arith
  import opened JavaArith

  /** The only runtime failure of the scheduler: Java's ArithmeticException
      for an integer division by zero. */
  datatype Fault = DivideByZero

  datatype Result<T> = Success(value: T) | Failure(fault: Fault)

  /** The gate expression can be evaluated without dividing by zero: a rate of
      0 short-circuits before any division, any other rate needs a non-zero
      truncated period `base / rate`. */
  function Defined(base: int, rate: int): (d: bool)
    ensures base > 0 ==> (d <==> rate == 0 || Abs(rate) <= base)
  {
    QuotientZeroWhenPositive(base, rate);
    rate == 0 || JavaDiv(base, rate) != 0
  }

  /** The gate's value when it can be evaluated. For a positive base rate it
      fires exactly on the multiples of the truncated period `base / |rate|`;
      the sign of the rate plays no part, and a rate of 0 never fires. */
  function Fires(base: int, rate: int, clock: nat): (b: bool)
    requires Defined(base, rate)
    ensures b ==> rate != 0
    ensures base > 0 && rate != 0 ==> base / Abs(rate) > 0 && (b <==> clock % (base / Abs(rate)) == 0)
  {
    rate != 0 &&
    (QuotientZeroWhenPositive(base, rate);
     QuotientZeroWhenPositive(base, Abs(rate));
     JavaRem(clock, JavaDiv(base, rate)) == 0)
  }

  /** Evaluating the gate, division by zero included. */
  function Gate(base: int, rate: int, clock: nat): (g: Result<bool>)
    ensures rate == 0 ==> g == Success(false)
    ensures base > 0 ==> (g.Failure? <==> rate != 0 && Abs(rate) > base)
    ensures g.Success? ==> Defined(base, rate) && g.value == Fires(base, rate, clock)
  {
    QuotientZeroWhenPositive(base, rate);
    if Defined(base, rate) then Success(Fires(base, rate, clock)) else Failure(DivideByZero)
  }

  lemma QuotientZeroWhenPositive(base: int, rate: int)
    ensures base > 0 && rate != 0 ==> (JavaDiv(base, rate) == 0 <==> Abs(rate) > base)
  {
    if base > 0 && rate != 0 { QuotientZero(base, rate); }
  }

  /** A rate of 0 disables the action on every tick, whatever the base rate. */
  lemma DisabledNeverFires(base: int, clock: nat)
    ensures Defined(base, 0) && !Fires(base, 0, clock)
  {
  }

  /** With a base rate of 10, a rate of 5 fires on exactly the even ticks. */
  lemma HalfRateFiresOnEvenTicks(clock: nat)
    ensures Defined(10, 5) && (Fires(10, 5, clock) <==> clock % 2 == 0)
  {
  }

  /** A rate equal to the base rate fires on every tick. */
  lemma FullRateFiresEveryTick(base: int, clock: nat)
    requires base > 0
    ensures Defined(base, base) && Fires(base, base, clock)
  {
  }

  /** A rate larger in magnitude than the base rate makes the gate divide by zero. */
  lemma OverfastRateFaults(base: int, rate: int, clock: nat)
    requires base > 0 && Abs(rate) > base
    ensures Gate(base, rate, clock) == Failure(DivideByZero)
  {
  }

  /** A rate the scheduler can run without dividing by zero, in ticks per second. */
  predicate PositiveRate(base: int, rate: int) {
    0 < rate <= base
  }

  /** How many of the `n` ticks `from, from + 1, ..., from + n - 1` fire. */
  function Firings(base: int, rate: int, from: nat, n: nat): (k: nat)
    requires PositiveRate(base, rate)
    ensures k <= n
    ensures rate == base ==> k == n
    decreases n
  {
    if n == 0 then 0
    else (if Fires(base, rate, from) then 1 else 0) + Firings(base, rate, from + 1, n - 1)
  }

  /** Counting the last tick of a window separately. */
  lemma {:induction false} FiringsSplitLast(base: int, rate: int, from: nat, n: nat)
    requires PositiveRate(base, rate)
    ensures Firings(base, rate, from, n + 1)
         == Firings(base, rate, from, n) + (if Fires(base, rate, from + n) then 1 else 0)
    decreases n
  {
    if n > 0 {
      FiringsSplitLast(base, rate, from + 1, n - 1);
    }
  }

  /** Counting over two adjacent windows. */
  lemma {:induction false} FiringsAppend(base: int, rate: int, from: nat, a: nat, b: nat)
    requires PositiveRate(base, rate)
    ensures Firings(base, rate, from, a + b)
         == Firings(base, rate, from, a) + Firings(base, rate, from + a, b)
    decreases a
  {
    if a > 0 {
      FiringsAppend(base, rate, from + 1, a - 1, b);
    }
  }

  /** The ticks strictly between 0 and the period never fire. */
  lemma {:induction false} NoFiringsInsidePeriod(base: int, rate: int, from: nat, n: nat)
    requires PositiveRate(base, rate)
    requires 1 <= from && from + n <= base / rate
    ensures Firings(base, rate, from, n) == 0
    decreases n
  {
    if n > 0 {
      ModUnique(from, base / rate, 0, from);
      NoFiringsInsidePeriod(base, rate, from + 1, n - 1);
    }
  }

  /** Ticks one period apart agree. */
  lemma FiresPeriodic(base: int, rate: int, clock: nat)
    requires PositiveRate(base, rate)
    ensures Fires(base, rate, clock + base / rate) <==> Fires(base, rate, clock)
  {
    var p := base / rate;
    assert (clock + p) % p == clock % p by { ModShift(clock, p); }
  }

  lemma ModShift(x: nat, p: nat)
    requires p > 0
    ensures (x + p) % p == x % p
  {
    var q, r := x / p, x % p;
    assert x + p == (q + 1) * p + r;
    ModUnique(x + p, p, q + 1, r);
  }

  /** Euclidean division is unique: the remainder is determined by any
      decomposition with a remainder in range. */
  lemma ModUnique(y: int, p: int, a: int, r: int)
    requires p > 0 && y == a * p + r && 0 <= r < p
    ensures y % p == r
  {
    var a', r' := y / p, y % p;
    assert (a - a') * p == r' - r;
    if a - a' >= 1 {
      ProductAtLeast(p, a - a');
    } else if a' - a >= 1 {
      ProductAtLeast(p, a' - a);
    }
  }

  /** Any window of one period fires exactly once. */
  lemma {:induction false} OneFiringPerPeriod(base: int, rate: int, from: nat)
    requires PositiveRate(base, rate)
    ensures Firings(base, rate, from, base / rate) == 1
  {
    var p := base / rate;
    if from == 0 {
      NoFiringsInsidePeriod(base, rate, 1, p - 1);
    } else {
      OneFiringPerPeriod(base, rate, from - 1);
      FiringsSplitLast(base, rate, from - 1, p);
      FiresPeriodic(base, rate, from - 1);
    }
  }

  /** Any window of `k` whole periods fires exactly `k` times. */
  lemma {:induction false} FiringsPerPeriods(base: int, rate: int, from: nat, k: nat)
    requires PositiveRate(base, rate)
    ensures Firings(base, rate, from, k * (base / rate)) == k
    decreases k
  {
    var p: nat := base / rate;
    if k > 0 {
      var rest: nat := (k - 1) * p;
      PeelPeriod(k, p);
      assert k * p == p + rest;
      FiringsAppend(base, rate, from, p, rest);
      OneFiringPerPeriod(base, rate, from);
      FiringsPerPeriods(base, rate, from + p, k - 1);
    }
  }

  lemma PeelPeriod(k: nat, p: nat)
    requires k > 0
    ensures k * p == p + (k - 1) * p
  {
  }

  /** When the rate divides the base rate, every second (`base` consecutive
      ticks) fires exactly `rate` times. */
  lemma ExactRateWhenDivisor(base: int, rate: int, from: nat)
    requires PositiveRate(base, rate) && base % rate == 0
    ensures Firings(base, rate, from, base) == rate
  {
    var p := base / rate;
    assert base == rate * p;
    FiringsPerPeriods(base, rate, from, rate);
  }

  /** When it does not, the truncated period makes the cadence drift: with a
      base rate of 10, a rate of 4 fires 5 times in the first second and a
      rate of 6 fires on all 10 ticks. */
  lemma TruncatedPeriodDrift()
    ensures Firings(10, 4, 1, 10) == 5
    ensures Firings(10, 6, 1, 10) == 10
  {
    assert 10 / 4 == 2 && 10 / 6 == 1;
    FiringsPerPeriods(10, 4, 1, 5);
    FiringsPerPeriods(10, 6, 1, 10);
  }
}
