/**
 * Exact decimal money. Every stored amount has four fractional digits and is
 * kept as an `int` count of 0.0001 units; the engine's Decimal inputs are
 * exact rationals (`real`). `Dec` is the engine's `_dec`: quantize to 0.0001
 * rounding half-up, that is, to the nearest unit with ties away from zero.
 */
module Money {

  /** The exact value of `m` units of 0.0001. */
  function ToReal(m: int): real {
    m as real / 10000.0
  }

  /** `n` is `x` rounded to the nearest 0.0001 unit, a tie going away from zero. */
  ghost predicate IsHalfUpRounding(x: real, n: int) {
    var y := x * 10000.0;
    if x >= 0.0 then n as real - 0.5 <= y < n as real + 0.5
    else n as real - 0.5 < y <= n as real + 0.5
  }

  /** Quantize `x` to four decimal places, rounding half-up. */
  function Dec(x: real): (n: int)
    ensures IsHalfUpRounding(x, n)
    ensures x >= 0.0 ==> n >= 0
    ensures x <= 0.0 ==> n <= 0
  {
    if x >= 0.0 then (x * 10000.0 + 0.5).Floor else -((-x) * 10000.0 + 0.5).Floor
  }

  /** At most one unit count is the half-up rounding of a value. */
  lemma HalfUpUnique(x: real, n: int, m: int)
    requires IsHalfUpRounding(x, n) && IsHalfUpRounding(x, m)
    ensures n == m
  {
  }

  /** A value that already has four decimal places is left unchanged. */
  lemma {:induction false} DecOnGrid(m: int)
    ensures Dec(ToReal(m)) == m
  {
    assert ToReal(m) * 10000.0 == m as real;
    assert IsHalfUpRounding(ToReal(m), m);
    HalfUpUnique(ToReal(m), m, Dec(ToReal(m)));
  }

  /** Quantizing twice is quantizing once. */
  lemma DecIdempotent(x: real)
    ensures Dec(ToReal(Dec(x))) == Dec(x)
  {
    DecOnGrid(Dec(x));
  }

  /** A positive tie, n + 0.00005, rounds up to n + 1 units. */
  lemma DecTieRoundsUp(n: nat)
    ensures Dec((n as real + 0.5) / 10000.0) == n + 1
  {
    var x := (n as real + 0.5) / 10000.0;
    assert x * 10000.0 == n as real + 0.5;
    assert IsHalfUpRounding(x, n + 1);
    HalfUpUnique(x, n + 1, Dec(x));
  }

  /** A negative tie, -(n + 0.00005), rounds down to -(n + 1) units. */
  lemma DecTieRoundsDown(n: nat)
    ensures Dec(-(n as real + 0.5) / 10000.0) == -(n + 1)
  {
    var x := -(n as real + 0.5) / 10000.0;
    assert x * 10000.0 == -(n as real + 0.5);
    assert IsHalfUpRounding(x, -(n + 1));
    HalfUpUnique(x, -(n + 1), Dec(x));
  }

  /** Rounding is symmetric about zero. */
  lemma DecNegate(x: real)
    ensures Dec(-x) == -Dec(x)
  {
    if x != 0.0 {
      assert IsHalfUpRounding(-x, -Dec(x));
      HalfUpUnique(-x, -Dec(x), Dec(-x));
    }
  }

  /** Rounding preserves order. */
  lemma DecMonotone(x: real, y: real)
    requires x <= y
    ensures Dec(x) <= Dec(y)
  {
  }

  /** Adding two amounts that already have four decimal places is exact. */
  lemma DecSum(a: int, b: int)
    ensures Dec(ToReal(a) + ToReal(b)) == a + b
  {
    assert ToReal(a) + ToReal(b) == ToReal(a + b);
    DecOnGrid(a + b);
  }

  /** Subtracting an amount that already has four decimal places is exact. */
  lemma DecDifference(a: int, b: int)
    ensures Dec(ToReal(a) - ToReal(b)) == a - b
  {
    assert ToReal(a) - ToReal(b) == ToReal(a - b);
    DecOnGrid(a - b);
  }

  /** `_dec(a + b)` for two quantized amounts: the exact sum, nothing is rounded away. */
  function AddQuantized(a: int, b: int): (r: int)
    ensures r == a + b
  {
    DecSum(a, b);
    Dec(ToReal(a) + ToReal(b))
  }

  /** `_dec(a - b)` for two quantized amounts: the exact difference. */
  function SubQuantized(a: int, b: int): (r: int)
    ensures r == a - b
  {
    DecDifference(a, b);
    Dec(ToReal(a) - ToReal(b))
  }

  /**
   * `calc_interest`: simple interest on the quantized principal at the
   * quantized annual percentage rate for `days` of a 365-day year, quantized.
   */
  function CalcInterest(principal: real, rateApr: real, days: int): (r: int)
    ensures IsHalfUpRounding(ToReal(Dec(principal)) * ToReal(Dec(rateApr)) * (days as real) / 36500.0, r)
    ensures days == 0 ==> r == 0
    ensures principal >= 0.0 && rateApr >= 0.0 && days >= 0 ==> r >= 0
  {
    var rate := ToReal(Dec(rateApr)) / 100.0;
    var interest := ToReal(Dec(principal)) * rate * (days as real) / 365.0;
    Dec(interest)
  }

  /** A year's interest on 1000 at 12% is 120.0000. */
  lemma CalcInterestOneYear()
    ensures CalcInterest(1000.0, 12.0, 365) == 1200000
  {
    DecOnGrid(10000000);
    DecOnGrid(120000);
    assert Dec(1000.0) == 10000000 by { assert ToReal(10000000) == 1000.0; }
    assert Dec(12.0) == 120000 by { assert ToReal(120000) == 12.0; }
    DecOnGrid(1200000);
    assert ToReal(1200000) == 1000.0 * (12.0 / 100.0) * (365 as real) / 365.0;
  }
}
