/** Decimal arithmetic shared by the models.

    Amounts are exact reals. A rounding is modelled only where the program asks for one:
    half-even on a decimal grid, and truncation on the exponent of a lot step. */
module Decimals {

  function Max(x: real, y: real): real { if x >= y then x else y }

  function Min(x: real, y: real): real { if x <= y then x else y }

  function Abs(x: real): real { if x >= 0.0 then x else -x }

  /** `max(lo, min(hi, value))` with the 0..100 bounds used by the scoring code. */
  function Clamp(x: real): real { Max(0.0, Min(100.0, x)) }

  // ---------- rounding half to even ----------

  /** Nearest integer, ties to the even neighbour. */
  function RoundHalfEven(x: real): (r: int)
    ensures -0.5 <= x - r as real <= 0.5
    ensures x - r as real == 0.5 || x - r as real == -0.5 ==> r % 2 == 0
  {
    var f := x.Floor;
    var d := x - f as real;
    if d < 0.5 then f
    else if d > 0.5 then f + 1
    else if f % 2 == 0 then f
    else f + 1
  }

  /** Rounding half to even never swaps two values: an order on reals survives it. */
  lemma {:induction false} HalfEvenMonotone(x: real, y: real)
    requires x <= y
    ensures RoundHalfEven(x) <= RoundHalfEven(y)
  {
    // Reversed results would differ by one around a common tie, which goes to one even value.
    assert RoundHalfEven(x) <= RoundHalfEven(y) + 1;
    assert RoundHalfEven(x) == RoundHalfEven(y) + 1 ==> x == y;
  }

  /** Integers are fixed points of the rounding. */
  lemma {:induction false} HalfEvenOnIntegers(k: int)
    ensures RoundHalfEven(k as real) == k
  {
    assert (k as real).Floor == k;
  }

  // ---------- the 1e-8 money grid ----------

  const SCALE := 100000000.0

  /** The canonical text of an amount, as the integer count of 1e-8 units it prints. */
  function Canonical(x: real): int { RoundHalfEven(x * SCALE) }

  /** The amount a canonical text parses to. */
  function Parse(units: int): real { units as real / SCALE }

  /** Amounts that carry at most eight decimals; every request field is validated onto this grid. */
  predicate OnGrid(x: real) { Parse(Canonical(x)) == x }

  lemma {:induction false} ParsedIsOnGrid(units: int)
    ensures Canonical(Parse(units)) == units && OnGrid(Parse(units))
  {
    assert Parse(units) * SCALE == units as real;
    HalfEvenOnIntegers(units);
  }

  // ---------- lot steps ----------

  function Pow10(e: int): (p: real)
    ensures p > 0.0
    decreases if e < 0 then -e else e
  {
    if e == 0 then 1.0
    else if e > 0 then 10.0 * Pow10(e - 1)
    else Pow10(e + 1) / 10.0
  }

  lemma {:induction false} Pow10Step(e: int)
    ensures Pow10(e + 1) == 10.0 * Pow10(e)
  {
  }

  /** A decimal literal `coef * 10^exp`, the representation `normalize` works on. */
  datatype Dec = Dec(coef: int, exp: int) {
    function Value(): real { coef as real * Pow10(exp) }

    /** Strip trailing zeros of the coefficient into the exponent. */
    function Normalize(): (n: Dec)
      decreases if coef < 0 then -coef else coef
    {
      if coef == 0 then Dec(0, 0)
      else if coef % 10 == 0 then Dec(coef / 10, exp + 1).Normalize()
      else this
    }
  }

  lemma {:induction false} StripKeepsValue(coef: int, exp: int)
    ensures Dec(10 * coef, exp).Value() == Dec(coef, exp + 1).Value()
  {
    Pow10Step(exp);
    var c, p := coef as real, Pow10(exp);
    assert (10 * coef) as real == 10.0 * c;
    assert 10.0 * c * p == c * (10.0 * p);
  }

  lemma {:induction false} NormalizeKeepsValue(d: Dec)
    ensures d.Normalize().Value() == d.Value()
    ensures d.coef > 0 ==> d.Normalize().coef > 0 && d.Normalize().coef % 10 != 0
    decreases if d.coef < 0 then -d.coef else d.coef
  {
    if d.coef != 0 && d.coef % 10 == 0 {
      var next := Dec(d.coef / 10, d.exp + 1);
      NormalizeKeepsValue(next);
      StripKeepsValue(next.coef, d.exp);
      assert d == Dec(10 * next.coef, d.exp);
    }
  }

  /** `quantize(step)` looks only at the exponent of the normalised step. */
  function Quantum(step: Dec): (q: real)
    ensures q > 0.0
  {
    Pow10(step.Normalize().exp)
  }

  /** Truncation toward zero onto the multiples of `q`. */
  function RoundDown(x: real, q: real): real
    requires q > 0.0
  {
    if x >= 0.0 then (x / q).Floor as real * q else -((-x / q).Floor as real * q)
  }

  /** Truncation treats both signs alike. */
  lemma {:induction false} RoundDownIsOdd(x: real, q: real)
    requires q > 0.0
    ensures RoundDown(-x, q) == -RoundDown(x, q)
  {
  }

  function Times(k: int, q: real): real { k as real * q }

  ghost predicate IsMultiple(x: real, q: real) { exists k: int :: x == Times(k, q) }

  /** Truncation is the greatest multiple of the quantum that does not exceed a non-negative value. */
  lemma {:induction false} RoundDownIsGreatestMultiple(x: real, q: real, k: int)
    requires x >= 0.0 && q > 0.0
    ensures 0.0 <= RoundDown(x, q) <= x < RoundDown(x, q) + q
    ensures IsMultiple(RoundDown(x, q), q)
    ensures Times(k, q) <= x ==> Times(k, q) <= RoundDown(x, q)
  {
    var f := (x / q).Floor;
    FloorBracket(x, q);
    assert RoundDown(x, q) == Times(f, q);
    if Times(k, q) <= x {
      BelowFloor(x, q, k);
    }
  }

  lemma {:induction false} FloorBracket(x: real, q: real)
    requires x >= 0.0 && q > 0.0
    ensures 0.0 <= Times((x / q).Floor, q) <= x < Times((x / q).Floor, q) + q
  {
    var y := x / q;
    DivMul(x, q);
    DivNonNeg(x, q);
    Bracket(y, y.Floor, q);
  }

  lemma {:induction false} Bracket(y: real, f: int, q: real)
    requires 0 <= f && f as real <= y < (f + 1) as real && q > 0.0
    ensures 0.0 <= Times(f, q) <= y * q < Times(f, q) + q
  {
    TimesMono(0, f, q);
    MulMono(f as real, y, q);
    MulStrict(y, (f + 1) as real, q);
    TimesNext(f, q);
  }

  lemma {:induction false} TimesNext(f: int, q: real)
    ensures Times(f + 1, q) == Times(f, q) + q
  {
    var r := f as real;
    assert (f + 1) as real == r + 1.0;
    assert (r + 1.0) * q == r * q + q;
  }

  lemma {:induction false} TimesMono(k: int, m: int, q: real)
    requires k <= m && q > 0.0
    ensures Times(k, q) <= Times(m, q)
  {
    MulMono(k as real, m as real, q);
  }

  lemma {:induction false} BelowFloor(x: real, q: real, k: int)
    requires q > 0.0 && Times(k, q) <= x
    ensures Times(k, q) <= Times((x / q).Floor, q)
  {
    var y := x / q;
    DivMul(x, q);
    MulCancel(k as real, y, q);
    assert k <= y.Floor;
    TimesMono(k, y.Floor, q);
  }

  lemma {:induction false} DivMul(x: real, q: real)
    requires q != 0.0
    ensures x / q * q == x
  {
  }

  lemma {:induction false} DivNonNeg(x: real, q: real)
    requires x >= 0.0 && q > 0.0
    ensures x / q >= 0.0
  {
  }

  lemma {:induction false} MulMono(a: real, b: real, q: real)
    requires a <= b && q >= 0.0
    ensures a * q <= b * q
  {
    assert (b - a) * q >= 0.0;
  }

  lemma {:induction false} MulStrict(a: real, b: real, q: real)
    requires a < b && q > 0.0
    ensures a * q < b * q
  {
    assert (b - a) * q > 0.0;
  }

  lemma {:induction false} MulCancel(a: real, b: real, q: real)
    requires q > 0.0 && a * q <= b * q
    ensures a <= b
  {
    assert (b - a) * q >= 0.0;
  }

  /** Rounding to a step lands on multiples of the step exactly when the step is a power of ten.
      A step of 0.05 rounds to multiples of 0.01. */
  lemma {:induction false} RoundsToStepIffPowerOfTen(step: Dec)
    requires step.coef > 0
    ensures (forall x: real :: x >= 0.0 ==> IsMultiple(RoundDown(x, Quantum(step)), step.Value()))
       <==> step.Normalize().coef == 1
  {
    NormalizeKeepsValue(step);
    var q, c := Quantum(step), step.Normalize().coef;
    assert step.Value() == Times(c, q);
    if c == 1 {
      forall x: real | x >= 0.0
        ensures IsMultiple(RoundDown(x, q), step.Value())
      {
        RoundDownIsGreatestMultiple(x, q, 0);
      }
    } else {
      RoundDownOfQuantum(q);
      QuantumIsNoMultiple(q, c);
      assert !IsMultiple(RoundDown(q, q), step.Value());
    }
  }

  lemma {:induction false} RoundDownOfQuantum(q: real)
    requires q > 0.0
    ensures RoundDown(q, q) == q
  {
    assert q / q == 1.0;
  }

  lemma {:induction false} QuantumIsNoMultiple(q: real, c: int)
    requires q > 0.0 && c >= 2
    ensures !IsMultiple(q, Times(c, q))
  {
    forall k: int
      ensures q != Times(k, Times(c, q))
    {
      assert Times(k, Times(c, q)) == Times(k * c, q);
      assert k >= 1 ==> k * c >= 2;
      assert k <= 0 ==> k * c <= 0;
      if k >= 1 { MulMono(2.0, (k * c) as real, q); } else { MulMono((k * c) as real, 0.0, q); }
    }
  }

  /** The concrete case: a 0.05 step accepts a size of 0.03. */
  lemma {:induction false} FiveCentStepIsNotRespected()
    ensures RoundDown(0.03, Quantum(Dec(5, -2))) == 0.03
    ensures !IsMultiple(0.03, Dec(5, -2).Value())
  {
    assert Pow10(-1) == 0.1;
    assert Pow10(-2) == 0.01;
    assert (0.03 / 0.01).Floor == 3;
    var five := Dec(5, -2).Value();
    forall k: int
      ensures 0.03 != Times(k, five)
    {
      assert Times(k, five) == k as real * 0.05;
      assert k <= 0 || k >= 1;
    }
  }
}
