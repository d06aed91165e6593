/** The residual quantile envelope: Hyndman-Fan type 7 percentiles mapped to prices. */
module Envelope {
  import opened Wrappers
  import opened Decimals

  const LEVELS: seq<real> := [0.05, 0.25, 0.50, 0.75, 0.95]

  function Floor(x: real): int { x.Floor }

  function Ceil(x: real): int { -((-x).Floor) }

  function Between(lo: int, i: int, hi: int): int { if i < lo then lo else if i > hi then hi else i }

  /** Linear interpolation between the two samples around the real index `p * (n - 1)`. */
  function Percentile(s: seq<real>, p: real): real
    requires s != []
  {
    var n := |s|;
    if n == 1 || p <= 0.0 then s[0]
    else if p >= 1.0 then s[n - 1]
    else
      var h := p * (n - 1) as real;
      var lo := Between(0, Floor(h), n - 1);
      var hi := Between(0, Ceil(h), n - 1);
      if lo == hi then s[lo] else s[lo] + (s[hi] - s[lo]) * (h - lo as real)
  }

  ghost predicate Sorted(s: seq<real>) { forall i, j :: 0 <= i < j < |s| ==> s[i] <= s[j] }

  predicate NonDecreasing(s: seq<real>) { forall i :: 0 <= i < |s| - 1 ==> s[i] <= s[i + 1] }

  // ---------- interpolation ----------

  /** The percentile as a function of the index `h` in `[0, n - 1]`. */
  function AtIndex(s: seq<real>, h: real): real
    requires s != [] && 0.0 <= h <= (|s| - 1) as real
  {
    var lo := Floor(h);
    if lo as real == h then s[lo] else s[lo] + (s[lo + 1] - s[lo]) * (h - lo as real)
  }

  function IndexOf(n: nat, p: real): real
  {
    if p <= 0.0 then 0.0 else if p >= 1.0 then (n - 1) as real else p * (n - 1) as real
  }

  lemma {:induction false} IndexInRange(n: nat, p: real)
    requires n >= 1
    ensures 0.0 <= IndexOf(n, p) <= (n - 1) as real
  {
    if 0.0 < p < 1.0 { MulMono(p, 1.0, (n - 1) as real); MulMono(0.0, p, (n - 1) as real); }
  }

  /** The clamps of the two indices are idle and the ceiling is the next index. */
  lemma {:induction false} PercentileIsAtIndex(s: seq<real>, p: real)
    requires s != []
    ensures 0.0 <= IndexOf(|s|, p) <= (|s| - 1) as real
    ensures Percentile(s, p) == AtIndex(s, IndexOf(|s|, p))
  {
    IndexInRange(|s|, p);
    if |s| > 1 && 0.0 < p < 1.0 {
      CeilOf(IndexOf(|s|, p));
    } else {
      assert Floor(0.0) == 0 && Floor((|s| - 1) as real) == |s| - 1;
      if |s| == 1 { assert IndexOf(1, p) == 0.0 by { IndexInRange(1, p); } }
    }
  }

  lemma {:induction false} CeilOf(h: real)
    ensures Ceil(h) == if Floor(h) as real == h then Floor(h) else Floor(h) + 1
  {
  }

  lemma {:induction false} Interpolates(a: real, b: real, w: real)
    requires a <= b && 0.0 <= w <= 1.0
    ensures a <= a + (b - a) * w <= b
  {
    MulMono(0.0, w, b - a);
    MulMono(w, 1.0, b - a);
  }

  /** Between the two neighbours. */
  lemma {:induction false} AtIndexBracket(s: seq<real>, h: real)
    requires s != [] && Sorted(s) && 0.0 <= h <= (|s| - 1) as real
    ensures s[Floor(h)] <= AtIndex(s, h)
    ensures Floor(h) + 1 < |s| ==> AtIndex(s, h) <= s[Floor(h) + 1]
    ensures Floor(h) + 1 >= |s| ==> AtIndex(s, h) == s[|s| - 1]
  {
    var lo := Floor(h);
    if lo as real != h {
      Interpolates(s[lo], s[lo + 1], h - lo as real);
    }
  }

  lemma {:induction false} AtIndexMonotone(s: seq<real>, g: real, h: real)
    requires s != [] && Sorted(s) && 0.0 <= g <= h <= (|s| - 1) as real
    ensures AtIndex(s, g) <= AtIndex(s, h)
  {
    AtIndexBracket(s, g);
    AtIndexBracket(s, h);
    if Floor(g) == Floor(h) {
      var lo := Floor(g);
      if lo as real != g {
        SlopeMonotone(s[lo], s[lo + 1], g - lo as real, h - lo as real);
      }
    }
  }

  lemma {:induction false} SlopeMonotone(a: real, b: real, v: real, w: real)
    requires a <= b && v <= w
    ensures a + (b - a) * v <= a + (b - a) * w
  {
    MulMono(v, w, b - a);
  }

  lemma {:induction false} IndexMonotone(n: nat, p: real, q: real)
    requires n >= 1 && p <= q
    ensures IndexOf(n, p) <= IndexOf(n, q)
  {
    IndexInRange(n, p);
    IndexInRange(n, q);
    if 0.0 < p && q < 1.0 {
      calc {
        IndexOf(n, p);
      ==
        p * (n - 1) as real;
      <= { MulMono(p, q, (n - 1) as real); }
        q * (n - 1) as real;
      ==
        IndexOf(n, q);
      }
    }
  }

  /** Type 7 interpolation is monotone in the level and stays within the sample range. */
  lemma {:induction false} PercentileMonotone(s: seq<real>, p: real, q: real)
    requires s != [] && Sorted(s) && p <= q
    ensures s[0] <= Percentile(s, p) <= Percentile(s, q) <= s[|s| - 1]
  {
    PercentileIsAtIndex(s, p);
    PercentileIsAtIndex(s, q);
    IndexMonotone(|s|, p, q);
    AtIndexMonotone(s, IndexOf(|s|, p), IndexOf(|s|, q));
    AtIndexMonotone(s, 0.0, IndexOf(|s|, p));
    AtIndexMonotone(s, IndexOf(|s|, q), (|s| - 1) as real);
    assert Floor(0.0) == 0 && Floor((|s| - 1) as real) == |s| - 1;
  }

  function Reflected(s: seq<real>): (t: seq<real>)
    ensures |t| == |s|
  {
    seq(|s|, i requires 0 <= i < |s| => -s[|s| - 1 - i])
  }

  /** Reflecting the sample mirrors the percentile: no level is treated differently from its complement. */
  lemma {:induction false} PercentileReflects(s: seq<real>, p: real)
    requires s != []
    ensures Percentile(Reflected(s), 1.0 - p) == -Percentile(s, p)
  {
    PercentileIsAtIndex(s, p);
    PercentileIsAtIndex(Reflected(s), 1.0 - p);
    IndexReflects(|s|, p);
    AtIndexReflects(s, IndexOf(|s|, p));
  }

  lemma {:induction false} IndexReflects(n: nat, p: real)
    requires n >= 1
    ensures IndexOf(n, 1.0 - p) == (n - 1) as real - IndexOf(n, p)
  {
    var m := (n - 1) as real;
    assert (1.0 - p) * m == m - p * m;
  }

  lemma {:induction false} AtIndexReflects(s: seq<real>, h: real)
    requires s != [] && 0.0 <= h <= (|s| - 1) as real
    ensures AtIndex(Reflected(s), (|s| - 1) as real - h) == -AtIndex(s, h)
  {
    var n, lo := |s|, Floor(h);
    var g := (n - 1) as real - h;
    if lo as real == h {
      assert Floor(g) == n - 1 - lo;
    } else {
      assert Floor(g) == n - 2 - lo;
      assert g - Floor(g) as real == 1.0 - (h - lo as real);
      assert Reflected(s)[n - 2 - lo] == -s[lo + 1] && Reflected(s)[n - 1 - lo] == -s[lo];
      MirrorSlope(s[lo], s[lo + 1], h - lo as real);
    }
  }

  lemma {:induction false} MirrorSlope(a: real, b: real, w: real)
    ensures -b + (-a - -b) * (1.0 - w) == -(a + (b - a) * w)
  {
    assert (b - a) * (1.0 - w) == (b - a) - (b - a) * w;
  }

  // ---------- sorting ----------

  function Insert(x: real, s: seq<real>): (t: seq<real>)
    ensures |t| == |s| + 1
  {
    if s == [] || x <= s[0] then [x] + s else [s[0]] + Insert(x, s[1..])
  }

  function Sort(s: seq<real>): (t: seq<real>)
    ensures |t| == |s|
  {
    if s == [] then [] else Insert(s[0], Sort(s[1..]))
  }

  lemma {:induction false} InsertSorts(x: real, s: seq<real>)
    requires Sorted(s)
    ensures Sorted(Insert(x, s))
    ensures Insert(x, s)[0] == x || (s != [] && Insert(x, s)[0] == s[0])
    decreases |s|
  {
    if s != [] && x > s[0] {
      InsertSorts(x, s[1..]);
      var tail := Insert(x, s[1..]);
      assert forall k :: 0 <= k < |tail| ==> tail[0] <= tail[k];
    }
  }

  lemma {:induction false} InsertPermutes(x: real, s: seq<real>)
    ensures multiset(Insert(x, s)) == multiset(s) + multiset{x}
    decreases |s|
  {
    if s != [] && x > s[0] {
      InsertPermutes(x, s[1..]);
      assert s == [s[0]] + s[1..];
    }
  }

  lemma {:induction false} SortIsSort(s: seq<real>)
    ensures Sorted(Sort(s)) && multiset(Sort(s)) == multiset(s)
    decreases |s|
  {
    if s != [] {
      SortIsSort(s[1..]);
      InsertSorts(s[0], Sort(s[1..]));
      InsertPermutes(s[0], Sort(s[1..]));
      assert s == [s[0]] + s[1..];
    }
  }

  /** A sorted arrangement of a multiset is unique. */
  lemma {:induction false} SortedUnique(a: seq<real>, b: seq<real>)
    requires Sorted(a) && Sorted(b) && multiset(a) == multiset(b)
    ensures a == b
    decreases |a|
  {
    assert |a| == |multiset(a)| == |multiset(b)| == |b|;
    if a != [] {
      HeadIsLeast(a, b);
      HeadIsLeast(b, a);
      assert a == [a[0]] + a[1..] && b == [b[0]] + b[1..];
      assert multiset(a[1..]) == multiset(a) - multiset{a[0]};
      assert multiset(b[1..]) == multiset(b) - multiset{b[0]};
      SortedUnique(a[1..], b[1..]);
    }
  }

  lemma {:induction false} HeadIsLeast(a: seq<real>, b: seq<real>)
    requires a != [] && b != [] && Sorted(a) && multiset(a) == multiset(b)
    ensures a[0] <= b[0]
  {
    assert b[0] in multiset(b);
    assert b[0] in multiset(a);
    var i :| 0 <= i < |a| && a[i] == b[0];
  }

  // ---------- the envelope ----------

  datatype QuantileSet = QuantileSet(q05: real, q25: real, q50: real, q75: real, q95: real)

  /** The validator of the quantile contract. */
  predicate Ordered(q: QuantileSet) { q.q05 <= q.q25 <= q.q50 <= q.q75 <= q.q95 }

  /** None for an empty sample, or when the quantiles came out of order. */
  function ReturnQuantiles(sample: seq<real>): Option<seq<real>>
  {
    if sample == [] then None
    else
      var values := Levels(Sort(sample));
      if NonDecreasing(values) then Some(values) else None
  }

  /** Half-even onto the price grid. */
  function Price(close: real, ret: real, quantum: real): real
    requires quantum > 0.0
  {
    Times(RoundHalfEven(close * (1.0 + ret) / quantum), quantum)
  }

  function MapToPrice(close: real, sample: seq<real>, quantum: real): Option<seq<real>>
    requires quantum > 0.0
  {
    if close <= 0.0 then None
    else
      var prices := seq(|sample|, i requires 0 <= i < |sample| => Price(close, sample[i], quantum));
      if NonDecreasing(prices) then Some(prices) else None
  }

  function EnvelopeOf(sample: seq<real>, close: real, quantum: real): Option<QuantileSet>
    requires quantum > 0.0
  {
    match ReturnQuantiles(sample)
    case None => None
    case Some(values) =>
      match MapToPrice(close, values, quantum)
      case None => None
      case Some(p) =>
        if |p| != 5 then None
        else
          var q := QuantileSet(p[0], p[1], p[2], p[3], p[4]);
          if Ordered(q) then Some(q) else None
  }

  lemma {:induction false} PriceMonotone(close: real, a: real, b: real, quantum: real)
    requires close > 0.0 && quantum > 0.0 && a <= b
    ensures Price(close, a, quantum) <= Price(close, b, quantum)
  {
    ScaleMonotone(close, 1.0 + a, 1.0 + b, quantum);
    HalfEvenMonotone(close * (1.0 + a) / quantum, close * (1.0 + b) / quantum);
    TimesMono(RoundHalfEven(close * (1.0 + a) / quantum), RoundHalfEven(close * (1.0 + b) / quantum), quantum);
  }

  lemma {:induction false} ScaleMonotone(close: real, a: real, b: real, quantum: real)
    requires close > 0.0 && quantum > 0.0 && a <= b
    ensures close * a / quantum <= close * b / quantum
  {
    MulMono(a, b, close);
    DivMono(close * a, close * b, quantum);
  }

  lemma {:induction false} DivMono(x: real, y: real, q: real)
    requires q > 0.0 && x <= y
    ensures x / q <= y / q
  {
    DivMul(x, q);
    DivMul(y, q);
    MulCancel(x / q, y / q, q);
  }

  function Levels(s: seq<real>): (v: seq<real>)
    requires s != []
    ensures |v| == 5
  {
    seq(5, i requires 0 <= i < 5 => Percentile(s, LEVELS[i]))
  }

  lemma {:induction false} LevelsOrdered(s: seq<real>)
    requires s != [] && Sorted(s)
    ensures NonDecreasing(Levels(s))
    ensures s[0] <= Levels(s)[0] && Levels(s)[4] <= s[|s| - 1]
  {
    forall i | 0 <= i < 4
      ensures Levels(s)[i] <= Levels(s)[i + 1]
    {
      assert LEVELS[i] <= LEVELS[i + 1];
      PercentileMonotone(s, LEVELS[i], LEVELS[i + 1]);
    }
    PercentileMonotone(s, LEVELS[0], LEVELS[4]);
  }

  lemma {:induction false} ReturnGuardIdle(sample: seq<real>)
    requires sample != []
    ensures ReturnQuantiles(sample) == Some(Levels(Sort(sample)))
    ensures NonDecreasing(Levels(Sort(sample)))
    ensures Sort(sample)[0] <= Levels(Sort(sample))[0] && Levels(Sort(sample))[4] <= Sort(sample)[|sample| - 1]
  {
    SortIsSort(sample);
    LevelsOrdered(Sort(sample));
  }

  /** The envelope exists exactly for a non-empty sample and a positive close: neither order guard nor the
      validator ever rejects. It is ordered, and brackets the rounded prices of the extreme sample. */
  lemma {:induction false} EnvelopeIsTotalAndOrdered(sample: seq<real>, close: real, quantum: real)
    requires quantum > 0.0
    ensures EnvelopeOf(sample, close, quantum).Some? <==> sample != [] && close > 0.0
    ensures EnvelopeOf(sample, close, quantum).Some? ==>
              var q, s := EnvelopeOf(sample, close, quantum).value, Sort(sample);
              && Ordered(q)
              && q.q50 == Price(close, Percentile(s, 0.50), quantum)
              && Price(close, s[0], quantum) <= q.q05
              && q.q95 <= Price(close, s[|s| - 1], quantum)
  {
    if sample != [] && close > 0.0 {
      ReturnGuardIdle(sample);
      var v := ReturnQuantiles(sample).value;
      PriceMonotone(close, Sort(sample)[0], v[0], quantum);
      PriceMonotone(close, v[0], v[1], quantum);
      PriceMonotone(close, v[1], v[2], quantum);
      PriceMonotone(close, v[2], v[3], quantum);
      PriceMonotone(close, v[3], v[4], quantum);
      PriceMonotone(close, v[4], Sort(sample)[|sample| - 1], quantum);
    }
  }

  /** The order of the sample does not matter. */
  lemma {:induction false} EnvelopeIgnoresOrder(a: seq<real>, b: seq<real>, close: real, quantum: real)
    requires quantum > 0.0 && multiset(a) == multiset(b)
    ensures EnvelopeOf(a, close, quantum) == EnvelopeOf(b, close, quantum)
  {
    SortIsSort(a);
    SortIsSort(b);
    SortedUnique(Sort(a), Sort(b));
    assert |a| == |multiset(a)| == |multiset(b)| == |b|;
  }

  // ---------- what each quantile is ----------

  /** The five quantiles are the prices of the sample's percentiles at 5, 25, 50, 75 and 95 per cent. */
  lemma {:induction false} QuantilesAreAtTheirLevels(sample: seq<real>, close: real, quantum: real)
    requires quantum > 0.0 && sample != [] && close > 0.0
    ensures EnvelopeOf(sample, close, quantum).Some?
    ensures var q, s := EnvelopeOf(sample, close, quantum).value, Sort(sample);
            && q.q05 == Price(close, Percentile(s, 0.05), quantum)
            && q.q25 == Price(close, Percentile(s, 0.25), quantum)
            && q.q50 == Price(close, Percentile(s, 0.5), quantum)
            && q.q75 == Price(close, Percentile(s, 0.75), quantum)
            && q.q95 == Price(close, Percentile(s, 0.95), quantum)
  {
    EnvelopeIsTotalAndOrdered(sample, close, quantum);
  }

  /** A price is the multiple of the quantum nearest to the close moved by the return. */
  lemma {:induction false} PriceIsNearest(close: real, ret: real, quantum: real)
    requires quantum > 0.0
    ensures IsMultiple(Price(close, ret, quantum), quantum)
    ensures Abs(Price(close, ret, quantum) - close * (1.0 + ret)) <= quantum / 2.0
  {
    var x := close * (1.0 + ret);
    assert Price(close, ret, quantum) == Times(RoundHalfEven(x / quantum), quantum);
    NearestMultiple(x, RoundHalfEven(x / quantum), quantum);
  }

  lemma {:induction false} NearestMultiple(x: real, k: int, q: real)
    requires q > 0.0 && -0.5 <= x / q - k as real <= 0.5
    ensures -(q / 2.0) <= x - Times(k, q) <= q / 2.0
  {
    var d := x / q - k as real;
    DivMul(x, q);
    assert d * q == x - k as real * q;
    MulMono(d, 0.5, q);
    MulMono(-0.5, d, q);
    assert 0.5 * q == q / 2.0 && -0.5 * q == -(q / 2.0);
    assert Times(k, q) == k as real * q;
  }

  lemma {:induction false} ConstantSort(sample: seq<real>, value: real)
    requires forall i :: 0 <= i < |sample| ==> sample[i] == value
    ensures forall i :: 0 <= i < |Sort(sample)| ==> Sort(sample)[i] == value
  {
    SortIsSort(sample);
    var s := Sort(sample);
    forall i | 0 <= i < |s|
      ensures s[i] == value
    {
      assert s[i] in multiset(s);
      assert s[i] in multiset(sample);
    }
  }

  lemma {:induction false} ConstantEnvelope(sample: seq<real>, value: real, close: real, quantum: real)
    requires quantum > 0.0 && sample != [] && close > 0.0
    requires forall i :: 0 <= i < |sample| ==> sample[i] == value
    ensures var price := Price(close, value, quantum);
            EnvelopeOf(sample, close, quantum) == Some(QuantileSet(price, price, price, price, price))
  {
    QuantilesAreAtTheirLevels(sample, close, quantum);
    ConstantSort(sample, value);
    var s := Sort(sample);
    ConstantPercentile(s, value, 0.05);
    ConstantPercentile(s, value, 0.25);
    ConstantPercentile(s, value, 0.5);
    ConstantPercentile(s, value, 0.75);
    ConstantPercentile(s, value, 0.95);
  }

  lemma {:induction false} ConstantPercentile(s: seq<real>, value: real, p: real)
    requires s != [] && forall i :: 0 <= i < |s| ==> s[i] == value
    ensures Percentile(s, p) == value
  {
    PercentileMonotone(s, p, p);
  }
}
