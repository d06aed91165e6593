/** Confirmed bars, the walk-forward splitter with embargo, and the forecast built from them. */
module WalkForward {
  import opened Wrappers
  import opened Decimals
  import opened Envelope

  datatype Bar = Bar(
    symbol: string, timeframe: string, openTime: int, open: real, close: real, brokerAsOf: Option<int>)

  datatype BarError =
    | EmptyBars | MixedSymbols | MixedTimeframes | NotIncreasing | NonPositive | FormingBar | FutureOpen

  datatype Confirmation = Confirmed(bars: seq<Bar>) | Rejected(error: BarError)

  /** What is wrong with bar `i`, in the order the checks are made. */
  function Fault(bars: seq<Bar>, i: nat, asOf: int): Option<BarError>
    requires i < |bars|
  {
    var bar := bars[i];
    if bar.symbol != bars[0].symbol then Some(MixedSymbols)
    else if bar.timeframe != bars[0].timeframe then Some(MixedTimeframes)
    else if i > 0 && bar.openTime <= bars[i - 1].openTime then Some(NotIncreasing)
    else if bar.close <= 0.0 || bar.open <= 0.0 then Some(NonPositive)
    else if bar.brokerAsOf.Some? && bar.brokerAsOf.value > asOf then Some(FormingBar)
    else if bar.openTime >= asOf then Some(FutureOpen)
    else None
  }

  /** Bars the forecaster accepts: non-empty, one symbol and timeframe, strictly increasing, positive,
      opened before and ended by the inference time. */
  ghost predicate Confirmable(bars: seq<Bar>, asOf: int)
  {
    bars != [] && forall i :: 0 <= i < |bars| ==> Fault(bars, i, asOf).None?
  }

  /** All bars or the first fault. */
  method ConfirmBars(bars: seq<Bar>, asOf: int) returns (result: Confirmation)
    ensures result.Confirmed? <==> Confirmable(bars, asOf)
    ensures result.Confirmed? ==> result.bars == bars
    ensures result.Rejected? && bars != [] ==>
      exists i :: 0 <= i < |bars| && Fault(bars, i, asOf) == Some(result.error)
               && forall j :: 0 <= j < i ==> Fault(bars, j, asOf).None?
  {
    if |bars| == 0 { return Rejected(EmptyBars); }
    var kept: seq<Bar> := [];
    var previous: Option<int> := None;
    for i := 0 to |bars|
      invariant kept == bars[..i]
      invariant previous == if i == 0 then None else Some(bars[i - 1].openTime)
      invariant forall j :: 0 <= j < i ==> Fault(bars, j, asOf).None?
    {
      var bar := bars[i];
      ghost var fault := Fault(bars, i, asOf);
      if bar.symbol != bars[0].symbol { return Rejected(MixedSymbols); }
      if bar.timeframe != bars[0].timeframe { return Rejected(MixedTimeframes); }
      if previous.Some? && bar.openTime <= previous.value { return Rejected(NotIncreasing); }
      previous := Some(bar.openTime);
      if bar.close <= 0.0 || bar.open <= 0.0 { return Rejected(NonPositive); }
      if bar.brokerAsOf.Some? && bar.brokerAsOf.value > asOf { return Rejected(FormingBar); }
      if bar.openTime >= asOf { return Rejected(FutureOpen); }
      kept := kept + [bar];
    }
    result := Confirmed(kept);
  }

  /** Bars are accepted exactly when there are some, all of one symbol and time frame, each opened after every
      earlier one, with positive prices, ended by the inference time and opened before it. */
  lemma {:induction false} ConfirmableIff(bars: seq<Bar>, asOf: int)
    ensures Confirmable(bars, asOf) <==>
            && bars != []
            && (forall i, j :: 0 <= i < j < |bars| ==>
                  && bars[i].symbol == bars[j].symbol && bars[i].timeframe == bars[j].timeframe
                  && bars[i].openTime < bars[j].openTime)
            && (forall i :: 0 <= i < |bars| ==>
                  && bars[i].open > 0.0 && bars[i].close > 0.0 && bars[i].openTime < asOf
                  && (bars[i].brokerAsOf.Some? ==> bars[i].brokerAsOf.value <= asOf))
  {
    if Confirmable(bars, asOf) {
      forall i, j | 0 <= i < j < |bars|
        ensures bars[i].symbol == bars[j].symbol && bars[i].timeframe == bars[j].timeframe
        ensures bars[i].openTime < bars[j].openTime
      {
        assert Fault(bars, i, asOf).None? && Fault(bars, j, asOf).None?;
        OpensIncrease(bars, asOf, i, j);
      }
      forall i | 0 <= i < |bars|
        ensures bars[i].open > 0.0 && bars[i].close > 0.0 && bars[i].openTime < asOf
        ensures bars[i].brokerAsOf.Some? ==> bars[i].brokerAsOf.value <= asOf
      {
        assert Fault(bars, i, asOf).None?;
      }
    }
  }

  lemma {:induction false} OpensIncrease(bars: seq<Bar>, asOf: int, i: nat, j: nat)
    requires Confirmable(bars, asOf) && i < j < |bars|
    ensures bars[i].openTime < bars[j].openTime
    decreases j - i
  {
    assert Fault(bars, j, asOf).None?;
    if i + 1 < j { OpensIncrease(bars, asOf, i, j - 1); }
  }

  // ---------- the splitter ----------

  datatype Sample = Sample(startIndex: nat, endIndex: nat, startOpen: int, endOpen: int, forwardReturn: real)

  datatype Split = Samples(samples: seq<Sample>) | Lookahead

  function BarEnd(bar: Bar): int { if bar.brokerAsOf.Some? then bar.brokerAsOf.value else bar.openTime }

  predicate EndsLate(bar: Bar, asOf: int) { bar.openTime >= asOf || BarEnd(bar) > asOf }

  function SampleAt(bars: seq<Bar>, horizon: nat, i: nat): Sample
    requires i + horizon < |bars| && bars[i].close > 0.0
  {
    Sample(i, i + horizon, bars[i].openTime, bars[i + horizon].openTime,
           bars[i + horizon].close / bars[i].close - 1.0)
  }

  /** The samples that start before index `k`, or a lookahead error among them. */
  function Walk(bars: seq<Bar>, horizon: nat, asOf: int, k: nat): Split
    requires k + horizon <= |bars|
  {
    if k == 0 then Samples([])
    else
      match Walk(bars, horizon, asOf, k - 1)
      case Lookahead => Lookahead
      case Samples(earlier) =>
        if bars[k - 1].close <= 0.0 then Samples(earlier)
        else if EndsLate(bars[k - 1 + horizon], asOf) then Lookahead
        else Samples(earlier + [SampleAt(bars, horizon, k - 1)])
  }

  /** How many starts the horizon and the embargo leave. */
  function Starts(n: nat, horizon: nat, embargo: nat): nat
  {
    if n >= horizon + embargo then n - horizon - embargo else 0
  }

  function SplitOf(bars: seq<Bar>, horizon: int, embargo: int, asOf: int): Split
  {
    if horizon < 1 then Samples([])
    else if embargo < 1 then Lookahead
    else if |bars| < horizon + embargo then Samples([])
    else Walk(bars, horizon, asOf, Starts(|bars|, horizon, embargo))
  }

  /** The loop, with the embargo guard that the loop bound makes dead. */
  method WalkForwardSamples(bars: seq<Bar>, horizon: int, embargo: int, asOf: int) returns (result: Split)
    ensures result == SplitOf(bars, horizon, embargo, asOf)
    ensures horizon >= 1 && embargo >= 1 && Confirmable(bars, asOf) ==>
              && result.Samples? && |result.samples| == Starts(|bars|, horizon, embargo)
              && forall i :: 0 <= i < |result.samples| ==>
                   i + horizon < |bars| - embargo && IsSampleOf(result.samples[i], bars, i, i + horizon, asOf)
  {
    if horizon >= 1 && embargo >= 1 && Confirmable(bars, asOf) { SplitOnConfirmed(bars, horizon, embargo, asOf); }
    if horizon < 1 { return Samples([]); }
    if embargo < 1 { return Lookahead; }
    var last := |bars| - 1;
    var iMax := last - horizon - embargo;
    if iMax < 0 { return Samples([]); }
    var samples: seq<Sample> := [];
    for i := 0 to iMax + 1
      invariant Walk(bars, horizon, asOf, i) == Samples(samples)
    {
      var start, end := bars[i], bars[i + horizon];
      if start.close > 0.0 {
        if EndsLate(end, asOf) {
          WalkStaysLate(bars, horizon, asOf, i + 1, iMax + 1);
          return Lookahead;
        }
        if i + horizon > last - embargo { assert false; }
        samples := samples + [SampleAt(bars, horizon, i)];
      }
    }
    result := Samples(samples);
  }

  lemma {:induction false} WalkStaysLate(bars: seq<Bar>, horizon: nat, asOf: int, k: nat, m: nat)
    requires k <= m && m + horizon <= |bars| && Walk(bars, horizon, asOf, k) == Lookahead
    ensures Walk(bars, horizon, asOf, m) == Lookahead
    decreases m
  {
    if k < m { WalkStaysLate(bars, horizon, asOf, k, m - 1); }
  }

  lemma {:induction false} WalkOnConfirmed(bars: seq<Bar>, horizon: nat, asOf: int, k: nat)
    requires Confirmable(bars, asOf) && k + horizon <= |bars|
    ensures Walk(bars, horizon, asOf, k).Samples?
    ensures var samples := Walk(bars, horizon, asOf, k).samples;
            && |samples| == k
            && forall i :: 0 <= i < k ==> bars[i].close > 0.0 && samples[i] == SampleAt(bars, horizon, i)
    decreases k
  {
    if k > 0 {
      WalkOnConfirmed(bars, horizon, asOf, k - 1);
      assert Fault(bars, k - 1, asOf).None? && Fault(bars, k - 1 + horizon, asOf).None?;
    }
  }

  /** A start with a positive close whose end bar opens at or ends after the inference time. */
  predicate LooksAhead(bars: seq<Bar>, i: nat, horizon: nat, asOf: int)
    requires i + horizon < |bars|
  {
    var end := bars[i + horizon];
    && bars[i].close > 0.0
    && (end.openTime >= asOf || (end.brokerAsOf.Some? && end.brokerAsOf.value > asOf))
  }

  lemma {:induction false} WalkLooksAhead(bars: seq<Bar>, horizon: nat, asOf: int, k: nat)
    requires k + horizon <= |bars|
    ensures Walk(bars, horizon, asOf, k) == Lookahead <==>
            exists i :: 0 <= i < k && LooksAhead(bars, i, horizon, asOf)
    decreases k
  {
    if k > 0 {
      WalkLooksAhead(bars, horizon, asOf, k - 1);
      assert LooksAhead(bars, k - 1, horizon, asOf) <==>
        bars[k - 1].close > 0.0 && EndsLate(bars[k - 1 + horizon], asOf);
    }
  }

  /** On any bars at all, the splitter raises exactly for a missing embargo or for a start that looks ahead. */
  lemma {:induction false} RaisesIffLookingAhead(bars: seq<Bar>, horizon: int, embargo: int, asOf: int)
    ensures SplitOf(bars, horizon, embargo, asOf) == Lookahead <==>
            && horizon >= 1
            && (embargo < 1
                || exists i :: 0 <= i < |bars| - horizon - embargo && LooksAhead(bars, i, horizon, asOf))
  {
    if horizon >= 1 && embargo >= 1 && |bars| >= horizon + embargo {
      WalkLooksAhead(bars, horizon, asOf, Starts(|bars|, horizon, embargo));
    }
  }

  /** The sample from one bar to a later one: their indices and opening times, all before the inference, and
      the return that takes the first close to the second. */
  predicate IsSampleOf(x: Sample, bars: seq<Bar>, start: nat, end: nat, asOf: int)
    requires start <= end < |bars|
  {
    && x.startIndex == start && x.endIndex == end
    && x.startOpen == bars[start].openTime && x.endOpen == bars[end].openTime < asOf
    && bars[start].close * (1.0 + x.forwardReturn) == bars[end].close
  }

  lemma {:induction false} ReturnReaches(start: real, end: real)
    requires start > 0.0
    ensures start * (1.0 + (end / start - 1.0)) == end
  {
  }

  /** On confirmed bars the splitter never raises and yields one sample per start that horizon and embargo
      leave, none of which ends inside the embargo. The return of a sample takes its first close to its last. */
  lemma {:induction false} SplitOnConfirmed(bars: seq<Bar>, horizon: int, embargo: int, asOf: int)
    requires Confirmable(bars, asOf) && horizon >= 1 && embargo >= 1
    ensures var split := SplitOf(bars, horizon, embargo, asOf);
            && split.Samples?
            && |split.samples| == Starts(|bars|, horizon, embargo)
            && (forall i :: 0 <= i < |split.samples| ==>
                  i + horizon < |bars| - embargo && IsSampleOf(split.samples[i], bars, i, i + horizon, asOf))
  {
    if |bars| >= horizon + embargo {
      var k := Starts(|bars|, horizon, embargo);
      WalkOnConfirmed(bars, horizon, asOf, k);
      var samples := Walk(bars, horizon, asOf, k).samples;
      forall i | 0 <= i < |samples|
        ensures IsSampleOf(samples[i], bars, i, i + horizon, asOf)
      {
        assert samples[i] == SampleAt(bars, horizon, i);
        assert Fault(bars, i + horizon, asOf).None?;
        ReturnReaches(bars[i].close, bars[i + horizon].close);
      }
    }
  }

  lemma {:induction false} WalkReadsPrefix(a: seq<Bar>, b: seq<Bar>, horizon: nat, asOf: int, k: nat, m: nat)
    requires k + horizon <= m <= |a| && m <= |b| && a[..m] == b[..m]
    ensures Walk(a, horizon, asOf, k) == Walk(b, horizon, asOf, k)
    decreases k
  {
    if k > 0 {
      WalkReadsPrefix(a, b, horizon, asOf, k - 1, m);
      assert a[k - 1] == a[..m][k - 1] && b[k - 1] == b[..m][k - 1];
      if horizon > 0 || k - 1 < m {
        assert a[..m][k - 1 + horizon] == b[..m][k - 1 + horizon];
      }
    }
  }

  /** No edit to the last `embargo` bars changes the outcome of the splitter, on any bars at all. */
  lemma {:induction false} EmbargoIsBlind(a: seq<Bar>, b: seq<Bar>, horizon: int, embargo: int, asOf: int)
    requires |a| == |b|
    requires embargo >= 1 && |a| >= embargo ==> a[..|a| - embargo] == b[..|b| - embargo]
    ensures SplitOf(a, horizon, embargo, asOf) == SplitOf(b, horizon, embargo, asOf)
  {
    if horizon >= 1 && embargo >= 1 && |a| >= horizon + embargo {
      WalkReadsPrefix(a, b, horizon, asOf, Starts(|a|, horizon, embargo), |a| - embargo);
    }
  }

  // ---------- the forecast ----------

  function ForwardReturns(samples: seq<Sample>): seq<real>
  {
    seq(|samples|, i requires 0 <= i < |samples| => samples[i].forwardReturn)
  }

  /** Quantiles of the forward returns, priced from the last confirmed close. */
  function Forecast(bars: seq<Bar>, horizon: int, embargo: int, minSamples: int, asOf: int, quantum: real)
    : Option<QuantileSet>
    requires quantum > 0.0 && bars != []
  {
    match SplitOf(bars, horizon, embargo, asOf)
    case Lookahead => None
    case Samples(samples) =>
      if |samples| < minSamples then None
      else EnvelopeOf(ForwardReturns(samples), bars[|bars| - 1].close, quantum)
  }

  /** On confirmed bars a forecast is made exactly when enough samples remain, and is always ordered. */
  lemma {:induction false} ForecastTotal(
    bars: seq<Bar>, horizon: int, embargo: int, minSamples: int, asOf: int, quantum: real)
    requires quantum > 0.0 && Confirmable(bars, asOf) && horizon >= 1 && embargo >= 1 && minSamples >= 1
    ensures var forecast := Forecast(bars, horizon, embargo, minSamples, asOf, quantum);
            && (forecast.Some? <==> Starts(|bars|, horizon, embargo) >= minSamples)
            && (forecast.Some? ==> Ordered(forecast.value))
  {
    SplitOnConfirmed(bars, horizon, embargo, asOf);
    var samples := SplitOf(bars, horizon, embargo, asOf).samples;
    var last := |bars| - 1;
    assert Fault(bars, last, asOf).None?;
    EnvelopeIsTotalAndOrdered(ForwardReturns(samples), bars[last].close, quantum);
  }

  /** No lookahead end to end: the forecast depends on the embargoed bars only through the last close. */
  lemma {:induction false} ForecastReadsOnlyLastClose(
    a: seq<Bar>, b: seq<Bar>, horizon: int, embargo: int, minSamples: int, asOf: int, quantum: real)
    requires quantum > 0.0 && a != [] && |a| == |b|
    requires embargo >= 1 && |a| >= embargo ==> a[..|a| - embargo] == b[..|b| - embargo]
    requires a[|a| - 1].close == b[|b| - 1].close
    ensures Forecast(a, horizon, embargo, minSamples, asOf, quantum)
         == Forecast(b, horizon, embargo, minSamples, asOf, quantum)
  {
    EmbargoIsBlind(a, b, horizon, embargo, asOf);
  }

  // ---------- steady growth ----------

  /** Every close is `factor` times the close one horizon before. */
  ghost predicate GrowsBy(bars: seq<Bar>, horizon: nat, factor: real)
  {
    forall i :: 0 <= i < |bars| - horizon ==> bars[i + horizon].close == bars[i].close * factor
  }

  lemma {:induction false} SameFactor(start: real, end: real, a: real, b: real)
    requires start > 0.0 && start * a == end && start * b == end
    ensures a == b
  {
    assert a * start == end && b * start == end;
    MulCancel(a, b, start);
    MulCancel(b, a, start);
  }

  lemma {:induction false} SteadyReturn(x: Sample, bars: seq<Bar>, start: nat, end: nat, asOf: int, factor: real)
    requires start <= end < |bars| && IsSampleOf(x, bars, start, end, asOf)
    requires bars[start].close > 0.0 && bars[end].close == bars[start].close * factor
    ensures x.forwardReturn == factor - 1.0
  {
    SameFactor(bars[start].close, bars[end].close, 1.0 + x.forwardReturn, factor);
  }

  lemma {:induction false} SteadyReturns(bars: seq<Bar>, horizon: int, embargo: int, asOf: int, factor: real)
    requires Confirmable(bars, asOf) && horizon >= 1 && embargo >= 1 && GrowsBy(bars, horizon, factor)
    ensures SplitOf(bars, horizon, embargo, asOf).Samples?
    ensures var moves := ForwardReturns(SplitOf(bars, horizon, embargo, asOf).samples);
            forall i :: 0 <= i < |moves| ==> moves[i] == factor - 1.0
  {
    SplitOnConfirmed(bars, horizon, embargo, asOf);
    var samples := SplitOf(bars, horizon, embargo, asOf).samples;
    forall i | 0 <= i < |samples|
      ensures samples[i].forwardReturn == factor - 1.0
    {
      assert IsSampleOf(samples[i], bars, i, i + horizon, asOf);
      assert Fault(bars, i, asOf).None?;
      SteadyReturn(samples[i], bars, i, i + horizon, asOf, factor);
    }
  }

  lemma {:induction false} GrownPrice(close: real, factor: real, quantum: real)
    requires quantum > 0.0
    ensures Price(close, factor - 1.0, quantum) == Times(RoundHalfEven(close * factor / quantum), quantum)
  {
    assert 1.0 + (factor - 1.0) == factor;
  }

  /** On bars that grow by a constant factor per horizon every quantile of the forecast is the last close times
      that factor, on the price grid. */
  lemma {:induction false} SteadyGrowthForecast(
    bars: seq<Bar>, horizon: int, embargo: int, minSamples: int, asOf: int, quantum: real, factor: real)
    requires quantum > 0.0 && Confirmable(bars, asOf) && horizon >= 1 && embargo >= 1 && minSamples >= 1
    requires GrowsBy(bars, horizon, factor)
    ensures var forecast := Forecast(bars, horizon, embargo, minSamples, asOf, quantum);
            var price := Times(RoundHalfEven(bars[|bars| - 1].close * factor / quantum), quantum);
            forecast.Some? ==> forecast.value == QuantileSet(price, price, price, price, price)
  {
    SteadyReturns(bars, horizon, embargo, asOf, factor);
    var moves := ForwardReturns(SplitOf(bars, horizon, embargo, asOf).samples);
    var last := bars[|bars| - 1].close;
    var forecast := Forecast(bars, horizon, embargo, minSamples, asOf, quantum);
    if forecast.Some? {
      assert Fault(bars, |bars| - 1, asOf).None?;
      assert forecast == EnvelopeOf(moves, last, quantum);
      ConstantEnvelope(moves, factor - 1.0, last, quantum);
      var price := Price(last, factor - 1.0, quantum);
      assert forecast.value == QuantileSet(price, price, price, price, price);
      GrownPrice(last, factor, quantum);
      assert price == Times(RoundHalfEven(last * factor / quantum), quantum);
    }
  }
}
