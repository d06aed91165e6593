/** The confluence score: capped family contributions, penalties and vetoes, and its true maximum. */
module Confluence {
  import opened Decimals

  datatype Tier = Suppress | Watch | Eligible | High | Top

  function TierFor(score: real): Tier
  {
    if score < 40.0 then Suppress
    else if score < 60.0 then Watch
    else if score < 75.0 then Eligible
    else if score < 90.0 then High
    else Top
  }

  datatype Regime = Trending | Ranging | Volatile | Compression | Transitional | Untradeable | OtherRegime

  datatype Weights = Weights(
    regime: real, bias: real, structure: real, momentum: real, volatility: real, session: real)
  {
    /** The bounds of the configuration schema. */
    predicate InRange()
    {
      && 0.0 <= regime <= 2.0 && 0.0 <= bias <= 2.0 && 0.0 <= structure <= 2.0
      && 0.0 <= momentum <= 2.0 && 0.0 <= volatility <= 2.0 && 0.0 <= session <= 2.0
    }
  }

  const DEFAULT_WEIGHTS := Weights(1.0, 1.0, 0.9, 0.85, 0.7, 0.6)

  /** The six engine outputs the score reads. */
  datatype Evidence = Evidence(
    regimeConfidence: real, longBias: real, shortBias: real, netBias: real, structureQuality: real,
    longMomentum: real, shortMomentum: real, volatilityScore: real, sessionScore: real)

  function Capped(cap: real, raw: real): real { Max(0.0, Min(raw, cap)) }

  /** The points of a family: its percentage at a rate, times its weight, within its cap. */
  function Points(cap: real, percent: real, rate: real, weight: real): real { Capped(cap, percent * rate * weight) }

  function RegimePart(w: Weights, e: Evidence): real { Points(20.0, Clamp(e.regimeConfidence * 100.0), 0.2, w.regime) }

  function BiasPart(w: Weights, e: Evidence): real { Points(20.0, Max(e.longBias, e.shortBias), 0.2, w.bias) }

  /** The structure weight counts in units of its default. */
  function StructurePart(w: Weights, e: Evidence): real { Points(15.0, e.structureQuality, 0.15, w.structure / 0.9) }

  function MomentumPart(w: Weights, e: Evidence): real
  {
    Points(15.0, Max(e.longMomentum, e.shortMomentum), 0.15, w.momentum)
  }

  function VolatilityPart(w: Weights, e: Evidence): real { Points(10.0, e.volatilityScore, 0.1, w.volatility) }

  function SessionPart(w: Weights, e: Evidence): real { Points(10.0, e.sessionScore, 0.1, w.session) }

  /** Bias, structure and momentum agreeing too hard is charged. */
  function RedundancyPenalty(bias: real, structure: real, momentum: real): real
  {
    var least := Min(bias, Min(structure, momentum));
    if least > 12.0 then 8.0 else if least > 8.0 then 4.0 else 0.0
  }

  function ConflictPenalty(net: real): real { if Abs(net) < 8.0 then 12.0 else 0.0 }

  function RegimePenalty(r: Regime): real
  {
    if r == Untradeable then 40.0 else if r == Transitional then 10.0 else 0.0
  }

  function Redundancy(w: Weights, e: Evidence): real
  {
    RedundancyPenalty(BiasPart(w, e), StructurePart(w, e), MomentumPart(w, e))
  }

  /** The families summed and the penalties taken off, before a veto. */
  function Combined(
    regime: real, bias: real, structure: real, momentum: real, volatility: real, session: real, penalties: real): real
  {
    Clamp(regime + bias + structure + momentum + volatility + session
          - RedundancyPenalty(bias, structure, momentum) - penalties)
  }

  function FinalScore(w: Weights, e: Evidence, regime: Regime, vetoed: bool): real
  {
    var final := Combined(RegimePart(w, e), BiasPart(w, e), StructurePart(w, e), MomentumPart(w, e),
                          VolatilityPart(w, e), SessionPart(w, e),
                          ConflictPenalty(e.netBias) + RegimePenalty(regime));
    if vetoed then Min(final, 39.0) else final
  }

  // ---------- the bound for every configuration ----------

  lemma {:induction false} TrioAfterPenalty(bias: real, structure: real, momentum: real)
    requires bias <= 20.0 && structure <= 15.0 && momentum <= 15.0
    ensures bias + structure + momentum - RedundancyPenalty(bias, structure, momentum) <= 43.0
  {
  }

  /** Whatever the weights and the evidence, caps and redundancy penalty together hold the score at 83:
      the families alone could reach 90, but pushing all three directional ones there costs 8. */
  lemma {:induction false} ScoreNeverAbove83(w: Weights, e: Evidence, regime: Regime, vetoed: bool)
    ensures 0.0 <= FinalScore(w, e, regime, vetoed) <= 83.0
    ensures TierFor(FinalScore(w, e, regime, vetoed)) != Top
    ensures vetoed ==> TierFor(FinalScore(w, e, regime, vetoed)) == Suppress
  {
    TrioAfterPenalty(BiasPart(w, e), StructurePart(w, e), MomentumPart(w, e));
  }

  /** 83 is reached, with structure at 12 and everything else at its cap. */
  lemma {:induction false} Score83IsReached()
    ensures var e := Evidence(1.0, 100.0, 0.0, 100.0, 80.0, 100.0, 0.0, 100.0, 100.0);
            FinalScore(Weights(1.0, 1.0, 0.9, 1.0, 1.0, 1.0), e, Trending, false) == 83.0
  {
    var w := Weights(1.0, 1.0, 0.9, 1.0, 1.0, 1.0);
    var e := Evidence(1.0, 100.0, 0.0, 100.0, 80.0, 100.0, 0.0, 100.0, 100.0);
    assert StructurePart(w, e) == 12.0;
    assert BiasPart(w, e) == 20.0 && MomentumPart(w, e) == 15.0;
    assert RegimePart(w, e) == 20.0 && VolatilityPart(w, e) == 10.0 && SessionPart(w, e) == 10.0;
  }

  /** The evidence seen from the other side of the market. */
  function Mirrored(e: Evidence): Evidence
  {
    e.(longBias := e.shortBias, shortBias := e.longBias, netBias := -e.netBias,
       longMomentum := e.shortMomentum, shortMomentum := e.longMomentum)
  }

  lemma {:induction false} LeadMirrors(x: real, y: real)
    ensures Max(x, y) == Max(y, x)
  {
  }

  lemma {:induction false} BiasMirrors(w: Weights, e: Evidence)
    ensures BiasPart(w, Mirrored(e)) == BiasPart(w, e)
  {
    LeadMirrors(e.longBias, e.shortBias);
  }

  lemma {:induction false} MomentumMirrors(w: Weights, e: Evidence)
    ensures MomentumPart(w, Mirrored(e)) == MomentumPart(w, e)
  {
    LeadMirrors(e.longMomentum, e.shortMomentum);
  }

  lemma {:induction false} OthersMirror(w: Weights, e: Evidence)
    ensures RegimePart(w, Mirrored(e)) == RegimePart(w, e) && StructurePart(w, Mirrored(e)) == StructurePart(w, e)
    ensures VolatilityPart(w, Mirrored(e)) == VolatilityPart(w, e)
    ensures SessionPart(w, Mirrored(e)) == SessionPart(w, e)
    ensures ConflictPenalty(Mirrored(e).netBias) == ConflictPenalty(e.netBias)
  {
  }

  /** The score does not care which side the evidence is on. */
  lemma {:induction false} ScoreMirrors(w: Weights, e: Evidence, regime: Regime, vetoed: bool)
    ensures FinalScore(w, Mirrored(e), regime, vetoed) == FinalScore(w, e, regime, vetoed)
  {
    BiasMirrors(w, e);
    MomentumMirrors(w, e);
    OthersMirror(w, e);
  }

  /** Evidence within the ranges the engines promise. */
  predicate InPercent(e: Evidence)
  {
    && 0.0 <= e.regimeConfidence <= 1.0 && 0.0 <= e.longBias <= 100.0 && 0.0 <= e.shortBias <= 100.0
    && 0.0 <= e.structureQuality <= 100.0 && 0.0 <= e.longMomentum <= 100.0 && 0.0 <= e.shortMomentum <= 100.0
    && 0.0 <= e.volatilityScore <= 100.0 && 0.0 <= e.sessionScore <= 100.0
  }

  /** With the default weights no family reaches its cap from inside its range: points per percent are 0.2,
      0.2, 0.15, 0.1275, 0.07 and 0.06. */
  lemma {:induction false} DefaultPoints(e: Evidence)
    requires InPercent(e)
    ensures var w := DEFAULT_WEIGHTS;
            && RegimePart(w, e) == 20.0 * e.regimeConfidence
            && BiasPart(w, e) == (if e.longBias >= e.shortBias then e.longBias else e.shortBias) / 5.0
            && StructurePart(w, e) == e.structureQuality * 3.0 / 20.0
            && MomentumPart(w, e) ==
               (if e.longMomentum >= e.shortMomentum then e.longMomentum else e.shortMomentum) * 51.0 / 400.0
            && VolatilityPart(w, e) == e.volatilityScore * 7.0 / 100.0
            && SessionPart(w, e) == e.sessionScore * 3.0 / 50.0
  {
  }

  /** What a family earns: its share of the percentage by its weight, but no more than its cap. */
  function Share(cap: real, percent: real, pointsPerPercent: real, weight: real): real
  {
    var earned := weight * (pointsPerPercent * percent);
    if earned <= cap then earned else cap
  }

  lemma {:induction false} PointsAreShares(cap: real, percent: real, rate: real, weight: real)
    requires cap > 0.0 && percent >= 0.0 && rate > 0.0 && weight >= 0.0
    ensures Points(cap, percent, rate, weight) == Share(cap, percent, rate, weight)
  {
    MulMono(0.0, percent, rate);
    MulMono(0.0, percent * rate, weight);
    assert percent * rate * weight == weight * (rate * percent);
  }

  /** Each family earns in proportion to its weight, up to its cap. */
  lemma {:induction false} PartsAreShares(w: Weights, e: Evidence)
    requires w.InRange() && InPercent(e)
    ensures RegimePart(w, e) == Share(20.0, 100.0 * e.regimeConfidence, 0.2, w.regime)
    ensures BiasPart(w, e) == Share(20.0, if e.longBias >= e.shortBias then e.longBias else e.shortBias, 0.2, w.bias)
    ensures StructurePart(w, e) == Share(15.0, e.structureQuality, 0.15, w.structure / 0.9)
    ensures MomentumPart(w, e) ==
            Share(15.0, if e.longMomentum >= e.shortMomentum then e.longMomentum else e.shortMomentum, 0.15, w.momentum)
    ensures VolatilityPart(w, e) == Share(10.0, e.volatilityScore, 0.1, w.volatility)
    ensures SessionPart(w, e) == Share(10.0, e.sessionScore, 0.1, w.session)
  {
    assert Clamp(e.regimeConfidence * 100.0) == 100.0 * e.regimeConfidence;
    PointsAreShares(20.0, 100.0 * e.regimeConfidence, 0.2, w.regime);
    PointsAreShares(20.0, Max(e.longBias, e.shortBias), 0.2, w.bias);
    PointsAreShares(15.0, e.structureQuality, 0.15, w.structure / 0.9);
    PointsAreShares(15.0, Max(e.longMomentum, e.shortMomentum), 0.15, w.momentum);
    PointsAreShares(10.0, e.volatilityScore, 0.1, w.volatility);
    PointsAreShares(10.0, e.sessionScore, 0.1, w.session);
  }

  /** What is taken off, and what a veto leaves. */
  lemma {:induction false} ScoreIsPointsLessPenalties(w: Weights, e: Evidence, regime: Regime, vetoed: bool)
    ensures var bias, structure, momentum := BiasPart(w, e), StructurePart(w, e), MomentumPart(w, e);
            var points := RegimePart(w, e) + bias + structure + momentum + VolatilityPart(w, e) + SessionPart(w, e);
            var crowded := if bias > 12.0 && structure > 12.0 && momentum > 12.0 then 8.0
                           else if bias > 8.0 && structure > 8.0 && momentum > 8.0 then 4.0 else 0.0;
            var undecided := if -8.0 < e.netBias < 8.0 then 12.0 else 0.0;
            var unsettled := if regime == Untradeable then 40.0 else if regime == Transitional then 10.0 else 0.0;
            var left := points - crowded - undecided - unsettled;
            var score := FinalScore(w, e, regime, vetoed);
            && (left <= 0.0 ==> score == 0.0)
            && (left > 0.0 && (!vetoed || left <= 39.0) ==> score == left)
            && (left > 39.0 && vetoed ==> score == 39.0)
  {
    var p := RegimePart(w, e) + BiasPart(w, e) + StructurePart(w, e) + MomentumPart(w, e)
             + VolatilityPart(w, e) + SessionPart(w, e);
    assert p <= 90.0;
  }

  lemma {:induction false} TierBands(score: real)
    ensures TierFor(score) == Suppress <==> score < 40.0
    ensures TierFor(score) == Watch <==> 40.0 <= score < 60.0
    ensures TierFor(score) == Eligible <==> 60.0 <= score < 75.0
    ensures TierFor(score) == High <==> 75.0 <= score < 90.0
    ensures TierFor(score) == Top <==> 90.0 <= score
  {
  }

  // ---------- the engines ----------

  datatype Phase = Shock | Expansion | Dead | Squeeze | Exhaustion

  function PhaseFor(atrPct: real, roc: real): Phase
  {
    if atrPct >= 0.015 then Shock
    else if atrPct >= 0.008 then Expansion
    else if atrPct <= 0.0007 then Dead
    else if atrPct <= 0.0015 then Squeeze
    else if Abs(roc) < 0.0004 then Exhaustion
    else Expansion
  }

  function Tradability(atrPct: real): real
  {
    if atrPct >= 0.015 then 25.0
    else if atrPct >= 0.008 then 55.0
    else if atrPct <= 0.0007 then 15.0
    else if atrPct <= 0.0015 then 40.0
    else 60.0
  }

  function VolatilityScore(atrPct: real): real
  {
    Clamp(Tradability(atrPct) + (0.004 - Abs(atrPct - 0.004)) * 2000.0)
  }

  /** Regime and confidence of the deterministic baseline, on at least 16 bars. */
  function Classify(atrPct: real, trendPct: real, momentum: real): (Regime, real)
  {
    if atrPct >= 0.012 then (Volatile, Min(0.95, 0.55 + atrPct * 20.0))
    else if atrPct <= 0.0018 then (Compression, Min(0.9, 0.5 + (0.002 - atrPct) * 80.0))
    else if trendPct >= 0.0025 && momentum >= 0.001 then (Trending, Min(0.92, 0.55 + trendPct * 80.0))
    else if trendPct < 0.0008 && momentum < 0.0015 then (Ranging, Min(0.88, 0.5 + (0.001 - trendPct) * 100.0))
    else if momentum > 0.004 && trendPct < 0.001 then (Transitional, 0.45)
    else (Transitional, 0.4)
  }

  function Confidence(bars: int, atrPct: real, trendPct: real, momentum: real): real
  {
    if bars < 16 then 0.2 else Classify(atrPct, trendPct, momentum).1
  }

  function StructureQuality(hh: bool, hl: bool, lh: bool, ll: bool): real
  {
    if hh && hl then 72.0 else if ll && lh then 70.0 else if hh && ll then 45.0 else if lh && hl then 40.0 else 30.0
  }

  predicate Rollover(hour: int) { hour == 21 || hour == 22 }

  /** Session quality by UTC hour, as a percentage. London and New York overlap from 12 to 16; every hour
      belongs to some session, so the off-session quality is left to weekends. */
  function SessionScore(hour: int, weekend: bool): real
  {
    var base := if 12 <= hour < 16 then 85.0 else 55.0;
    if weekend then 10.0 else if Rollover(hour) then Min(base, 30.0) else base
  }

  /** The bands of the volatility engine. */
  lemma {:induction false} VolatilityBands(atrPct: real, roc: real)
    ensures PhaseFor(atrPct, roc) == Shock <==> atrPct >= 0.015
    ensures PhaseFor(atrPct, roc) == Dead <==> atrPct <= 0.0007
    ensures PhaseFor(atrPct, roc) == Squeeze <==> 0.0007 < atrPct <= 0.0015
    ensures PhaseFor(atrPct, roc) == Exhaustion <==> 0.0015 < atrPct < 0.008 && -0.0004 < roc < 0.0004
    ensures PhaseFor(atrPct, roc) == Expansion ==> 0.0015 < atrPct < 0.015
    ensures 0.0 <= atrPct <= 0.0007 ==> VolatilityScore(atrPct) == 15.0 + 2000.0 * atrPct
    ensures 0.0007 < atrPct <= 0.0015 ==> VolatilityScore(atrPct) == 40.0 + 2000.0 * atrPct
    ensures 0.0015 < atrPct <= 0.004 ==> VolatilityScore(atrPct) == 60.0 + 2000.0 * atrPct
    ensures 0.004 <= atrPct < 0.008 ==> VolatilityScore(atrPct) == 60.0 + 16.0 - 2000.0 * atrPct
    ensures 0.008 <= atrPct < 0.015 ==> VolatilityScore(atrPct) == 55.0 + 16.0 - 2000.0 * atrPct
    ensures atrPct >= 0.0205 ==> VolatilityScore(atrPct) == 0.0
    ensures 0.015 <= atrPct < 0.0205 ==> VolatilityScore(atrPct) == 25.0 + 16.0 - 2000.0 * atrPct
  {
  }

  /** The bands of the regime baseline, each with its confidence. */
  lemma {:induction false} RegimeBands(atrPct: real, trendPct: real, momentum: real)
    requires trendPct >= 0.0 && momentum >= 0.0
    ensures var (regime, confidence) := Classify(atrPct, trendPct, momentum);
            var calm := 0.0018 < atrPct < 0.012;
            && (regime == Volatile <==> atrPct >= 0.012)
            && (regime == Compression <==> atrPct <= 0.0018)
            && (regime == Trending <==> calm && trendPct >= 0.0025 && momentum >= 0.001)
            && (regime == Ranging <==> calm && trendPct < 0.0008 && momentum < 0.0015)
            && (regime == Volatile ==> confidence == (if atrPct >= 0.02 then 0.95 else 0.55 + 20.0 * atrPct))
            && (regime == Compression && atrPct >= 0.0 ==> confidence == 0.66 - 80.0 * atrPct)
            && (regime == Trending ==> confidence == (if trendPct >= 0.004625 then 0.92 else 0.55 + 80.0 * trendPct))
            && (regime == Ranging ==> confidence == 0.6 - 100.0 * trendPct)
            && (regime == Transitional ==>
                  confidence == if momentum > 0.004 && trendPct < 0.001 then 0.45 else 0.4)
  {
  }

  /** Session quality hour by hour. */
  lemma {:induction false} SessionBands(hour: int)
    ensures SessionScore(hour, true) == 10.0
    ensures SessionScore(hour, false) ==
            if hour == 21 || hour == 22 then 30.0 else if hour in {12, 13, 14, 15} then 85.0 else 55.0
  {
  }

  /** Structure quality by the last two swing highs and lows. */
  lemma {:induction false} StructureBands(hh: bool, hl: bool, lh: bool, ll: bool)
    requires !(hh && lh) && !(hl && ll)
    ensures StructureQuality(hh, hl, lh, ll) ==
            if hh then (if hl then 72.0 else if ll then 45.0 else 30.0)
            else if lh then (if ll then 70.0 else if hl then 40.0 else 30.0)
            else 30.0
  {
  }

  // ---------- the bias engine ----------

  /** One time frame: its weight, the gap of its two moving averages and its average true range. */
  datatype Frame = Frame(weight: real, trend: real, atr: real)

  function Lean(f: Frame): real { f.trend / Max(f.atr, 0.00000001) * 8.0 }

  function LongLean(f: Frame): real { Clamp(50.0 + Lean(f)) }

  function ShortLean(f: Frame): real { Clamp(50.0 - Lean(f)) }

  function TotalWeight(frames: seq<Frame>): real
  {
    if frames == [] then 0.0 else TotalWeight(frames[..|frames| - 1]) + frames[|frames| - 1].weight
  }

  function Weighed(frames: seq<Frame>, lean: Frame -> real): real
  {
    if frames == [] then 0.0
    else
      var last := frames[|frames| - 1];
      Weighed(frames[..|frames| - 1], lean) + lean(last) * last.weight
  }

  function Bias(frames: seq<Frame>, lean: Frame -> real): real
  {
    if TotalWeight(frames) == 0.0 then 50.0 else Weighed(frames, lean) / TotalWeight(frames)
  }

  ghost predicate Weighted(frames: seq<Frame>) { forall i :: 0 <= i < |frames| ==> frames[i].weight > 0.0 }

  lemma {:induction false} LeansComplement(f: Frame)
    ensures LongLean(f) + ShortLean(f) == 100.0 && 0.0 <= LongLean(f) <= 100.0
  {
  }

  lemma {:induction false} WeighedComplement(frames: seq<Frame>)
    requires Weighted(frames)
    ensures Weighed(frames, LongLean) + Weighed(frames, ShortLean) == 100.0 * TotalWeight(frames)
    ensures 0.0 <= Weighed(frames, LongLean) <= 100.0 * TotalWeight(frames)
    ensures frames != [] ==> TotalWeight(frames) > 0.0
  {
    if frames != [] {
      var n := |frames| - 1;
      WeighedComplement(frames[..n]);
      LeansComplement(frames[n]);
      LeanWeight(LongLean(frames[n]), ShortLean(frames[n]), frames[n].weight);
    }
  }

  lemma {:induction false} LeanWeight(long: real, short: real, weight: real)
    requires long + short == 100.0 && 0.0 <= long <= 100.0 && weight > 0.0
    ensures long * weight + short * weight == 100.0 * weight && 0.0 <= long * weight <= 100.0 * weight
  {
    assert long * weight + short * weight == (long + short) * weight;
    MulMono(long, 100.0, weight);
    MulMono(0.0, long, weight);
  }

  /** The two bias scores of any time frames are complementary percentages. */
  lemma {:induction false} BiasesComplement(frames: seq<Frame>)
    requires Weighted(frames)
    ensures Bias(frames, LongLean) + Bias(frames, ShortLean) == 100.0
    ensures 0.0 <= Bias(frames, LongLean) <= 100.0
  {
    WeighedComplement(frames);
    if frames != [] {
      Shares(Weighed(frames, LongLean), Weighed(frames, ShortLean), TotalWeight(frames));
    }
  }

  lemma {:induction false} Shares(long: real, short: real, total: real)
    requires total > 0.0 && long + short == 100.0 * total && 0.0 <= long <= 100.0 * total
    ensures long / total + short / total == 100.0 && 0.0 <= long / total <= 100.0
  {
    assert long / total + short / total == (long + short) / total;
    DivMul(long, total);
    MulCancel(long / total, 100.0, total);
    MulCancel(0.0, long / total, total);
  }

  // ---------- features ----------

  /** Features of one scan of one symbol: those of the decision time frame, with range and trend as shares of
      the close, and the other time frames. */
  datatype Features = Features(
    bars: int, close: real, atrPct: real, trend: real, roc: real, weight: real, others: seq<Frame>,
    hh: bool, hl: bool, lh: bool, ll: bool, hour: int, weekend: bool, dataOk: bool)

  function Frames(f: Features): seq<Frame> { [Frame(f.weight, f.trend * f.close, f.atrPct * f.close)] + f.others }

  ghost predicate FeaturesInRange(f: Features)
  {
    && f.close > 0.0 && f.atrPct >= 0.0 && 0 <= f.hour < 24
    && Weighted(Frames(f)) && forall i :: 0 <= i < |f.others| ==> f.others[i].atr >= 0.0
  }

  function EvidenceOf(f: Features): Evidence
  {
    var long, short := Bias(Frames(f), LongLean), Bias(Frames(f), ShortLean);
    Evidence(Confidence(f.bars, f.atrPct, Abs(f.trend), Abs(f.roc)), long, short, long - short,
             StructureQuality(f.hh, f.hl, f.lh, f.ll),
             Clamp(50.0 + f.roc * 4000.0), Clamp(50.0 - f.roc * 4000.0),
             VolatilityScore(f.atrPct), SessionScore(f.hour, f.weekend))
  }

  /** Vetoes; the regime is the one held by the persistence rule, which may lag the classification. */
  predicate Vetoed(f: Features, held: Regime)
  {
    || !f.dataOk || held == Untradeable
    || PhaseFor(f.atrPct, f.roc) == Shock || PhaseFor(f.atrPct, f.roc) == Dead
    || Rollover(f.hour) || f.weekend
  }

  function DefaultScore(f: Features, held: Regime): real
  {
    FinalScore(DEFAULT_WEIGHTS, EvidenceOf(f), held, Vetoed(f, held))
  }

  // ---------- the bound for the default weights ----------

  /** High confidence and high volatility score exclude each other once shocks and dead markets are vetoed. */
  lemma {:induction false} RegimeAndVolatilityTogether(f: Features)
    requires 0.0007 < f.atrPct < 0.015
    ensures var w, e := DEFAULT_WEIGHTS, EvidenceOf(f);
            RegimePart(w, e) + VolatilityPart(w, e) <= 23.16
  {
    var c := Confidence(f.bars, f.atrPct, Abs(f.trend), Abs(f.roc));
    if f.atrPct >= 0.012 {
      assert c <= 0.85;
      assert VolatilityScore(f.atrPct) <= 47.0;
    } else if f.atrPct <= 0.0018 {
      assert c <= 0.62;
      assert VolatilityScore(f.atrPct) <= 68.0;
    } else {
      assert c <= 0.92;
      assert VolatilityScore(f.atrPct) <= 68.0;
    }
  }

  lemma {:induction false} DefaultTrio(f: Features)
    ensures var w, e := DEFAULT_WEIGHTS, EvidenceOf(f);
            BiasPart(w, e) + StructurePart(w, e) + MomentumPart(w, e) - Redundancy(w, e) <= 39.55
  {
    var w, e := DEFAULT_WEIGHTS, EvidenceOf(f);
    assert BiasPart(w, e) <= 20.0;
    assert MomentumPart(w, e) <= 12.75;
    assert StructurePart(w, e) in {10.8, 10.5, 6.75, 6.0, 4.5};
  }

  lemma {:induction false} DefaultSession(f: Features)
    ensures SessionPart(DEFAULT_WEIGHTS, EvidenceOf(f)) <= 5.1
  {
    assert SessionScore(f.hour, f.weekend) <= 85.0;
  }

  lemma {:induction false} CombinedBound(
    regime: real, bias: real, structure: real, momentum: real, volatility: real, session: real, penalties: real)
    requires regime + volatility <= 23.16 && session <= 5.1 && penalties >= 0.0
    requires bias + structure + momentum - RedundancyPenalty(bias, structure, momentum) <= 39.55
    ensures Combined(regime, bias, structure, momentum, volatility, session, penalties) <= 67.81
  {
  }

  lemma {:induction false} UnvetoedBound(f: Features, e: Evidence, held: Regime)
    requires e == EvidenceOf(f) && 0.0007 < f.atrPct < 0.015
    ensures FinalScore(DEFAULT_WEIGHTS, e, held, false) <= 67.81
  {
    var w := DEFAULT_WEIGHTS;
    RegimeAndVolatilityTogether(f);
    DefaultTrio(f);
    DefaultSession(f);
    CombinedBound(RegimePart(w, e), BiasPart(w, e), StructurePart(w, e), MomentumPart(w, e), VolatilityPart(w, e),
                  SessionPart(w, e), ConflictPenalty(e.netBias) + RegimePenalty(held));
  }

  lemma {:induction false} VetoedBound(w: Weights, e: Evidence, held: Regime)
    ensures FinalScore(w, e, held, true) <= 39.0
  {
  }

  /** With the default weights and the engines as they are, no scan scores above 67.81, so the HIGH tier
      is never assigned. */
  lemma {:induction false} DefaultScoreNeverAbove6781(f: Features, held: Regime)
    ensures DefaultScore(f, held) <= 67.81
    ensures TierFor(DefaultScore(f, held)) in {Suppress, Watch, Eligible}
  {
    if Vetoed(f, held) {
      VetoedBound(DEFAULT_WEIGHTS, EvidenceOf(f), held);
    } else {
      UnvetoedBound(f, EvidenceOf(f), held);
    }
  }

  lemma {:induction false} WeighedAppend(frames: seq<Frame>, f: Frame, lean: Frame -> real)
    ensures Weighed(frames + [f], lean) == Weighed(frames, lean) + lean(f) * f.weight
    ensures TotalWeight(frames + [f]) == TotalWeight(frames) + f.weight
  {
    assert (frames + [f])[..|frames|] == frames;
  }

  lemma {:induction false} ThreeFrames(a: Frame, b: Frame, c: Frame, lean: Frame -> real)
    ensures Weighed([a, b, c], lean) == lean(a) * a.weight + lean(b) * b.weight + lean(c) * c.weight
    ensures TotalWeight([a, b, c]) == a.weight + b.weight + c.weight
  {
    WeighedAppend([], a, lean);
    WeighedAppend([a], b, lean);
    WeighedAppend([a, b], c, lean);
    assert [] + [a] == [a] && [a] + [b] == [a, b] && [a, b] + [c] == [a, b, c];
  }

  /** The bias of the three default time frames, given how each leans. */
  lemma {:induction false} DefaultBias(a: Frame, b: Frame, c: Frame, lean: Frame -> real)
    requires a.weight == 0.5 && b.weight == 0.2 && c.weight == 0.3
    ensures Bias([a, b, c], lean) == lean(a) * 0.5 + lean(b) * 0.2 + lean(c) * 0.3
  {
    ThreeFrames(a, b, c, lean);
  }

  /** A strong trend on every time frame at the London-New York overlap. */
  const STRONGEST := Features(
    64, 1.0, 0.004, 0.025, 0.0125, 0.5, [Frame(0.2, 0.025, 0.004), Frame(0.3, 0.025, 0.004)],
    true, true, false, false, 13, false, true)

  lemma {:induction false} StrongestBias(f: Features)
    requires f == STRONGEST
    ensures FeaturesInRange(f)
    ensures Bias(Frames(f), LongLean) == 100.0 && Bias(Frames(f), ShortLean) == 0.0
  {
    var a, b, c := Frame(0.5, 0.025, 0.004), Frame(0.2, 0.025, 0.004), Frame(0.3, 0.025, 0.004);
    assert Frames(f) == [a, b, c];
    assert Lean(a) == Lean(b) == Lean(c) == 50.0;
    DefaultBias(a, b, c, LongLean);
    DefaultBias(a, b, c, ShortLean);
  }

  /** The bound is attained. */
  lemma {:induction false} DefaultScore6781IsReached(f: Features)
    requires f == STRONGEST
    ensures FeaturesInRange(f) && DefaultScore(f, Trending) == 67.81
  {
    var w, e := DEFAULT_WEIGHTS, EvidenceOf(f);
    StrongestBias(f);
    assert e.regimeConfidence == 0.92 && RegimePart(w, e) == 18.4;
    assert e.volatilityScore == 68.0 && VolatilityPart(w, e) == 4.76;
    assert e.structureQuality == 72.0 && StructurePart(w, e) == 10.8;
    assert e.longMomentum == 100.0 && MomentumPart(w, e) == 12.75;
    assert e.sessionScore == 85.0 && SessionPart(w, e) == 5.1;
    assert BiasPart(w, e) == 20.0;
    assert !Vetoed(f, Trending);
  }
}
