/** The calibrated weighted ensemble: averages over any number of votes, and their mirror symmetry. */
module Ensemble {
  import opened Decimals

  datatype Direction = Buy | Sell | NoDirection

  datatype Vote = Vote(
    direction: Direction, abstained: bool, probability: real,
    reliability: real, regimeFit: real, setupQuality: real, frictionFit: real, liveHealth: real)

  datatype Weights = Weights(
    reliability: real, regimeFit: real, setupQuality: real, frictionFit: real, liveHealth: real)
  {
    function Total(): real { reliability + regimeFit + setupQuality + frictionFit + liveHealth }

    /** Non-negative and together 1, up to the tolerance of the configuration schema. */
    predicate Valid()
    {
      && reliability >= 0.0 && regimeFit >= 0.0 && setupQuality >= 0.0 && frictionFit >= 0.0 && liveHealth >= 0.0
      && -0.000000001 <= Total() - 1.0 <= 0.000000001
    }
  }

  datatype Thresholds = Thresholds(go: real, edgeMargin: real, minSelected: int, conflictNoTrade: real)
  {
    predicate Valid()
    {
      0.0 <= go <= 1.0 && 0.0 <= edgeMargin <= 1.0 && 1 <= minSelected <= 3 && 0.0 <= conflictNoTrade <= 1.0
    }
  }

  datatype Verdict = Wait | NoTrade | GoLong | GoShort

  datatype Consensus = Consensus(
    verdict: Verdict, pLong: real, pShort: real, agreement: real, conflict: real, confidence: real)

  function Clip01(x: real): real { Min(1.0, Max(0.0, x)) }

  function Part(weight: real, x: real): (r: real)
    ensures weight >= 0.0 ==> r >= 0.0
  {
    weight * Clip01(x)
  }

  function VoteWeight(v: Vote, w: Weights): real
  {
    Part(w.reliability, v.reliability) + Part(w.regimeFit, v.regimeFit) + Part(w.setupQuality, v.setupQuality)
    + Part(w.frictionFit, v.frictionFit) + Part(w.liveHealth, v.liveHealth)
  }

  predicate Selected(v: Vote) { !v.abstained && v.direction != NoDirection }

  predicate On(v: Vote, side: Direction) { Selected(v) && v.direction == side }

  function WeightOn(v: Vote, side: Direction, w: Weights): real { if On(v, side) then VoteWeight(v, w) else 0.0 }

  /** The weight times the clipped probability. */
  function VoteMass(v: Vote, w: Weights): real { VoteWeight(v, w) * Clip01(v.probability) }

  function MassOn(v: Vote, side: Direction, w: Weights): real { if On(v, side) then VoteMass(v, w) else 0.0 }

  function Sum(votes: seq<Vote>, f: Vote -> real): real
  {
    if votes == [] then 0.0 else Sum(votes[..|votes| - 1], f) + f(votes[|votes| - 1])
  }

  function TotalWeight(votes: seq<Vote>, side: Direction, w: Weights): real
  {
    Sum(votes, v => WeightOn(v, side, w))
  }

  function TotalMass(votes: seq<Vote>, side: Direction, w: Weights): real
  {
    Sum(votes, v => MassOn(v, side, w))
  }

  function SelectedCount(votes: seq<Vote>): real { Sum(votes, v => if Selected(v) then 1.0 else 0.0) }

  /** The weighted mean of one side, or zero when the side carries no weight. */
  function Mean(mass: real, weight: real): real { if weight != 0.0 then mass / weight else 0.0 }

  function Conflict(pLong: real, pShort: real, both: bool): real
  {
    Min(1.0, (1.0 - Abs(pLong - pShort)) * (if both then 0.5 else 0.15))
  }

  function Judge(pLong: real, pShort: real, both: bool, t: Thresholds): Verdict
  {
    if Conflict(pLong, pShort, both) >= t.conflictNoTrade && both then NoTrade
    else if pLong >= t.go && pLong - pShort >= t.edgeMargin then GoLong
    else if pShort >= t.go && pShort - pLong >= t.edgeMargin then GoShort
    else Wait
  }

  function Agreement(gap: real, count: real): real { Min(1.0, gap * (count / 3.0)) }

  function Confidence(lead: real, conflict: real): real { Min(1.0, lead * (1.0 - conflict)) }

  function Figures(count: real, pLong: real, pShort: real, both: bool, t: Thresholds): Consensus
  {
    var conflict := Conflict(pLong, pShort, both);
    Consensus(Judge(pLong, pShort, both, t), pLong, pShort,
              Agreement(Abs(pLong - pShort), count), conflict, Confidence(Max(pLong, pShort), conflict))
  }

  function Conclude(count: real, longMass: real, longWeight: real, shortMass: real, shortWeight: real, t: Thresholds)
    : Consensus
  {
    if count < t.minSelected as real then Consensus(Wait, 0.0, 0.0, 0.0, 0.0, 0.0)
    else Figures(count, Mean(longMass, longWeight), Mean(shortMass, shortWeight),
                 longWeight != 0.0 && shortWeight != 0.0, t)
  }

  function Decide(votes: seq<Vote>, w: Weights, t: Thresholds): Consensus
  {
    Conclude(SelectedCount(votes), TotalMass(votes, Buy, w), TotalWeight(votes, Buy, w),
             TotalMass(votes, Sell, w), TotalWeight(votes, Sell, w), t)
  }

  /** Two lists with the same sums on both sides. */
  ghost predicate SameTotals(a: seq<Vote>, b: seq<Vote>, w: Weights)
  {
    forall side :: TotalMass(a, side, w) == TotalMass(b, side, w) && TotalWeight(a, side, w) == TotalWeight(b, side, w)
  }

  /** Abstentions and votes without direction are dropped; no sum changes. */
  method SelectVotes(votes: seq<Vote>, ghost w: Weights) returns (selected: seq<Vote>)
    ensures |selected| as real == SelectedCount(votes) && SameTotals(selected, votes, w)
    ensures forall j :: 0 <= j < |selected| ==> Selected(selected[j])
    ensures forall v ::
      multiset(selected)[v] == if v.abstained || v.direction == NoDirection then 0 else multiset(votes)[v]
  {
    selected := [];
    for i := 0 to |votes|
      invariant forall v ::
        multiset(selected)[v] == if v.abstained || v.direction == NoDirection then 0 else multiset(votes[..i])[v]
      invariant |selected| as real == SelectedCount(votes[..i]) && SameTotals(selected, votes[..i], w)
      invariant forall j :: 0 <= j < |selected| ==> Selected(selected[j])
    {
      assert votes[..i + 1] == votes[..i] + [votes[i]];
      AppendTotals(votes[..i], votes[i], w);
      if !votes[i].abstained && votes[i].direction != NoDirection {
        AppendTotals(selected, votes[i], w);
        selected := selected + [votes[i]];
      }
    }
    assert votes[..|votes|] == votes;
  }

  method Accumulate(selected: seq<Vote>, w: Weights)
    returns (longMass: real, longWeight: real, shortMass: real, shortWeight: real)
    requires forall j :: 0 <= j < |selected| ==> Selected(selected[j])
    ensures longMass == TotalMass(selected, Buy, w) && longWeight == TotalWeight(selected, Buy, w)
    ensures shortMass == TotalMass(selected, Sell, w) && shortWeight == TotalWeight(selected, Sell, w)
  {
    longMass, shortMass, longWeight, shortWeight := 0.0, 0.0, 0.0, 0.0;
    for i := 0 to |selected|
      invariant longMass == TotalMass(selected[..i], Buy, w) && longWeight == TotalWeight(selected[..i], Buy, w)
      invariant shortMass == TotalMass(selected[..i], Sell, w) && shortWeight == TotalWeight(selected[..i], Sell, w)
    {
      var v := selected[i];
      assert selected[..i + 1] == selected[..i] + [v];
      AppendSide(selected[..i], v, Buy, w);
      AppendSide(selected[..i], v, Sell, w);
      if v.direction == Buy {
        longMass, longWeight := longMass + VoteMass(v, w), longWeight + VoteWeight(v, w);
      } else {
        shortMass, shortWeight := shortMass + VoteMass(v, w), shortWeight + VoteWeight(v, w);
      }
    }
    assert selected[..|selected|] == selected;
  }

  /** Select, accumulate per side, then judge. */
  method DecideVotes(votes: seq<Vote>, w: Weights, t: Thresholds) returns (result: Consensus)
    ensures result == Decide(votes, w, t)
    ensures w.Valid() ==> SaysOf(result, Spoken(votes, Buy), Spoken(votes, Sell), w, t)
  {
    if w.Valid() { ConsensusMeans(votes, w, t); }
    var selected := SelectVotes(votes, w);
    if |selected| < t.minSelected { return Consensus(Wait, 0.0, 0.0, 0.0, 0.0, 0.0); }
    var longMass, longWeight, shortMass, shortWeight := Accumulate(selected, w);
    result := Conclude(|selected| as real, longMass, longWeight, shortMass, shortWeight, t);
  }

  lemma {:induction false} SumAppend(votes: seq<Vote>, v: Vote, f: Vote -> real)
    ensures Sum(votes + [v], f) == Sum(votes, f) + f(v)
  {
    assert (votes + [v])[..|votes|] == votes;
  }

  lemma {:induction false} AppendSide(votes: seq<Vote>, v: Vote, side: Direction, w: Weights)
    ensures TotalMass(votes + [v], side, w) == TotalMass(votes, side, w) + MassOn(v, side, w)
    ensures TotalWeight(votes + [v], side, w) == TotalWeight(votes, side, w) + WeightOn(v, side, w)
  {
    SumAppend(votes, v, x => MassOn(x, side, w));
    SumAppend(votes, v, x => WeightOn(x, side, w));
  }

  lemma {:induction false} AppendTotals(votes: seq<Vote>, v: Vote, w: Weights)
    ensures SelectedCount(votes + [v]) == SelectedCount(votes) + (if Selected(v) then 1.0 else 0.0)
    ensures forall side :: TotalMass(votes + [v], side, w) == TotalMass(votes, side, w) + MassOn(v, side, w)
    ensures forall side :: TotalWeight(votes + [v], side, w) == TotalWeight(votes, side, w) + WeightOn(v, side, w)
  {
    SumAppend(votes, v, x => if Selected(x) then 1.0 else 0.0);
    forall side
      ensures TotalMass(votes + [v], side, w) == TotalMass(votes, side, w) + MassOn(v, side, w)
      ensures TotalWeight(votes + [v], side, w) == TotalWeight(votes, side, w) + WeightOn(v, side, w)
    {
      AppendSide(votes, v, side, w);
    }
  }

  // ---------- order does not matter ----------

  lemma {:induction false} SumConcat(a: seq<Vote>, b: seq<Vote>, f: Vote -> real)
    ensures Sum(a + b, f) == Sum(a, f) + Sum(b, f)
    decreases |b|
  {
    if b == [] {
      assert a + b == a;
    } else {
      var n := |b| - 1;
      SumConcat(a, b[..n], f);
      SumAppend(a + b[..n], b[n], f);
      assert a + b == (a + b[..n]) + [b[n]];
    }
  }

  lemma {:induction false} SumPermutes(a: seq<Vote>, b: seq<Vote>, f: Vote -> real)
    requires multiset(a) == multiset(b)
    ensures Sum(a, f) == Sum(b, f)
    decreases |a|
  {
    if a == [] {
      assert |multiset(b)| == 0;
      assert b == [];
    } else {
      var n := |a| - 1;
      var x := a[n];
      assert x in multiset(a);
      assert x in multiset(b);
      var k :| 0 <= k < |b| && b[k] == x;
      var rest := b[..k] + b[k + 1..];
      assert b == b[..k] + [x] + b[k + 1..];
      assert a == a[..n] + [x];
      assert multiset(a[..n]) == multiset(a) - multiset{x};
      assert multiset(rest) == multiset(b) - multiset{x};
      SumPermutes(a[..n], rest, f);
      SumConcat(b[..k] + [x], b[k + 1..], f);
      SumAppend(b[..k], x, f);
      SumConcat(b[..k], b[k + 1..], f);
    }
  }

  /** The consensus is the same for every order of the votes. */
  lemma {:induction false} DecisionIgnoresOrder(a: seq<Vote>, b: seq<Vote>, w: Weights, t: Thresholds)
    requires multiset(a) == multiset(b)
    ensures Decide(a, w, t) == Decide(b, w, t)
  {
    SumPermutes(a, b, v => if Selected(v) then 1.0 else 0.0);
    SumPermutes(a, b, v => MassOn(v, Buy, w));
    SumPermutes(a, b, v => WeightOn(v, Buy, w));
    SumPermutes(a, b, v => MassOn(v, Sell, w));
    SumPermutes(a, b, v => WeightOn(v, Sell, w));
  }

  // ---------- averages stay between their votes ----------

  lemma {:induction false} WeightNonNegative(v: Vote, w: Weights)
    requires w.Valid()
    ensures VoteWeight(v, w) >= 0.0
  {
  }

  lemma {:induction false} NonNegativeProduct(a: real, b: real)
    requires a >= 0.0 && b >= 0.0
    ensures a * b >= 0.0
  {
  }

  ghost predicate BoundedOn(votes: seq<Vote>, side: Direction, lo: real, hi: real)
  {
    forall i :: 0 <= i < |votes| && On(votes[i], side) ==> lo <= Clip01(votes[i].probability) <= hi
  }

  /** A mass between `lo` and `hi` times a non-negative weight. */
  predicate Between(mass: real, weight: real, lo: real, hi: real)
  {
    weight >= 0.0 && lo * weight <= mass <= hi * weight
  }

  lemma {:induction false} BetweenAdd(m: real, w: real, x: real, y: real, lo: real, hi: real)
    requires Between(m, w, lo, hi) && Between(x, y, lo, hi)
    ensures Between(m + x, w + y, lo, hi)
  {
    assert lo * (w + y) == lo * w + lo * y;
    assert hi * (w + y) == hi * w + hi * y;
  }

  lemma {:induction false} SumBetween(votes: seq<Vote>, f: Vote -> real, g: Vote -> real, lo: real, hi: real)
    requires forall i :: 0 <= i < |votes| ==> Between(f(votes[i]), g(votes[i]), lo, hi)
    ensures Between(Sum(votes, f), Sum(votes, g), lo, hi)
    decreases |votes|
  {
    if votes != [] {
      var n := |votes| - 1;
      SumBetween(votes[..n], f, g, lo, hi);
      BetweenAdd(Sum(votes[..n], f), Sum(votes[..n], g), f(votes[n]), g(votes[n]), lo, hi);
    }
  }

  lemma {:induction false} ProductBetween(weight: real, x: real, lo: real, hi: real)
    requires weight >= 0.0 && lo <= x <= hi
    ensures Between(weight * x, weight, lo, hi)
  {
    MulMono(lo, x, weight);
    MulMono(x, hi, weight);
  }

  lemma {:induction false} VoteBetween(v: Vote, side: Direction, w: Weights, lo: real, hi: real)
    requires w.Valid() && (On(v, side) ==> lo <= Clip01(v.probability) <= hi)
    ensures Between(MassOn(v, side, w), WeightOn(v, side, w), lo, hi)
  {
    WeightNonNegative(v, w);
    if On(v, side) { ProductBetween(VoteWeight(v, w), Clip01(v.probability), lo, hi); }
  }

  lemma {:induction false} MassWithin(votes: seq<Vote>, side: Direction, w: Weights, lo: real, hi: real)
    requires w.Valid() && BoundedOn(votes, side, lo, hi)
    ensures Between(TotalMass(votes, side, w), TotalWeight(votes, side, w), lo, hi)
  {
    forall i | 0 <= i < |votes|
      ensures Between(MassOn(votes[i], side, w), WeightOn(votes[i], side, w), lo, hi)
    {
      VoteBetween(votes[i], side, w, lo, hi);
    }
    SumBetween(votes, v => MassOn(v, side, w), v => WeightOn(v, side, w), lo, hi);
  }

  lemma {:induction false} MeanWithin(mass: real, weight: real, lo: real, hi: real)
    requires weight > 0.0 && lo * weight <= mass <= hi * weight
    ensures lo <= mass / weight <= hi
  {
    DivMul(mass, weight);
    MulCancel(lo, mass / weight, weight);
    MulCancel(mass / weight, hi, weight);
  }

  function SideMean(votes: seq<Vote>, side: Direction, w: Weights): real
  {
    Mean(TotalMass(votes, side, w), TotalWeight(votes, side, w))
  }

  /** Each side's probability lies between the least and the greatest calibrated probability voted on that
      side when the side carries weight, and is zero when it carries none. */
  lemma {:induction false} SideMeanBetweenVotes(votes: seq<Vote>, side: Direction, w: Weights, lo: real, hi: real)
    requires w.Valid() && BoundedOn(votes, side, lo, hi)
    ensures TotalWeight(votes, side, w) >= 0.0
    ensures TotalWeight(votes, side, w) == 0.0 ==> SideMean(votes, side, w) == 0.0
    ensures TotalWeight(votes, side, w) > 0.0 ==> lo <= SideMean(votes, side, w) <= hi
  {
    MassWithin(votes, side, w, lo, hi);
    if TotalWeight(votes, side, w) > 0.0 {
      MeanWithin(TotalMass(votes, side, w), TotalWeight(votes, side, w), lo, hi);
    }
  }

  lemma {:induction false} CountNonNegative(votes: seq<Vote>)
    ensures SelectedCount(votes) >= 0.0
    decreases |votes|
  {
    if votes != [] {
      CountNonNegative(votes[..|votes| - 1]);
    }
  }

  ghost predicate Proportions(r: Consensus)
  {
    && 0.0 <= r.pLong <= 1.0 && 0.0 <= r.pShort <= 1.0
    && 0.0 <= r.agreement <= 1.0 && 0.0 <= r.conflict <= 1.0 && 0.0 <= r.confidence <= 1.0
  }

  lemma {:induction false} FiguresProportions(count: real, a: real, b: real, both: bool, t: Thresholds)
    requires count >= 0.0 && 0.0 <= a <= 1.0 && 0.0 <= b <= 1.0
    ensures Proportions(Figures(count, a, b, both, t))
  {
    ConflictIsProportion(a, b, both);
    NonNegativeProduct(Abs(a - b), count / 3.0);
    NonNegativeProduct(Max(a, b), 1.0 - Conflict(a, b, both));
  }

  lemma {:induction false} ConflictIsProportion(a: real, b: real, both: bool)
    requires 0.0 <= a <= 1.0 && 0.0 <= b <= 1.0
    ensures 0.0 <= Conflict(a, b, both) <= 1.0
  {
  }

  /** Every figure of a consensus is a proportion, as its contract demands. */
  lemma {:induction false} FiguresAreProportions(votes: seq<Vote>, w: Weights, t: Thresholds)
    requires w.Valid()
    ensures Proportions(Decide(votes, w, t))
  {
    SideMeanBetweenVotes(votes, Buy, w, 0.0, 1.0);
    SideMeanBetweenVotes(votes, Sell, w, 0.0, 1.0);
    CountNonNegative(votes);
    FiguresProportions(SelectedCount(votes), SideMean(votes, Buy, w), SideMean(votes, Sell, w),
                       TotalWeight(votes, Buy, w) != 0.0 && TotalWeight(votes, Sell, w) != 0.0, t);
  }

  // ---------- what a consensus says about its votes ----------

  function Proportion(x: real): real { if x < 0.0 then 0.0 else if x > 1.0 then 1.0 else x }

  /** The votes that speak for a side, in order. */
  function Spoken(votes: seq<Vote>, side: Direction): seq<Vote>
  {
    if votes == [] then []
    else
      var last := votes[|votes| - 1];
      var before := Spoken(votes[..|votes| - 1], side);
      if last.abstained || last.direction != side then before else before + [last]
  }

  function Share(quality: real, weight: real): real { Proportion(quality) * weight }

  /** How much a vote counts: its five qualities, each a proportion, weighed by the configuration. */
  function Standing(v: Vote, w: Weights): real
  {
    Share(v.reliability, w.reliability) + Share(v.regimeFit, w.regimeFit) + Share(v.setupQuality, w.setupQuality)
    + Share(v.frictionFit, w.frictionFit) + Share(v.liveHealth, w.liveHealth)
  }

  function Standings(votes: seq<Vote>, w: Weights): real
  {
    if votes == [] then 0.0 else Standings(votes[..|votes| - 1], w) + Standing(votes[|votes| - 1], w)
  }

  function Backing(votes: seq<Vote>, w: Weights): real
  {
    if votes == [] then 0.0
    else
      var last := votes[|votes| - 1];
      Backing(votes[..|votes| - 1], w) + Standing(last, w) * Proportion(last.probability)
  }

  /** `p` is the average probability of the votes by standing, zero when they have none. */
  predicate IsAverage(p: real, votes: seq<Vote>, w: Weights)
  {
    var total := Standings(votes, w);
    p * total == Backing(votes, w) && (total == 0.0 ==> p == 0.0)
  }

  lemma {:induction false} PartIsShare(weight: real, x: real)
    ensures Part(weight, x) == Share(x, weight) && Proportion(x) == Clip01(x)
  {
  }

  lemma {:induction false} StandingIsWeight(v: Vote, w: Weights)
    ensures Standing(v, w) == VoteWeight(v, w) && Proportion(v.probability) == Clip01(v.probability)
  {
    PartIsShare(w.reliability, v.reliability);
    PartIsShare(w.regimeFit, v.regimeFit);
    PartIsShare(w.setupQuality, v.setupQuality);
    PartIsShare(w.frictionFit, v.frictionFit);
    PartIsShare(w.liveHealth, v.liveHealth);
    PartIsShare(1.0, v.probability);
  }

  lemma {:induction false} OnIsSpoken(v: Vote, side: Direction, w: Weights)
    requires side != NoDirection
    ensures var silent := v.abstained || v.direction != side;
            && WeightOn(v, side, w) == (if silent then 0.0 else Standing(v, w))
            && MassOn(v, side, w) == (if silent then 0.0 else Standing(v, w) * Proportion(v.probability))
  {
    StandingIsWeight(v, w);
  }

  lemma {:induction false} StandingsAppend(votes: seq<Vote>, v: Vote, w: Weights)
    ensures Standings(votes + [v], w) == Standings(votes, w) + Standing(v, w)
    ensures Backing(votes + [v], w) == Backing(votes, w) + Standing(v, w) * Proportion(v.probability)
  {
    assert (votes + [v])[..|votes|] == votes;
  }

  lemma {:induction false} SpokenAppend(votes: seq<Vote>, v: Vote, side: Direction)
    ensures Spoken(votes + [v], side) ==
            if v.abstained || v.direction != side then Spoken(votes, side) else Spoken(votes, side) + [v]
  {
    assert (votes + [v])[..|votes|] == votes;
  }

  lemma {:induction false} SpokenStep(votes: seq<Vote>, v: Vote, side: Direction, w: Weights)
    requires side != NoDirection
    requires TotalWeight(votes, side, w) == Standings(Spoken(votes, side), w)
    requires TotalMass(votes, side, w) == Backing(Spoken(votes, side), w)
    ensures TotalWeight(votes + [v], side, w) == Standings(Spoken(votes + [v], side), w)
    ensures TotalMass(votes + [v], side, w) == Backing(Spoken(votes + [v], side), w)
  {
    OnIsSpoken(v, side, w);
    SpokenAppend(votes, v, side);
    StandingsAppend(Spoken(votes, side), v, w);
    AppendSide(votes, v, side, w);
  }

  lemma {:induction false} SpokenTotals(votes: seq<Vote>, side: Direction, w: Weights)
    requires side != NoDirection
    ensures TotalWeight(votes, side, w) == Standings(Spoken(votes, side), w)
    ensures TotalMass(votes, side, w) == Backing(Spoken(votes, side), w)
    decreases |votes|
  {
    if votes != [] {
      var n := |votes| - 1;
      SpokenTotals(votes[..n], side, w);
      SpokenStep(votes[..n], votes[n], side, w);
      assert votes == votes[..n] + [votes[n]];
    }
  }

  lemma {:induction false} SpokenCount(votes: seq<Vote>)
    ensures SelectedCount(votes) == (|Spoken(votes, Buy)| + |Spoken(votes, Sell)|) as real
    decreases |votes|
  {
    if votes != [] { SpokenCount(votes[..|votes| - 1]); }
  }

  lemma {:induction false} MeanTimesWeight(mass: real, weight: real)
    requires Between(mass, weight, 0.0, 1.0)
    ensures Mean(mass, weight) * weight == mass
  {
    if weight > 0.0 { DivMul(mass, weight); }
  }

  lemma {:induction false} ProbabilitiesBounded(votes: seq<Vote>, side: Direction)
    ensures BoundedOn(votes, side, 0.0, 1.0)
  {
  }

  lemma {:induction false} MeanOfSpoken(mass: real, weight: real, votes: seq<Vote>, w: Weights)
    requires Between(mass, weight, 0.0, 1.0) && weight == Standings(votes, w) && mass == Backing(votes, w)
    ensures IsAverage(Mean(mass, weight), votes, w)
  {
    MeanTimesWeight(mass, weight);
  }

  lemma {:induction false} MeanIsAverage(votes: seq<Vote>, side: Direction, w: Weights)
    requires w.Valid() && side != NoDirection
    ensures IsAverage(SideMean(votes, side, w), Spoken(votes, side), w)
  {
    SpokenTotals(votes, side, w);
    ProbabilitiesBounded(votes, side);
    MassWithin(votes, side, w, 0.0, 1.0);
    MeanOfSpoken(TotalMass(votes, side, w), TotalWeight(votes, side, w), Spoken(votes, side), w);
  }

  /** Both sides have standing and the two averages are too close. */
  predicate Clash(r: Consensus, both: bool, t: Thresholds)
  {
    both && (1.0 - Abs(r.pLong - r.pShort)) / 2.0 >= t.conflictNoTrade
  }

  /** What the figures and the verdict of a consensus are, given its two averages. */
  ghost predicate Follows(r: Consensus, selected: nat, both: bool, t: Thresholds)
  {
    var gap := Abs(r.pLong - r.pShort);
    var long := r.pLong >= t.go && r.pLong >= r.pShort + t.edgeMargin;
    var short := r.pShort >= t.go && r.pShort >= r.pLong + t.edgeMargin;
    && r.conflict == (if both then (1.0 - gap) / 2.0 else (1.0 - gap) * 3.0 / 20.0)
    && r.agreement == (if gap * selected as real >= 3.0 then 1.0 else gap * selected as real / 3.0)
    && r.confidence == (if r.pLong >= r.pShort then r.pLong else r.pShort) * (1.0 - r.conflict)
    && (r.verdict == NoTrade <==> Clash(r, both, t))
    && (r.verdict == GoLong <==> !Clash(r, both, t) && long)
    && (r.verdict == GoShort <==> !Clash(r, both, t) && !long && short)
    && (r.verdict == Wait <==> !Clash(r, both, t) && !long && !short)
  }

  lemma {:induction false} ConflictValue(a: real, b: real, both: bool)
    requires 0.0 <= a <= 1.0 && 0.0 <= b <= 1.0
    ensures Conflict(a, b, both) ==
            if both then (1.0 - Abs(a - b)) / 2.0 else (1.0 - Abs(a - b)) * 3.0 / 20.0
  {
  }

  lemma {:induction false} AgreementValue(gap: real, count: nat)
    ensures Agreement(gap, count as real) ==
            if gap * count as real >= 3.0 then 1.0 else gap * count as real / 3.0
  {
    assert gap * (count as real / 3.0) == gap * count as real / 3.0;
  }

  lemma {:induction false} ConfidenceValue(lead: real, conflict: real)
    requires 0.0 <= lead <= 1.0 && 0.0 <= conflict <= 1.0
    ensures Confidence(lead, conflict) == lead * (1.0 - conflict)
  {
    ProductAtMostOne(lead, 1.0 - conflict);
  }

  lemma {:induction false} FiguresFollow(count: nat, a: real, b: real, both: bool, t: Thresholds)
    requires 0.0 <= a <= 1.0 && 0.0 <= b <= 1.0
    ensures Follows(Figures(count as real, a, b, both, t), count, both, t)
  {
    ConflictIsProportion(a, b, both);
    ConflictValue(a, b, both);
    AgreementValue(Abs(a - b), count);
    ConfidenceValue(Max(a, b), Conflict(a, b, both));
  }

  lemma {:induction false} ProductAtMostOne(a: real, b: real)
    requires 0.0 <= a <= 1.0 && 0.0 <= b <= 1.0
    ensures 0.0 <= a * b <= 1.0
  {
    NonNegativeProduct(a, b);
    NonNegativeProduct(1.0 - a, b);
    assert a * b == b - (1.0 - a) * b;
  }

  /** What a consensus `r` says about the votes for either side: with too few of them it waits with all figures
      zero; otherwise its two probabilities are their averages by standing, and everything else follows. */
  ghost predicate SaysOf(r: Consensus, long: seq<Vote>, short: seq<Vote>, w: Weights, t: Thresholds)
  {
    if |long| + |short| < t.minSelected then r == Consensus(Wait, 0.0, 0.0, 0.0, 0.0, 0.0)
    else
      && IsAverage(r.pLong, long, w) && IsAverage(r.pShort, short, w)
      && Follows(r, |long| + |short|, Standings(long, w) != 0.0 && Standings(short, w) != 0.0, t)
  }

  lemma {:induction false} FiguresSay(long: seq<Vote>, short: seq<Vote>, a: real, b: real, w: Weights, t: Thresholds)
    requires |long| + |short| >= t.minSelected && 0.0 <= a <= 1.0 && 0.0 <= b <= 1.0
    requires IsAverage(a, long, w) && IsAverage(b, short, w)
    ensures var both := Standings(long, w) != 0.0 && Standings(short, w) != 0.0;
            SaysOf(Figures((|long| + |short|) as real, a, b, both, t), long, short, w, t)
  {
    FiguresFollow(|long| + |short|, a, b, Standings(long, w) != 0.0 && Standings(short, w) != 0.0, t);
  }

  lemma {:induction false} SidesSay(votes: seq<Vote>, w: Weights, t: Thresholds)
    requires w.Valid()
    ensures var long, short := Spoken(votes, Buy), Spoken(votes, Sell);
            var both := Standings(long, w) != 0.0 && Standings(short, w) != 0.0;
            |long| + |short| >= t.minSelected ==>
              SaysOf(Figures((|long| + |short|) as real, SideMean(votes, Buy, w), SideMean(votes, Sell, w), both, t),
                     long, short, w, t)
  {
    var long, short := Spoken(votes, Buy), Spoken(votes, Sell);
    if |long| + |short| >= t.minSelected {
      MeanIsAverage(votes, Buy, w);
      MeanIsAverage(votes, Sell, w);
      SideMeanIsProportion(votes, Buy, w);
      SideMeanIsProportion(votes, Sell, w);
      FiguresSay(long, short, SideMean(votes, Buy, w), SideMean(votes, Sell, w), w, t);
    }
  }

  lemma {:induction false} FewSay(long: seq<Vote>, short: seq<Vote>, w: Weights, t: Thresholds)
    requires |long| + |short| < t.minSelected
    ensures SaysOf(Consensus(Wait, 0.0, 0.0, 0.0, 0.0, 0.0), long, short, w, t)
  {
  }

  /** The consensus of any votes says this of the votes that speak for the two sides. */
  lemma {:induction false} ConsensusMeans(votes: seq<Vote>, w: Weights, t: Thresholds)
    requires w.Valid()
    ensures SaysOf(Decide(votes, w, t), Spoken(votes, Buy), Spoken(votes, Sell), w, t)
  {
    var long, short := Spoken(votes, Buy), Spoken(votes, Sell);
    DecideByCount(votes, w, t);
    SidesSay(votes, w, t);
    if |long| + |short| < t.minSelected { FewSay(long, short, w, t); }
  }

  lemma {:induction false} SideMeanIsProportion(votes: seq<Vote>, side: Direction, w: Weights)
    requires w.Valid()
    ensures 0.0 <= SideMean(votes, side, w) <= 1.0
  {
    ProbabilitiesBounded(votes, side);
    SideMeanBetweenVotes(votes, side, w, 0.0, 1.0);
  }

  lemma {:induction false} DecideByCount(votes: seq<Vote>, w: Weights, t: Thresholds)
    ensures var long, short := Spoken(votes, Buy), Spoken(votes, Sell);
            var both := Standings(long, w) != 0.0 && Standings(short, w) != 0.0;
            Decide(votes, w, t) ==
            if |long| + |short| < t.minSelected then Consensus(Wait, 0.0, 0.0, 0.0, 0.0, 0.0)
            else Figures((|long| + |short|) as real, SideMean(votes, Buy, w), SideMean(votes, Sell, w), both, t)
  {
    SpokenCount(votes);
    SpokenTotals(votes, Buy, w);
    SpokenTotals(votes, Sell, w);
  }

  // ---------- mirror symmetry ----------

  function Opposite(d: Direction): Direction
  {
    match d case Buy => Sell case Sell => Buy case NoDirection => NoDirection
  }

  function MirrorVote(v: Vote): Vote { v.(direction := Opposite(v.direction)) }

  function MirrorVotes(votes: seq<Vote>): (m: seq<Vote>)
    ensures |m| == |votes|
  {
    seq(|votes|, i requires 0 <= i < |votes| => MirrorVote(votes[i]))
  }

  function MirrorVerdict(v: Verdict): Verdict
  {
    match v case GoLong => GoShort case GoShort => GoLong case Wait => Wait case NoTrade => NoTrade
  }

  function MirrorConsensus(c: Consensus): Consensus
  {
    c.(verdict := MirrorVerdict(c.verdict), pLong := c.pShort, pShort := c.pLong)
  }

  lemma {:induction false} MirrorSum(votes: seq<Vote>, f: Vote -> real, g: Vote -> real)
    requires forall v: Vote :: f(MirrorVote(v)) == g(v)
    ensures Sum(MirrorVotes(votes), f) == Sum(votes, g)
    decreases |votes|
  {
    if votes != [] {
      var n := |votes| - 1;
      MirrorSum(votes[..n], f, g);
      assert MirrorVotes(votes)[..n] == MirrorVotes(votes[..n]);
      assert MirrorVotes(votes)[n] == MirrorVote(votes[n]);
    }
  }

  lemma {:induction false} MirrorSide(votes: seq<Vote>, side: Direction, w: Weights)
    requires side != NoDirection
    ensures TotalMass(MirrorVotes(votes), side, w) == TotalMass(votes, Opposite(side), w)
    ensures TotalWeight(MirrorVotes(votes), side, w) == TotalWeight(votes, Opposite(side), w)
  {
    MirrorSum(votes, v => MassOn(v, side, w), v => MassOn(v, Opposite(side), w));
    MirrorSum(votes, v => WeightOn(v, side, w), v => WeightOn(v, Opposite(side), w));
  }

  lemma {:induction false} MirrorCount(votes: seq<Vote>)
    ensures SelectedCount(MirrorVotes(votes)) == SelectedCount(votes)
  {
    MirrorSum(votes, v => if Selected(v) then 1.0 else 0.0, v => if Selected(v) then 1.0 else 0.0);
  }

  lemma {:induction false} MirrorTotals(votes: seq<Vote>, w: Weights, t: Thresholds)
    ensures Decide(MirrorVotes(votes), w, t) ==
            Conclude(SelectedCount(votes), TotalMass(votes, Sell, w), TotalWeight(votes, Sell, w),
                     TotalMass(votes, Buy, w), TotalWeight(votes, Buy, w), t)
  {
    MirrorCount(votes);
    MirrorSide(votes, Buy, w);
    MirrorSide(votes, Sell, w);
  }

  /** Swapping BUY and SELL on every vote of every list mirrors the whole consensus. */
  ghost predicate Symmetric(w: Weights, t: Thresholds)
  {
    forall votes :: Decide(MirrorVotes(votes), w, t) == MirrorConsensus(Decide(votes, w, t))
  }

  /** No tie can fall to the long side. */
  predicate TiesAreSafe(t: Thresholds) { t.edgeMargin > 0.0 || (t.go > 0.0 && t.conflictNoTrade <= 0.5) }

  lemma {:induction false} ConflictMirrors(a: real, b: real, both: bool)
    ensures Conflict(b, a, both) == Conflict(a, b, both)
  {
    assert Abs(a - b) == Abs(b - a);
  }

  lemma {:induction false} JudgeMirrors(pLong: real, pShort: real, both: bool, t: Thresholds)
    requires TiesAreSafe(t) && t.edgeMargin >= 0.0
    requires pLong > 0.0 && pShort > 0.0 ==> both
    ensures Judge(pShort, pLong, both, t) == MirrorVerdict(Judge(pLong, pShort, both, t))
  {
    ConflictMirrors(pLong, pShort, both);
    if t.edgeMargin == 0.0 && pLong == pShort && pLong >= t.go {
      assert Conflict(pLong, pShort, both) == 0.5;
    }
  }

  lemma {:induction false} FiguresMirror(count: real, a: real, b: real, both: bool, t: Thresholds)
    requires TiesAreSafe(t) && t.edgeMargin >= 0.0
    requires a > 0.0 && b > 0.0 ==> both
    ensures Figures(count, b, a, both, t) == MirrorConsensus(Figures(count, a, b, both, t))
  {
    JudgeMirrors(a, b, both, t);
    ConflictMirrors(a, b, both);
    assert Abs(a - b) == Abs(b - a) && Max(a, b) == Max(b, a);
  }

  lemma {:induction false} ConcludeMirrors(
    count: real, longMass: real, longWeight: real, shortMass: real, shortWeight: real, t: Thresholds)
    requires TiesAreSafe(t) && t.edgeMargin >= 0.0
    ensures Conclude(count, shortMass, shortWeight, longMass, longWeight, t)
         == MirrorConsensus(Conclude(count, longMass, longWeight, shortMass, shortWeight, t))
  {
    FiguresMirror(count, Mean(longMass, longWeight), Mean(shortMass, shortWeight),
                  longWeight != 0.0 && shortWeight != 0.0, t);
  }

  lemma {:induction false} SafeTiesMirror(votes: seq<Vote>, w: Weights, t: Thresholds)
    requires t.Valid() && TiesAreSafe(t)
    ensures Decide(MirrorVotes(votes), w, t) == MirrorConsensus(Decide(votes, w, t))
  {
    MirrorTotals(votes, w, t);
    ConcludeMirrors(SelectedCount(votes), TotalMass(votes, Buy, w), TotalWeight(votes, Buy, w),
                    TotalMass(votes, Sell, w), TotalWeight(votes, Sell, w), t);
  }

  function FullVote(d: Direction, p: real): Vote { Vote(d, false, p, 1.0, 1.0, 1.0, 1.0, 1.0) }

  /** With no edge demanded, a tie goes long whichever way the votes are swapped: three BUY votes at
      probability zero when nothing is asked of the probability, two confident votes each way when the
      conflict limit lets an even split through. */
  function TieVotes(t: Thresholds): seq<Vote>
  {
    if t.go == 0.0 then [FullVote(Buy, 0.0), FullVote(Buy, 0.0), FullVote(Buy, 0.0)]
    else [FullVote(Buy, 1.0), FullVote(Buy, 1.0), FullVote(Sell, 1.0), FullVote(Sell, 1.0)]
  }

  lemma {:induction false} SumOfThree(a: Vote, b: Vote, c: Vote, f: Vote -> real)
    ensures Sum([a, b, c], f) == f(a) + f(b) + f(c)
  {
    SumAppend([], a, f);
    SumAppend([a], b, f);
    SumAppend([a, b], c, f);
    assert [] + [a] == [a] && [a] + [b] == [a, b] && [a, b] + [c] == [a, b, c];
  }

  lemma {:induction false} EmptyTieTotals(t: Thresholds, w: Weights)
    requires w.Valid() && t.go == 0.0
    ensures var votes := TieVotes(t);
            && SelectedCount(votes) == 3.0 && TotalWeight(votes, Buy, w) == 3.0 * w.Total()
            && TotalMass(votes, Buy, w) == 0.0 && TotalWeight(votes, Sell, w) == 0.0
  {
    var x := FullVote(Buy, 0.0);
    SumOfThree(x, x, x, v => if Selected(v) then 1.0 else 0.0);
    SumOfThree(x, x, x, v => WeightOn(v, Buy, w));
    SumOfThree(x, x, x, v => MassOn(v, Buy, w));
    SumOfThree(x, x, x, v => WeightOn(v, Sell, w));
  }

  lemma {:induction false} SumOfFour(x: Vote, y: Vote, f: Vote -> real)
    ensures Sum([x, x, y, y], f) == f(x) + f(x) + f(y) + f(y)
  {
    SumOfThree(x, x, y, f);
    SumAppend([x, x, y], y, f);
    assert [x, x, y] + [y] == [x, x, y, y];
  }

  lemma {:induction false} EvenTieTotals(t: Thresholds, w: Weights)
    requires w.Valid() && t.go != 0.0
    ensures var votes := TieVotes(t);
            && SelectedCount(votes) == 4.0
            && TotalWeight(votes, Buy, w) == 2.0 * w.Total() && TotalMass(votes, Buy, w) == 2.0 * w.Total()
            && TotalWeight(votes, Sell, w) == 2.0 * w.Total() && TotalMass(votes, Sell, w) == 2.0 * w.Total()
  {
    var x, y := FullVote(Buy, 1.0), FullVote(Sell, 1.0);
    SumOfFour(x, y, v => if Selected(v) then 1.0 else 0.0);
    SumOfFour(x, y, v => WeightOn(v, Buy, w));
    SumOfFour(x, y, v => MassOn(v, Buy, w));
    SumOfFour(x, y, v => WeightOn(v, Sell, w));
    SumOfFour(x, y, v => MassOn(v, Sell, w));
  }

  lemma {:induction false} EvenTieGoesLong(x: real, t: Thresholds)
    requires x > 0.0 && t.Valid() && t.edgeMargin == 0.0 && t.conflictNoTrade > 0.5
    ensures Conclude(4.0, x, x, x, x, t).verdict == GoLong
  {
    assert Mean(x, x) == 1.0;
  }

  lemma {:induction false} EmptyTieGoesLong(x: real, mass: real, t: Thresholds)
    requires x > 0.0 && t.Valid() && t.edgeMargin == 0.0 && t.go == 0.0
    ensures Conclude(3.0, 0.0, x, mass, 0.0, t).verdict == GoLong
    ensures Conclude(3.0, mass, 0.0, 0.0, x, t).verdict == GoLong
  {
    assert Mean(0.0, x) == 0.0;
  }

  lemma {:induction false} UnsafeTieBreaks(w: Weights, t: Thresholds)
    requires w.Valid() && t.Valid() && !TiesAreSafe(t)
    ensures Decide(TieVotes(t), w, t).verdict == GoLong
    ensures Decide(MirrorVotes(TieVotes(t)), w, t).verdict == GoLong
  {
    MirrorTotals(TieVotes(t), w, t);
    if t.go == 0.0 {
      EmptyTieTotals(t, w);
      EmptyTieGoesLong(3.0 * w.Total(), TotalMass(TieVotes(t), Sell, w), t);
    } else {
      EvenTieTotals(t, w);
      EvenTieGoesLong(2.0 * w.Total(), t);
    }
  }

  /** The ensemble is mirror symmetric exactly when ties are safe: a positive edge margin, or a positive go
      threshold together with a conflict limit of at most one half. */
  lemma {:induction false} SymmetricIffTiesAreSafe(w: Weights, t: Thresholds)
    requires w.Valid() && t.Valid()
    ensures Symmetric(w, t) <==> TiesAreSafe(t)
  {
    if TiesAreSafe(t) {
      forall votes
        ensures Decide(MirrorVotes(votes), w, t) == MirrorConsensus(Decide(votes, w, t))
      {
        SafeTiesMirror(votes, w, t);
      }
    } else {
      UnsafeTieBreaks(w, t);
      var votes := TieVotes(t);
      assert Decide(MirrorVotes(votes), w, t) != MirrorConsensus(Decide(votes, w, t));
    }
  }
}
