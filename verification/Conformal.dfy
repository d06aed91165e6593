/** The conformal coverage tracker: forecasts wait for their horizon bar and are then scored once. */
module Conformal {
  import opened Wrappers
  import opened Decimals
  import opened Envelope
  import opened WalkForward

  datatype Pending = Pending(
    id: nat, symbol: string, lastOpen: int, horizonBars: int, barSeconds: int,
    q05: real, q25: real, q75: real, q95: real)

  datatype Score = Score(id: nat, inside90: bool, inside50: bool, close: real, openTime: int)

  /** The open time of the bar that decides a forecast. */
  function Target(f: Pending): int { f.lastOpen + f.barSeconds * f.horizonBars }

  /** `{b.open_time: b for b in bars}[t]`: the last bar with that open time. */
  function BarAt(bars: seq<Bar>, t: int): Option<Bar>
  {
    if bars == [] then None
    else if bars[|bars| - 1].openTime == t then Some(bars[|bars| - 1])
    else BarAt(bars[..|bars| - 1], t)
  }

  function Deciding(f: Pending, bars: seq<Bar>): Option<Bar>
  {
    match BarAt(bars, Target(f))
    case None => None
    case Some(bar) => if bar.symbol == f.symbol then Some(bar) else None
  }

  function ScoreOf(f: Pending, bar: Bar): Score
  {
    Score(f.id, f.q05 <= bar.close <= f.q95, f.q25 <= bar.close <= f.q75, bar.close, bar.openTime)
  }

  function Still(pending: seq<Pending>, bars: seq<Bar>): seq<Pending>
  {
    if pending == [] then []
    else
      var last := pending[|pending| - 1];
      var before := Still(pending[..|pending| - 1], bars);
      if Deciding(last, bars).None? then before + [last] else before
  }

  function Scored(pending: seq<Pending>, bars: seq<Bar>): seq<Score>
  {
    if pending == [] then []
    else
      var last := pending[|pending| - 1];
      var before := Scored(pending[..|pending| - 1], bars);
      match Deciding(last, bars)
      case None => before
      case Some(bar) => before + [ScoreOf(last, bar)]
  }

  /** How often an id is pending. */
  function PendingCount(pending: seq<Pending>, id: nat): nat
  {
    if pending == [] then 0
    else PendingCount(pending[..|pending| - 1], id) + (if pending[|pending| - 1].id == id then 1 else 0)
  }

  /** How often an id has been scored. */
  function ScoreCount(scores: seq<Score>, id: nat): nat
  {
    if scores == [] then 0
    else ScoreCount(scores[..|scores| - 1], id) + (if scores[|scores| - 1].id == id then 1 else 0)
  }

  lemma {:induction false} PendingCountAppend(pending: seq<Pending>, f: Pending, id: nat)
    ensures PendingCount(pending + [f], id) == PendingCount(pending, id) + (if f.id == id then 1 else 0)
  {
    assert (pending + [f])[..|pending|] == pending;
  }

  lemma {:induction false} ScoreCountAppend(scores: seq<Score>, x: Score, id: nat)
    ensures ScoreCount(scores + [x], id) == ScoreCount(scores, id) + (if x.id == id then 1 else 0)
  {
    assert (scores + [x])[..|scores|] == scores;
  }

  lemma {:induction false} ScoreCountConcat(a: seq<Score>, b: seq<Score>, id: nat)
    ensures ScoreCount(a + b, id) == ScoreCount(a, id) + ScoreCount(b, id)
    decreases |b|
  {
    if b == [] {
      assert a + b == a;
    } else {
      var n := |b| - 1;
      ScoreCountConcat(a, b[..n], id);
      ScoreCountAppend(a + b[..n], b[n], id);
      assert a + b == (a + b[..n]) + [b[n]];
    }
  }

  /** Conservation: realising moves forecasts from pending to scored, none lost and none scored twice. */
  lemma {:induction false} RealizeConserves(pending: seq<Pending>, bars: seq<Bar>, id: nat)
    ensures PendingCount(Still(pending, bars), id) + ScoreCount(Scored(pending, bars), id) == PendingCount(pending, id)
    ensures |Still(pending, bars)| + |Scored(pending, bars)| == |pending|
    decreases |pending|
  {
    if pending != [] {
      var n := |pending| - 1;
      RealizeConserves(pending[..n], bars, id);
      var last := pending[n];
      if Deciding(last, bars).Some? {
        ScoreCountAppend(Scored(pending[..n], bars), ScoreOf(last, Deciding(last, bars).value), id);
      } else {
        PendingCountAppend(Still(pending[..n], bars), last, id);
      }
    }
  }

  // ---------- no forecast scored by its own bars ----------

  lemma {:induction false} NoBarAfterLast(bars: seq<Bar>, t: int)
    requires forall i :: 0 <= i < |bars| ==> bars[i].openTime < t
    ensures BarAt(bars, t).None?
    decreases |bars|
  {
    if bars != [] {
      NoBarAfterLast(bars[..|bars| - 1], t);
    }
  }

  /** Registered against the last confirmed bar with a positive horizon, a forecast stays pending when the
      same bars are realised. */
  lemma {:induction false} OwnBarsDoNotDecide(pending: seq<Pending>, f: Pending, bars: seq<Bar>, asOf: int)
    requires Confirmable(bars, asOf) && f.lastOpen == bars[|bars| - 1].openTime
    requires f.horizonBars >= 1 && f.barSeconds >= 1
    ensures Still(pending + [f], bars) == Still(pending, bars) + [f]
    ensures Scored(pending + [f], bars) == Scored(pending, bars)
  {
    assert f.barSeconds * f.horizonBars >= 1;
    forall i | 0 <= i < |bars|
      ensures bars[i].openTime < Target(f)
    {
      if i < |bars| - 1 { OpensIncrease(bars, asOf, i, |bars| - 1); }
    }
    NoBarAfterLast(bars, Target(f));
    assert (pending + [f])[..|pending|] == pending;
  }

  // ---------- which bar decides, and what a score says ----------

  lemma {:induction false} BarAtUnique(bars: seq<Bar>, t: int, i: nat)
    requires i < |bars| && bars[i].openTime == t
    requires forall j :: 0 <= j < |bars| && j != i ==> bars[j].openTime != t
    ensures BarAt(bars, t) == Some(bars[i])
    decreases |bars|
  {
    if i < |bars| - 1 { BarAtUnique(bars[..|bars| - 1], t, i); }
  }

  /** Bars of one symbol, one every `seconds`. */
  ghost predicate Spaced(bars: seq<Bar>, symbol: string, start: int, seconds: int)
  {
    forall i :: 0 <= i < |bars| ==> bars[i].symbol == symbol && bars[i].openTime == start + seconds * i
  }

  lemma {:induction false} LaterSlot(seconds: int, i: int, j: int)
    requires seconds >= 1 && i != j
    ensures seconds * i != seconds * j
  {
    if i < j { assert seconds * j - seconds * i == seconds * (j - i) >= 1; }
    else { assert seconds * i - seconds * j == seconds * (i - j) >= 1; }
  }

  /** On evenly spaced bars the deciding bar is the one `horizonBars` bars after the last bar of the forecast,
      once it is there. */
  lemma {:induction false} DecidedAfterHorizon(f: Pending, bars: seq<Bar>, start: int, k: nat)
    requires f.barSeconds >= 1 && f.horizonBars >= 0 && Spaced(bars, f.symbol, start, f.barSeconds)
    requires f.lastOpen == start + f.barSeconds * k
    ensures Deciding(f, bars) ==
            if k + f.horizonBars < |bars| then Some(bars[k + f.horizonBars]) else None
  {
    var at := k + f.horizonBars;
    assert Target(f) == start + f.barSeconds * at by {
      assert f.barSeconds * at == f.barSeconds * k + f.barSeconds * f.horizonBars;
    }
    forall j | 0 <= j < |bars| && j != at
      ensures bars[j].openTime != Target(f)
    {
      LaterSlot(f.barSeconds, j, at);
    }
    if at < |bars| { BarAtUnique(bars, Target(f), at); } else { NoBarAt(bars, Target(f)); }
  }

  lemma {:induction false} NoBarAt(bars: seq<Bar>, t: int)
    requires forall j :: 0 <= j < |bars| ==> bars[j].openTime != t
    ensures BarAt(bars, t) == None
    decreases |bars|
  {
    if bars != [] { NoBarAt(bars[..|bars| - 1], t); }
  }

  /** A score of a forecast by its deciding bar: inside the wide band, inside the narrow band, close and time. */
  predicate IsScoreOf(x: Score, f: Pending, bar: Bar)
  {
    && x.id == f.id && x.close == bar.close && x.openTime == bar.openTime
    && (x.inside90 <==> f.q05 <= bar.close && bar.close <= f.q95)
    && (x.inside50 <==> f.q25 <= bar.close && bar.close <= f.q75)
  }

  /** Realising scores exactly the decided forecasts, each by its deciding bar, and keeps exactly the others. */
  lemma {:induction false} RealizedMeans(pending: seq<Pending>, bars: seq<Bar>)
    ensures forall x :: x in Scored(pending, bars) ==>
              exists f :: f in pending && Deciding(f, bars).Some? && IsScoreOf(x, f, Deciding(f, bars).value)
    ensures forall f :: f in pending && Deciding(f, bars).Some? ==>
              exists x :: x in Scored(pending, bars) && IsScoreOf(x, f, Deciding(f, bars).value)
    ensures forall f :: f in Still(pending, bars) <==> f in pending && Deciding(f, bars).None?
    decreases |pending|
  {
    if pending != [] {
      var n := |pending| - 1;
      RealizedMeans(pending[..n], bars);
      assert pending == pending[..n] + [pending[n]];
      if Deciding(pending[n], bars).Some? {
        var x := ScoreOf(pending[n], Deciding(pending[n], bars).value);
        assert IsScoreOf(x, pending[n], Deciding(pending[n], bars).value);
        assert Scored(pending, bars) == Scored(pending[..n], bars) + [x];
      }
    }
  }

  // ---------- coverage ----------

  predicate Nested(f: Pending) { f.q05 <= f.q25 && f.q75 <= f.q95 }

  function Hits90(scores: seq<Score>): nat
  {
    if scores == [] then 0
    else Hits90(scores[..|scores| - 1]) + (if scores[|scores| - 1].inside90 then 1 else 0)
  }

  function Hits50(scores: seq<Score>): nat
  {
    if scores == [] then 0
    else Hits50(scores[..|scores| - 1]) + (if scores[|scores| - 1].inside50 then 1 else 0)
  }

  function Coverage90(scores: seq<Score>): Option<real>
  {
    if scores == [] then None else Some(Hits90(scores) as real / |scores| as real)
  }

  function Coverage50(scores: seq<Score>): Option<real>
  {
    if scores == [] then None else Some(Hits50(scores) as real / |scores| as real)
  }

  ghost predicate InnerWithinOuter(scores: seq<Score>)
  {
    forall i :: 0 <= i < |scores| ==> scores[i].inside50 ==> scores[i].inside90
  }

  lemma {:induction false} HitsNested(scores: seq<Score>)
    requires InnerWithinOuter(scores)
    ensures Hits50(scores) <= Hits90(scores) <= |scores|
    decreases |scores|
  {
    if scores != [] {
      HitsNested(scores[..|scores| - 1]);
    }
  }

  /** The inner band never covers more than the outer one, and both are proportions. */
  lemma {:induction false} CoverageNested(scores: seq<Score>)
    requires InnerWithinOuter(scores) && scores != []
    ensures 0.0 <= Coverage50(scores).value <= Coverage90(scores).value <= 1.0
  {
    HitsNested(scores);
    var n := |scores| as real;
    DivMono(Hits50(scores) as real, Hits90(scores) as real, n);
    DivMono(Hits90(scores) as real, n, n);
    DivNonNeg(Hits50(scores) as real, n);
    assert n / n == 1.0;
  }

  function Inside90(scores: seq<Score>): set<nat> { set i: nat | i < |scores| && scores[i].inside90 }

  function Inside50(scores: seq<Score>): set<nat> { set i: nat | i < |scores| && scores[i].inside50 }

  lemma {:induction false} InsideStep(scores: seq<Score>, x: Score)
    ensures Inside90(scores + [x]) == Inside90(scores) + (if x.inside90 then {|scores|} else {})
    ensures Inside50(scores + [x]) == Inside50(scores) + (if x.inside50 then {|scores|} else {})
  {
    var longer := scores + [x];
    assert forall i :: 0 <= i < |scores| ==> longer[i] == scores[i];
  }

  lemma {:induction false} HitsCount(scores: seq<Score>)
    ensures Hits90(scores) == |Inside90(scores)| && Hits50(scores) == |Inside50(scores)|
    decreases |scores|
  {
    if scores != [] {
      var n := |scores| - 1;
      HitsCount(scores[..n]);
      InsideStep(scores[..n], scores[n]);
      assert scores == scores[..n] + [scores[n]];
      assert n !in Inside90(scores[..n]) && n !in Inside50(scores[..n]);
    }
  }

  /** Coverage is the share of the scores that lie inside the band. */
  lemma {:induction false} CoverageIsShare(scores: seq<Score>)
    requires scores != []
    ensures Coverage90(scores).value * |scores| as real == |Inside90(scores)| as real
    ensures Coverage50(scores).value * |scores| as real == |Inside50(scores)| as real
  {
    HitsCount(scores);
    DivMul(Hits90(scores) as real, |scores| as real);
    DivMul(Hits50(scores) as real, |scores| as real);
  }

  lemma {:induction false} ScoredNested(pending: seq<Pending>, bars: seq<Bar>)
    requires forall i :: 0 <= i < |pending| ==> Nested(pending[i])
    ensures InnerWithinOuter(Scored(pending, bars))
    ensures forall i :: 0 <= i < |Still(pending, bars)| ==> Nested(Still(pending, bars)[i])
    decreases |pending|
  {
    if pending != [] {
      ScoredNested(pending[..|pending| - 1], bars);
    }
  }

  // ---------- whole runs ----------

  datatype TrackerOp = RegisterOp(f: Pending) | RealizeOp(bars: seq<Bar>)

  datatype TrackerState = TrackerState(pending: seq<Pending>, scores: seq<Score>)

  function RunTracker(ops: seq<TrackerOp>): TrackerState
  {
    if ops == [] then TrackerState([], [])
    else
      var s := RunTracker(ops[..|ops| - 1]);
      match ops[|ops| - 1]
      case RegisterOp(f) => TrackerState(s.pending + [f], s.scores)
      case RealizeOp(bars) => TrackerState(Still(s.pending, bars), s.scores + Scored(s.pending, bars))
  }

  function Registered(ops: seq<TrackerOp>, id: nat): nat
  {
    if ops == [] then 0
    else
      var last := ops[|ops| - 1];
      Registered(ops[..|ops| - 1], id) + (if last.RegisterOp? && last.f.id == id then 1 else 0)
  }

  /** In every run each id has been registered exactly as often as it is pending plus scored, and when all
      forecasts are nested every score keeps the inner band within the outer one. */
  lemma {:induction false} TrackerRunConserves(ops: seq<TrackerOp>, id: nat)
    ensures var s := RunTracker(ops); PendingCount(s.pending, id) + ScoreCount(s.scores, id) == Registered(ops, id)
    ensures (forall i :: 0 <= i < |ops| && ops[i].RegisterOp? ==> Nested(ops[i].f)) ==>
              InnerWithinOuter(RunTracker(ops).scores)
              && forall i :: 0 <= i < |RunTracker(ops).pending| ==> Nested(RunTracker(ops).pending[i])
    decreases |ops|
  {
    if ops != [] {
      var prior, last := ops[..|ops| - 1], ops[|ops| - 1];
      TrackerRunConserves(prior, id);
      var s := RunTracker(prior);
      if last.RegisterOp? {
        PendingCountAppend(s.pending, last.f, id);
      } else {
        RealizeConserves(s.pending, last.bars, id);
        ScoreCountConcat(s.scores, Scored(s.pending, last.bars), id);
        if forall i :: 0 <= i < |ops| && ops[i].RegisterOp? ==> Nested(ops[i].f) {
          ScoredNested(s.pending, last.bars);
        }
      }
    }
  }

  class ConformalTracker {
    var pending: seq<Pending>
    var scores: seq<Score>

    ghost predicate Valid()
      reads this
    {
      (forall i :: 0 <= i < |pending| ==> Nested(pending[i])) && InnerWithinOuter(scores)
    }

    constructor ()
      ensures Valid() && pending == [] && scores == []
    {
      pending, scores := [], [];
    }

    /** The quantiles of a forecast are ordered by contract. */
    method Register(id: nat, symbol: string, q: QuantileSet, lastOpen: int, horizonBars: int, barSeconds: int)
      requires Valid() && Ordered(q)
      modifies this
      ensures Valid() && scores == old(scores)
      ensures pending == old(pending)
                       + [Pending(id, symbol, lastOpen, horizonBars, barSeconds, q.q05, q.q25, q.q75, q.q95)]
    {
      pending := pending + [Pending(id, symbol, lastOpen, horizonBars, barSeconds, q.q05, q.q25, q.q75, q.q95)];
    }

    /** Score every forecast whose horizon bar is present; every id keeps its total of pending and scored. */
    method Realize(bars: seq<Bar>) returns (realized: nat)
      requires Valid()
      modifies this
      ensures Valid()
      ensures pending == Still(old(pending), bars)
      ensures scores == old(scores) + Scored(old(pending), bars)
      ensures realized == |scores| - |old(scores)|
      ensures Conserved(old(pending), old(scores), pending, scores)
    {
      RealizeKeepsTotals(pending, scores, bars);
      ScoredNested(pending, bars);
      if |bars| == 0 || |pending| == 0 {
        NothingToRealize(pending, bars);
        return 0;
      }
      realized := Sweep(bars);
    }

    method Sweep(bars: seq<Bar>) returns (realized: nat)
      modifies this
      ensures pending == Still(old(pending), bars)
      ensures scores == old(scores) + Scored(old(pending), bars)
      ensures realized == |Scored(old(pending), bars)|
    {
      var still: seq<Pending> := [];
      realized := 0;
      for i := 0 to |pending|
        invariant pending == old(pending)
        invariant still == Still(pending[..i], bars)
        invariant scores == old(scores) + Scored(pending[..i], bars)
        invariant realized == |Scored(pending[..i], bars)|
      {
        assert pending[..i + 1][..i] == pending[..i];
        var bar := BarAt(bars, Target(pending[i]));
        if bar.None? || bar.value.symbol != pending[i].symbol {
          still := still + [pending[i]];
        } else {
          scores := scores + [ScoreOf(pending[i], bar.value)];
          realized := realized + 1;
        }
      }
      assert pending[..|pending|] == pending;
      pending := still;
    }
  }

  /** No id gains or loses: registered equals pending plus scored, id by id and in total. */
  ghost predicate Conserved(p: seq<Pending>, s: seq<Score>, p': seq<Pending>, s': seq<Score>)
  {
    && |p'| + |s'| == |p| + |s|
    && forall id :: PendingCount(p', id) + ScoreCount(s', id) == PendingCount(p, id) + ScoreCount(s, id)
  }

  lemma {:induction false} RealizeKeepsTotals(pending: seq<Pending>, scores: seq<Score>, bars: seq<Bar>)
    ensures Conserved(pending, scores, Still(pending, bars), scores + Scored(pending, bars))
  {
    RealizeConserves(pending, bars, 0);
    forall id
      ensures PendingCount(Still(pending, bars), id) + ScoreCount(scores + Scored(pending, bars), id)
           == PendingCount(pending, id) + ScoreCount(scores, id)
    {
      RealizeConserves(pending, bars, id);
      ScoreCountConcat(scores, Scored(pending, bars), id);
    }
  }

  lemma {:induction false} NothingToRealize(pending: seq<Pending>, bars: seq<Bar>)
    requires pending == [] || bars == []
    ensures Still(pending, bars) == pending && Scored(pending, bars) == []
    decreases |pending|
  {
    if pending != [] {
      NothingToRealize(pending[..|pending| - 1], bars);
      assert pending == pending[..|pending| - 1] + [pending[|pending| - 1]];
    }
  }
}
