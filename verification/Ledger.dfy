/** The drawdown ledger: a peak, a daily loss and a losing streak that survive restarts. */
module Ledger {
  import opened Wrappers
  import opened Decimals
  import opened CapitalContracts

  const SECONDS_PER_DAY := 86400

  /** The UTC date of an instant given in seconds. */
  function Day(now: int): int { now / SECONDS_PER_DAY }

  datatype LedgerState = LedgerState(
    peak: Option<real>, dailyLoss: real, dailyKey: Option<int>, streak: int)

  const FRESH := LedgerState(None, 0.0, None, 0)

  datatype Observation = Observation(
    equity: real, peak: real, realizedDay: real, streak: int, now: int)

  function LossOf(o: Observation): real { Abs(Min(o.realizedDay, 0.0)) }

  function HighOf(o: Observation): real { Max(o.peak, o.equity) }

  /** One observation in closed form: maxima, with the daily loss restarted on a new date. */
  function Observe(s: LedgerState, o: Observation): LedgerState
  {
    var carried := if s.dailyKey == None || s.dailyKey == Some(Day(o.now)) then s.dailyLoss else 0.0;
    LedgerState(
      Some(if s.peak.None? then HighOf(o) else Max(s.peak.value, HighOf(o))),
      Max(carried, LossOf(o)),
      Some(Day(o.now)),
      if o.streak > s.streak then o.streak else s.streak)
  }

  function Fold(s: LedgerState, history: seq<Observation>): LedgerState
  {
    if history == [] then s
    else Observe(Fold(s, history[..|history| - 1]), history[|history| - 1])
  }

  lemma {:induction false} FoldAppend(s: LedgerState, history: seq<Observation>, o: Observation)
    ensures Fold(s, history + [o]) == Observe(Fold(s, history), o)
  {
    assert (history + [o])[..|history|] == history;
  }

  /** Seeing the same observation twice is the same as seeing it once. */
  lemma {:induction false} ObserveIdempotent(s: LedgerState, o: Observation)
    ensures Observe(Observe(s, o), o) == Observe(s, o)
  {
  }

  // ---------- what the folded state means ----------

  ghost predicate IsPeakOf(p: real, history: seq<Observation>)
  {
    && (forall i :: 0 <= i < |history| ==> history[i].peak <= p && history[i].equity <= p)
    && (exists i :: 0 <= i < |history| && (history[i].peak == p || history[i].equity == p))
  }

  ghost predicate IsStreakOf(n: int, history: seq<Observation>)
  {
    && n >= 0
    && (forall i :: 0 <= i < |history| ==> history[i].streak <= n)
    && (n > 0 ==> exists i :: 0 <= i < |history| && history[i].streak == n)
  }

  ghost predicate OnDay(o: Observation, day: int) { Day(o.now) == day }

  ghost predicate IsWorstLossOn(loss: real, history: seq<Observation>, day: int)
  {
    && (forall i :: 0 <= i < |history| && OnDay(history[i], day) ==> LossOf(history[i]) <= loss)
    && (exists i :: 0 <= i < |history| && OnDay(history[i], day) && LossOf(history[i]) == loss)
  }

  /** Every observation of the last date comes after every observation of any other date.
      A non-decreasing clock has this property. */
  ghost predicate LastDayContiguous(history: seq<Observation>)
    requires history != []
  {
    var day := Day(history[|history| - 1].now);
    forall i, j :: 0 <= i < j < |history| && OnDay(history[i], day) ==> OnDay(history[j], day)
  }

  ghost predicate ClockMonotone(history: seq<Observation>)
  {
    forall i, j :: 0 <= i < j < |history| ==> history[i].now <= history[j].now
  }

  lemma {:induction false} MonotoneIsContiguous(history: seq<Observation>)
    requires history != [] && ClockMonotone(history)
    ensures LastDayContiguous(history)
  {
    var last := history[|history| - 1];
    forall i, j | 0 <= i < j < |history| && OnDay(history[i], Day(last.now))
      ensures OnDay(history[j], Day(last.now))
    {
      DayMonotone(history[i].now, history[j].now);
      if j < |history| - 1 { DayMonotone(history[j].now, last.now); }
    }
  }

  /** The date of an instant is the day of 86,400 seconds it falls in. */
  lemma {:induction false} DayMeans(now: int)
    ensures Day(now) * 86400 <= now < (Day(now) + 1) * 86400
  {
  }

  /** The loss of an observation is what its realised result is short of zero. */
  lemma {:induction false} LossIsShortfall(o: Observation)
    ensures LossOf(o) == if o.realizedDay < 0.0 then -o.realizedDay else 0.0
  {
  }

  lemma {:induction false} DayMonotone(a: int, b: int)
    requires a <= b
    ensures Day(a) <= Day(b)
  {
  }

  /** Peak and streak are the maxima of the whole history, in any order of arrival. */
  lemma {:induction false} FoldPeakAndStreak(history: seq<Observation>)
    requires history != []
    ensures Fold(FRESH, history).peak.Some?
    ensures IsPeakOf(Fold(FRESH, history).peak.value, history)
    ensures IsStreakOf(Fold(FRESH, history).streak, history)
    ensures Fold(FRESH, history).dailyKey == Some(Day(history[|history| - 1].now))
  {
    var n := |history| - 1;
    var prior, o := history[..n], history[n];
    var before, after := Fold(FRESH, prior), Fold(FRESH, history);
    if prior != [] {
      FoldPeakAndStreak(prior);
      var at :| 0 <= at < n && (prior[at].peak == before.peak.value || prior[at].equity == before.peak.value);
      assert history[at] == prior[at];
      if before.streak > 0 {
        var top :| 0 <= top < n && prior[top].streak == before.streak;
        assert history[top] == prior[top];
      }
    }
    assert history[n] == o;
    forall i | 0 <= i < |history|
      ensures history[i].peak <= after.peak.value && history[i].equity <= after.peak.value
      ensures history[i].streak <= after.streak
    {
      if i < n { assert history[i] == prior[i]; }
    }
  }

  /** The daily loss is the worst loss of the current date whenever that date is not interrupted. */
  lemma {:induction false} FoldDailyLoss(history: seq<Observation>)
    requires history != [] && LastDayContiguous(history)
    ensures IsWorstLossOn(Fold(FRESH, history).dailyLoss, history, Day(history[|history| - 1].now))
  {
    var n := |history| - 1;
    var prior, o := history[..n], history[n];
    var day := Day(o.now);
    assert history[n] == o && OnDay(o, day);
    if prior != [] {
      FoldPeakAndStreak(prior);
      var lastBefore := prior[n - 1];
      assert history[n - 1] == lastBefore;
      if OnDay(lastBefore, day) {
        assert LastDayContiguous(prior) by {
          forall i, j | 0 <= i < j < n && OnDay(prior[i], day)
            ensures OnDay(prior[j], day)
          {
            assert history[i] == prior[i] && history[j] == prior[j];
          }
        }
        FoldDailyLoss(prior);
        var at :| 0 <= at < n && OnDay(prior[at], day) && LossOf(prior[at]) == Fold(FRESH, prior).dailyLoss;
        assert history[at] == prior[at];
      }
      forall i | 0 <= i < n && OnDay(history[i], day)
        ensures LossOf(history[i]) <= Fold(FRESH, history).dailyLoss
      {
        assert history[i] == prior[i];
        assert i == n - 1 || OnDay(history[n - 1], day);
      }
    }
  }

  /** The ledger is a fold of its history under a non-decreasing clock. */
  lemma {:induction false} LedgerIsFold(history: seq<Observation>)
    requires history != [] && ClockMonotone(history)
    ensures var s := Fold(FRESH, history);
            && s.peak.Some?
            && IsPeakOf(s.peak.value, history)
            && IsStreakOf(s.streak, history)
            && IsWorstLossOn(s.dailyLoss, history, Day(history[|history| - 1].now))
  {
    FoldPeakAndStreak(history);
    MonotoneIsContiguous(history);
    FoldDailyLoss(history);
  }

  /** Without that order the loss of a date is forgotten: any observation on another date clears what was
      carried, so a clock that steps over midnight and back starts the date again. */
  lemma {:induction false} DetourForgetsLoss(s: LedgerState, elsewhere: Observation, back: Observation)
    requires Day(elsewhere.now) != Day(back.now)
    ensures Observe(Observe(s, elsewhere), back).dailyLoss == LossOf(back)
  {
  }

  // ---------- which clocks keep the daily loss right ----------

  /** The same instants, whatever was observed at them. */
  ghost predicate SameClock(history: seq<Observation>, other: seq<Observation>)
  {
    |history| == |other| && forall i :: 0 <= i < |history| ==> history[i].now == other[i].now
  }

  /** Whatever is observed at these instants, the daily loss ends as the worst loss of the last date. */
  ghost predicate DailyLossIsWorst(clock: seq<Observation>)
    requires clock != []
  {
    forall history: seq<Observation> :: SameClock(clock, history) ==>
      IsWorstLossOn(Fold(FRESH, history).dailyLoss, history, Day(history[|history| - 1].now))
  }

  /** These instants with a loss of one at instant `at` and nothing anywhere else. */
  function OneLoss(clock: seq<Observation>, at: nat): (history: seq<Observation>)
    ensures |history| == |clock|
  {
    seq(|clock|, i requires 0 <= i < |clock| => Observation(0.0, 0.0, if i == at then -1.0 else 0.0, 0, clock[i].now))
  }

  /** A loss survives only while every later observation stays on its date. */
  lemma {:induction false} LossNeedsItsDate(clock: seq<Observation>, at: nat, k: nat)
    requires at < k <= |clock|
    ensures var day := Day(clock[at].now);
            Fold(FRESH, OneLoss(clock, at)[..k]).dailyLoss == 0.0
            || forall i :: at <= i < k ==> OnDay(clock[i], day)
  {
    var history := OneLoss(clock, at);
    if k > at + 1 {
      LossNeedsItsDate(clock, at, k - 1);
      assert history[..k][..k - 1] == history[..k - 1];
      FoldPeakAndStreak(history[..k - 1]);
      assert history[..k - 1][k - 2].now == clock[k - 2].now;
      FoldedLossNonNegative(history[..k - 1]);
    }
  }

  lemma {:induction false} FoldedLossNonNegative(history: seq<Observation>)
    ensures Fold(FRESH, history).dailyLoss >= 0.0
  {
  }

  /** The daily loss is right for every history on these instants exactly when the last date is not
      interrupted: any interruption forgets a loss observed before it. */
  lemma {:induction false} DailyLossIsWorstIffContiguous(clock: seq<Observation>)
    requires clock != []
    ensures DailyLossIsWorst(clock) <==> LastDayContiguous(clock)
  {
    if LastDayContiguous(clock) {
      forall history: seq<Observation> | SameClock(clock, history)
        ensures IsWorstLossOn(Fold(FRESH, history).dailyLoss, history, Day(history[|history| - 1].now))
      {
        assert LastDayContiguous(history) by { ContiguityIsOfTheClock(clock, history); }
        FoldDailyLoss(history);
      }
    } else {
      var day := Day(clock[|clock| - 1].now);
      var i, j :| 0 <= i < j < |clock| && OnDay(clock[i], day) && !OnDay(clock[j], day);
      var history := OneLoss(clock, i);
      LossNeedsItsDate(clock, i, |clock|);
      assert history[..|clock|] == history;
      assert OnDay(history[i], day) && LossOf(history[i]) == 1.0;
      assert SameClock(clock, history) && !DailyLossIsWorst(clock);
    }
  }

  lemma {:induction false} ContiguityIsOfTheClock(clock: seq<Observation>, history: seq<Observation>)
    requires clock != [] && SameClock(clock, history) && LastDayContiguous(clock)
    ensures LastDayContiguous(history)
  {
    var day := Day(history[|history| - 1].now);
    forall i, j | 0 <= i < j < |history| && OnDay(history[i], day)
      ensures OnDay(history[j], day)
    {
      assert OnDay(clock[i], day);
    }
  }

  // ---------- snapshots and reload ----------

  /** What a snapshot event stores: canonical texts, the date and the streak. */
  datatype Snapshot = Snapshot(peakUnits: int, lossUnits: int, dailyKey: Option<int>, streak: int)

  /** The events the gate reads back: its ledger snapshots and its committed decisions. */
  datatype AuditEvent = SnapshotEvent(snap: Snapshot) | DecisionEvent(key: string, result: Result) | OtherEvent

  function TakeSnapshot(s: LedgerState): Snapshot
    requires s.peak.Some?
  {
    Snapshot(Canonical(s.peak.value), Canonical(s.dailyLoss), s.dailyKey, s.streak)
  }

  function Restore(snap: Snapshot): LedgerState
  {
    LedgerState(Some(Parse(snap.peakUnits)), Parse(snap.lossUnits), snap.dailyKey, snap.streak)
  }

  predicate GridState(s: LedgerState)
  {
    s.peak.Some? && OnGrid(s.peak.value) && OnGrid(s.dailyLoss)
  }

  /** The newest snapshot of a list of events in journal order. */
  function LatestSnapshot(events: seq<AuditEvent>): Option<Snapshot>
  {
    if events == [] then None
    else
      var last := events[|events| - 1];
      if last.SnapshotEvent? then Some(last.snap) else LatestSnapshot(events[..|events| - 1])
  }

  const RELOAD_LIMIT: nat := 10000

  /** What reloading a fresh ledger from a journal yields. */
  function Reloaded(journal: seq<AuditEvent>): LedgerState
  {
    match LatestSnapshot(Limit(journal, RELOAD_LIMIT))
    case None => FRESH
    case Some(snap) => Restore(snap)
  }

  lemma {:induction false} RestoreTakesBack(s: LedgerState)
    requires GridState(s)
    ensures Restore(TakeSnapshot(s)) == s
  {
  }

  class DrawdownLedger {
    var peakEquity: Option<real>
    var dailyLoss: real
    var dailyKey: Option<int>
    var losingStreak: int

    ghost function State(): LedgerState
      reads this
    {
      LedgerState(peakEquity, dailyLoss, dailyKey, losingStreak)
    }

    constructor ()
      ensures State() == FRESH
    {
      peakEquity, dailyLoss, dailyKey, losingStreak := None, 0.0, None, 0;
    }

    /** The field-by-field update, proved equal to the closed form. */
    method ObserveOnce(o: Observation) returns (snap: Snapshot)
      modifies this
      ensures State() == Observe(old(State()), o)
      ensures State().peak.Some? && snap == TakeSnapshot(State())
    {
      var day := Day(o.now);
      if dailyKey == None {
        dailyKey := Some(day);
      } else if dailyKey != Some(day) {
        dailyLoss := 0.0;
        dailyKey := Some(day);
      }
      if peakEquity == None {
        peakEquity := Some(if o.peak > 0.0 then o.peak else o.equity);
      }
      if o.peak > peakEquity.value {
        peakEquity := Some(o.peak);
      }
      if o.equity > peakEquity.value {
        peakEquity := Some(o.equity);
      }
      var loss := Abs(Min(o.realizedDay, 0.0));
      if loss > dailyLoss {
        dailyLoss := loss;
      }
      if o.streak > losingStreak {
        losingStreak := o.streak;
      }
      snap := Snapshot(Canonical(peakEquity.value), Canonical(dailyLoss), dailyKey, losingStreak);
    }

    /** Scan the oldest events and keep the last snapshot seen; no snapshot leaves the state alone. */
    method Reload(journal: seq<AuditEvent>)
      modifies this
      ensures State() == match LatestSnapshot(Limit(journal, RELOAD_LIMIT))
                         case None => old(State())
                         case Some(snap) => Restore(snap)
    {
      var events := Limit(journal, RELOAD_LIMIT);
      var latest: Option<Snapshot> := None;
      for i := 0 to |events|
        invariant latest == LatestSnapshot(events[..i])
        invariant State() == old(State())
      {
        assert events[..i + 1][..i] == events[..i];
        if events[i].SnapshotEvent? {
          latest := Some(events[i].snap);
        }
      }
      assert events[..|events|] == events;
      if latest.Some? {
        var snap := latest.value;
        peakEquity := Some(Parse(snap.peakUnits));
        dailyLoss := Parse(snap.lossUnits);
        dailyKey := snap.dailyKey;
        losingStreak := snap.streak;
      }
    }
  }

  // ---------- restarts ----------

  /** What happens to a ledger backed by a journal: observations that are persisted,
      observations that are not, and events written by others. */
  datatype LedgerStep = Persisted(o: Observation) | Unpersisted(o: Observation) | Foreign

  datatype Backed = Backed(state: LedgerState, journal: seq<AuditEvent>, saved: LedgerState)

  function StepBacked(b: Backed, step: LedgerStep): (r: Backed)
    ensures |b.journal| <= |r.journal| <= |b.journal| + 1
  {
    match step
    case Persisted(o) =>
      var next := Observe(b.state, o);
      Backed(next, b.journal + [SnapshotEvent(TakeSnapshot(next))], next)
    case Unpersisted(o) => b.(state := Observe(b.state, o))
    case Foreign => b.(journal := b.journal + [OtherEvent])
  }

  function RunBacked(steps: seq<LedgerStep>): Backed
  {
    if steps == [] then Backed(FRESH, [], FRESH)
    else StepBacked(RunBacked(steps[..|steps| - 1]), steps[|steps| - 1])
  }

  /** The request contract quantises every amount to eight decimals. */
  predicate GridObservation(o: Observation)
  {
    OnGrid(o.equity) && OnGrid(o.peak) && OnGrid(o.realizedDay)
  }

  predicate GridStep(step: LedgerStep) { step.Foreign? || GridObservation(step.o) }

  lemma {:induction false} ZeroOnGrid()
    ensures OnGrid(0.0)
  {
    HalfEvenOnIntegers(0);
  }

  lemma {:induction false} NegationOnGrid(x: real)
    requires OnGrid(x)
    ensures OnGrid(-x)
  {
    var k := Canonical(x);
    assert -x == Parse(-k);
    ParsedIsOnGrid(-k);
  }

  lemma {:induction false} ObserveKeepsGrid(s: LedgerState, o: Observation)
    requires GridObservation(o)
    requires s.peak.Some? ==> OnGrid(s.peak.value)
    requires OnGrid(s.dailyLoss)
    ensures GridState(Observe(s, o))
  {
    ZeroOnGrid();
    NegationOnGrid(o.realizedDay);
    assert OnGrid(LossOf(o));
  }

  lemma {:induction false} SnapshotTracksSaved(steps: seq<LedgerStep>)
    requires forall i :: 0 <= i < |steps| ==> GridStep(steps[i])
    ensures var b := RunBacked(steps);
            && (b.state.peak.Some? ==> OnGrid(b.state.peak.value))
            && OnGrid(b.state.dailyLoss)
            && (match LatestSnapshot(b.journal)
                case None => b.saved == FRESH
                case Some(snap) => Restore(snap) == b.saved)
  {
    if steps == [] {
      ZeroOnGrid();
    } else {
      var prior, step := steps[..|steps| - 1], steps[|steps| - 1];
      SnapshotTracksSaved(prior);
      var b := RunBacked(prior);
      var next := StepBacked(b, step);
      if !step.Foreign? {
        ObserveKeepsGrid(b.state, step.o);
      }
      if step.Persisted? {
        RestoreTakesBack(next.state);
      }
      assert next.journal != b.journal ==> next.journal[..|b.journal|] == b.journal;
    }
  }

  /** A restart restores exactly the last persisted state while the journal fits the reload window. */
  lemma {:induction false} ReloadRestoresSavedState(steps: seq<LedgerStep>)
    requires forall i :: 0 <= i < |steps| ==> GridStep(steps[i])
    requires |RunBacked(steps).journal| <= RELOAD_LIMIT
    ensures Reloaded(RunBacked(steps).journal) == RunBacked(steps).saved
  {
    SnapshotTracksSaved(steps);
  }

  ghost predicate ReloadFaithfulAt(n: nat)
  {
    forall steps: seq<LedgerStep> ::
      (forall i :: 0 <= i < |steps| ==> GridStep(steps[i])) && |RunBacked(steps).journal| == n ==>
        Reloaded(RunBacked(steps).journal) == RunBacked(steps).saved
  }

  /** Exactly the journals of at most 10,000 events are safe to reload from, because the reload
      window holds the oldest rows rather than the newest. */
  lemma {:induction false} ReloadFaithfulIffWithinWindow(n: nat)
    ensures ReloadFaithfulAt(n) <==> n <= RELOAD_LIMIT
  {
    if n <= RELOAD_LIMIT {
      forall steps: seq<LedgerStep>
        | (forall i :: 0 <= i < |steps| ==> GridStep(steps[i])) && |RunBacked(steps).journal| == n
        ensures Reloaded(RunBacked(steps).journal) == RunBacked(steps).saved
      {
        ReloadRestoresSavedState(steps);
      }
    } else {
      LateSnapshotIsMissed(n - 1);
      assert !ReloadFaithfulAt(n);
    }
  }

  function ForeignRun(k: nat): (steps: seq<LedgerStep>)
    ensures |steps| == k && forall i :: 0 <= i < k ==> steps[i] == Foreign
  {
    seq(k, _ => Foreign)
  }

  lemma {:induction false} ForeignRunJournal(k: nat)
    ensures RunBacked(ForeignRun(k)).state == FRESH && |RunBacked(ForeignRun(k)).journal| == k
    ensures forall i :: 0 <= i < k ==> RunBacked(ForeignRun(k)).journal[i] == OtherEvent
  {
    if k > 0 {
      ForeignRunJournal(k - 1);
      assert ForeignRun(k)[..k - 1] == ForeignRun(k - 1);
    }
  }

  lemma {:induction false} NoSnapshotAmongForeign(events: seq<AuditEvent>)
    requires forall i :: 0 <= i < |events| ==> events[i] == OtherEvent
    ensures LatestSnapshot(events) == None
  {
    if events != [] {
      NoSnapshotAmongForeign(events[..|events| - 1]);
    }
  }

  /** After 10,000 foreign events a first snapshot is out of reach: the restart starts from nothing. */
  lemma {:induction false} LateSnapshotIsMissed(k: nat)
    requires k >= RELOAD_LIMIT
    ensures var steps := ForeignRun(k) + [Persisted(Observation(0.0, 0.0, 0.0, 1, 0))];
            && (forall i :: 0 <= i < |steps| ==> GridStep(steps[i]))
            && |RunBacked(steps).journal| == k + 1
            && Reloaded(RunBacked(steps).journal) == FRESH
            && RunBacked(steps).saved != FRESH
  {
    var o := Observation(0.0, 0.0, 0.0, 1, 0);
    var steps := ForeignRun(k) + [Persisted(o)];
    assert steps[..k] == ForeignRun(k);
    ForeignRunJournal(k);
    ZeroOnGrid();
    var before, after := RunBacked(ForeignRun(k)), RunBacked(steps);
    assert after == StepBacked(before, Persisted(o));
    assert Limit(after.journal, RELOAD_LIMIT) == before.journal[..RELOAD_LIMIT];
    NoSnapshotAmongForeign(before.journal[..RELOAD_LIMIT]);
  }

  // ---------- when a restart loses nothing ----------

  /** The same sequence of persisted, unpersisted and foreign steps, whatever was observed. */
  ghost predicate SameKinds(plan: seq<LedgerStep>, steps: seq<LedgerStep>)
  {
    && |plan| == |steps|
    && forall i :: 0 <= i < |plan| ==>
         plan[i].Persisted? == steps[i].Persisted? && plan[i].Foreign? == steps[i].Foreign?
  }

  /** Whatever is observed at these steps, a restart after them restores the state the ledger held. */
  ghost predicate RestartLosesNothing(plan: seq<LedgerStep>)
  {
    forall steps: seq<LedgerStep> ::
      SameKinds(plan, steps) && (forall i :: 0 <= i < |steps| ==> GridStep(steps[i])) ==>
        Reloaded(RunBacked(steps).journal) == RunBacked(steps).state
  }

  /** The index of the last observation, or -1. */
  function LastObservation(steps: seq<LedgerStep>): (k: int)
    ensures -1 <= k < |steps|
    ensures k >= 0 ==> !steps[k].Foreign?
    ensures forall i :: k < i < |steps| ==> steps[i].Foreign?
  {
    if steps == [] then -1
    else if !steps[|steps| - 1].Foreign? then |steps| - 1
    else LastObservation(steps[..|steps| - 1])
  }

  /** Nothing observed, or the last observation was persisted among the first 10,000 events. */
  predicate LastIsInWindow(plan: seq<LedgerStep>)
  {
    var k := LastObservation(plan);
    k >= 0 ==> plan[k].Persisted? && |RunBacked(plan[..k]).journal| < RELOAD_LIMIT
  }

  lemma {:induction false} KindsDecideLength(plan: seq<LedgerStep>, steps: seq<LedgerStep>, n: nat)
    requires SameKinds(plan, steps) && n <= |plan|
    ensures |RunBacked(plan[..n]).journal| == |RunBacked(steps[..n]).journal|
  {
    if n > 0 {
      KindsDecideLength(plan, steps, n - 1);
      assert plan[..n][..n - 1] == plan[..n - 1] && steps[..n][..n - 1] == steps[..n - 1];
    }
  }

  /** A tail of foreign steps leaves the state alone and adds no snapshot. */
  lemma {:induction false} ForeignTail(steps: seq<LedgerStep>, k: nat)
    requires k <= |steps| && forall i :: k <= i < |steps| ==> steps[i].Foreign?
    ensures var before, after := RunBacked(steps[..k]), RunBacked(steps);
            && after.state == before.state && |after.journal| >= |before.journal|
            && after.journal[..|before.journal|] == before.journal
            && forall i :: |before.journal| <= i < |after.journal| ==> after.journal[i] == OtherEvent
  {
    if k == |steps| {
      assert steps[..k] == steps;
    } else {
      var prior := steps[..|steps| - 1];
      assert prior[..k] == steps[..k];
      ForeignTail(prior, k);
      var j := RunBacked(steps[..k]).journal;
      assert RunBacked(steps).journal[..|j|] == RunBacked(prior).journal[..|j|];
    }
  }

  /** The newest snapshot of a journal is found as soon as the window reaches past it. */
  lemma {:induction false} SnapshotFound(journal: seq<AuditEvent>, at: nat)
    requires at < |journal| && journal[at].SnapshotEvent?
    requires forall i :: at < i < |journal| ==> !journal[i].SnapshotEvent?
    ensures LatestSnapshot(journal) == Some(journal[at].snap)
  {
    if at < |journal| - 1 { SnapshotFound(journal[..|journal| - 1], at); }
  }

  lemma {:induction false} CurrentWhenInWindow(steps: seq<LedgerStep>)
    requires forall i :: 0 <= i < |steps| ==> GridStep(steps[i])
    requires LastIsInWindow(steps)
    ensures Reloaded(RunBacked(steps).journal) == RunBacked(steps).state
  {
    var k, journal := LastObservation(steps), RunBacked(steps).journal;
    ForeignTail(steps, k + 1);
    var window := Limit(journal, RELOAD_LIMIT);
    if k < 0 {
      assert steps[..0] == [];
      NoSnapshotAmongForeign(window);
    } else {
      var before := RunBacked(steps[..k]);
      assert steps[..k + 1][..k] == steps[..k];
      var last := RunBacked(steps[..k + 1]);
      SnapshotTracksSaved(steps[..k]);
      ObserveKeepsGrid(before.state, steps[k].o);
      RestoreTakesBack(last.state);
      assert journal[|before.journal|] == last.journal[|before.journal|];
      SnapshotFound(window, |before.journal|);
    }
  }

  /** These kinds with a streak of one at step `at` and nothing anywhere else. */
  function OneStreak(plan: seq<LedgerStep>, at: int): (steps: seq<LedgerStep>)
    ensures SameKinds(plan, steps)
  {
    seq(|plan|, i requires 0 <= i < |plan| =>
      var o := Observation(0.0, 0.0, 0.0, if i == at then 1 else 0, 0);
      if plan[i].Foreign? then Foreign else if plan[i].Persisted? then Persisted(o) else Unpersisted(o))
  }

  /** Without a streak in any observation there is none in the ledger or in any snapshot. */
  lemma {:induction false} NoStreakAnywhere(steps: seq<LedgerStep>)
    requires forall i :: 0 <= i < |steps| ==> steps[i].Foreign? || steps[i].o.streak == 0
    ensures var b := RunBacked(steps);
            && b.state.streak == 0
            && forall i :: 0 <= i < |b.journal| && b.journal[i].SnapshotEvent? ==> b.journal[i].snap.streak == 0
  {
    if steps != [] { NoStreakAnywhere(steps[..|steps| - 1]); }
  }

  lemma {:induction false} NoStreakReloaded(events: seq<AuditEvent>)
    requires forall i :: 0 <= i < |events| && events[i].SnapshotEvent? ==> events[i].snap.streak == 0
    ensures LatestSnapshot(events).Some? ==> LatestSnapshot(events).value.streak == 0
  {
    if events != [] { NoStreakReloaded(events[..|events| - 1]); }
  }

  lemma {:induction false} LostWhenOutside(plan: seq<LedgerStep>)
    requires !LastIsInWindow(plan)
    ensures var steps := OneStreak(plan, LastObservation(plan));
            Reloaded(RunBacked(steps).journal) != RunBacked(steps).state
  {
    var k := LastObservation(plan);
    var steps := OneStreak(plan, k);
    var journal, before, last := RunBacked(steps).journal, RunBacked(steps[..k]), RunBacked(steps[..k + 1]);
    KindsDecideLength(plan, steps, k);
    NoStreakAnywhere(steps[..k]);
    ForeignTail(steps, k + 1);
    assert steps[..k + 1][..k] == steps[..k];
    assert last.state.streak == 1;
    var window := Limit(journal, RELOAD_LIMIT);
    forall i | 0 <= i < |window| && window[i].SnapshotEvent?
      ensures window[i].snap.streak == 0
    {
      assert i < |before.journal| ==> last.journal[i] == before.journal[i];
      assert i < |last.journal| ==> journal[i] == last.journal[i];
    }
    NoStreakReloaded(window);
  }

  /** A restart loses nothing, whatever was observed, exactly when the last observation was persisted among
      the first 10,000 events or there was none. */
  lemma {:induction false} RestartLosesNothingIff(plan: seq<LedgerStep>)
    ensures RestartLosesNothing(plan) <==> LastIsInWindow(plan)
  {
    var k := LastObservation(plan);
    if LastIsInWindow(plan) {
      forall steps: seq<LedgerStep>
        | SameKinds(plan, steps) && (forall i :: 0 <= i < |steps| ==> GridStep(steps[i]))
        ensures Reloaded(RunBacked(steps).journal) == RunBacked(steps).state
      {
        assert LastObservation(steps) == k by { SameLast(plan, steps); }
        if k >= 0 { KindsDecideLength(plan, steps, k); }
        CurrentWhenInWindow(steps);
      }
    } else {
      var steps := OneStreak(plan, k);
      ZeroOnGrid();
      LostWhenOutside(plan);
      assert SameKinds(plan, steps) && forall i :: 0 <= i < |steps| ==> GridStep(steps[i]);
      assert !RestartLosesNothing(plan);
    }
  }

  lemma {:induction false} SameLast(plan: seq<LedgerStep>, steps: seq<LedgerStep>)
    requires SameKinds(plan, steps)
    ensures LastObservation(plan) == LastObservation(steps)
  {
    var j, k := LastObservation(plan), LastObservation(steps);
    assert j >= 0 ==> !steps[j].Foreign?;
    assert k >= 0 ==> !plan[k].Foreign?;
  }
}
