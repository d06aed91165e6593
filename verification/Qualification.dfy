/** The candidate qualification state machine and what its runs can reach. */
module Qualification {
  import opened Wrappers
  import opened Decimals
  import opened Confluence

  datatype Name = Neutral | Forming | Qualified | Confirmed | Cooldown | Suppressed | Invalidated | Stale

  datatype Reason =
    | Init | Hold | ContextExpired | ScoreOrVeto | WatchBand | ScoreRising | Persistence | StillForming | Fade
    | ConfirmedBar | HoldQualified | PostConfirmCooldown | ResetAfterSuppress | IllegalBlocked
    | BySuppressor

  datatype Card = Card(score: real, tier: Tier, vetoed: bool)

  datatype Thresholds = Thresholds(watchBelow: real, persistenceBars: int, cooldownBars: int, staleBars: int)

  datatype Candidate = Candidate(
    state: Name, enteredAt: int, count: int, cooldownUntil: Option<int>, staleAfter: Option<int>, reason: Reason)

  /** The declared transition table. */
  function Allowed(from: Name): set<Name>
  {
    match from
    case Neutral => {Forming, Suppressed, Stale}
    case Forming => {Qualified, Suppressed, Stale, Neutral}
    case Qualified => {Confirmed, Suppressed, Stale, Invalidated}
    case Confirmed => {Cooldown, Invalidated, Stale, Suppressed}
    case Cooldown => {Forming, Stale, Neutral}
    case Suppressed => {Forming, Stale, Neutral}
    case Invalidated => {Neutral, Stale}
    case Stale => {Neutral, Forming}
  }

  /** One scan: a score card, a time, and whether the context had expired. */
  datatype Scan = Scan(card: Card, asOf: int, stale: bool)

  /** A scan that neither expires nor suppresses. */
  predicate Unsuppressed(scan: Scan) { !scan.stale && !scan.card.vetoed && scan.card.tier != Suppress }

  datatype Move = Move(to: Name, reason: Reason, count: int)

  /** The move a scan asks for, before the table is consulted. */
  function Wanted(c: Candidate, scan: Scan, t: Thresholds): Move
  {
    var rising := scan.card.score >= t.watchBelow;
    if scan.stale then Move(Stale, ContextExpired, 0)
    else if scan.card.vetoed || scan.card.tier == Suppress then Move(Suppressed, ScoreOrVeto, 0)
    else
      match c.state
      case Neutral =>
        if scan.card.tier == Watch then Move(Forming, WatchBand, 1)
        else if rising then Move(Forming, ScoreRising, 1)
        else Move(Neutral, Hold, c.count + 1)
      case Forming =>
        if !rising then Move(Neutral, Fade, 0)
        else if c.count + 1 >= t.persistenceBars then Move(Qualified, Persistence, c.count + 1)
        else Move(Forming, StillForming, c.count + 1)
      case Qualified =>
        if scan.card.tier in {High, Top} && c.count + 1 >= t.persistenceBars then
          Move(Confirmed, ConfirmedBar, c.count + 1)
        else Move(Qualified, HoldQualified, c.count + 1)
      case Confirmed => Move(Cooldown, PostConfirmCooldown, 0)
      case Suppressed =>
        if scan.card.tier == Watch then Move(Forming, ResetAfterSuppress, 1) else Move(Suppressed, Hold, c.count + 1)
      case _ => Move(c.state, Hold, c.count + 1)
  }

  function AtLeastOne(n: int): int { if n >= 1 then n else 1 }

  const HOUR := 3600

  function Next(c: Candidate, scan: Scan, t: Thresholds): Candidate
  {
    var wanted := Wanted(c, scan, t);
    var legal := wanted.to == c.state || wanted.to in Allowed(c.state);
    var to := if legal then wanted.to else c.state;
    Candidate(
      to, if to == c.state then c.enteredAt else scan.asOf, wanted.count,
      if to == Cooldown then Some(scan.asOf + HOUR * AtLeastOne(t.cooldownBars)) else None,
      Some(scan.asOf + HOUR * AtLeastOne(t.staleBars)),
      if legal then wanted.reason else IllegalBlocked)
  }

  function Initial(asOf: int): Candidate { Candidate(Neutral, asOf, 0, None, None, Init) }

  /** The branch-by-branch transition over the locals `to`, `reason` and `persist`. */
  method Transition(c: Candidate, scan: Scan, t: Thresholds) returns (next: Candidate)
    ensures next == Next(c, scan, t)
  {
    var to, reason, persist := c.state, Hold, c.count;
    if scan.stale {
      to, reason, persist := Stale, ContextExpired, 0;
    } else if scan.card.vetoed || scan.card.tier == Suppress {
      to, reason, persist := Suppressed, ScoreOrVeto, 0;
    } else if c.state == Neutral {
      if scan.card.tier == Watch {
        to, reason, persist := Forming, WatchBand, 1;
      } else if scan.card.score >= t.watchBelow {
        to, reason, persist := Forming, ScoreRising, 1;
      }
    } else if c.state == Forming {
      if scan.card.score >= t.watchBelow {
        persist := c.count + 1;
        if persist >= t.persistenceBars {
          to, reason := Qualified, Persistence;
        } else {
          to, reason := Forming, StillForming;
        }
      } else {
        to, reason, persist := Neutral, Fade, 0;
      }
    } else if c.state == Qualified {
      persist := c.count + 1;
      if scan.card.tier in {High, Top} && persist >= t.persistenceBars {
        to, reason := Confirmed, ConfirmedBar;
      } else {
        to, reason := Qualified, HoldQualified;
      }
    } else if c.state == Confirmed {
      to, reason, persist := Cooldown, PostConfirmCooldown, 0;
    } else if c.state == Suppressed {
      if scan.card.tier == Watch && !scan.card.vetoed {
        to, reason, persist := Forming, ResetAfterSuppress, 1;
      }
    }
    if to == c.state && reason == Hold {
      persist := c.count + 1;
    }
    if to !in Allowed(c.state) && to != c.state {
      to, reason := c.state, IllegalBlocked;
    }
    var cooldown := None;
    if to == Cooldown {
      cooldown := Some(scan.asOf + HOUR * AtLeastOne(t.cooldownBars));
    }
    next := Candidate(to, if to != c.state then scan.asOf else c.enteredAt, persist, cooldown,
                      Some(scan.asOf + HOUR * AtLeastOne(t.staleBars)), reason);
  }

  /** The three times of a candidate: entered when its state last changed, cooling for at least an hour after
      a confirmation, stale at least an hour after its last scan. */
  lemma {:induction false} TimesMean(c: Candidate, scan: Scan, t: Thresholds)
    ensures var next := Next(c, scan, t);
            && next.enteredAt == (if next.state == c.state then c.enteredAt else scan.asOf)
            && (next.cooldownUntil.Some? <==> next.state == Cooldown)
            && (next.state == Cooldown ==>
                  next.cooldownUntil.value == scan.asOf + 3600 * (if t.cooldownBars > 1 then t.cooldownBars else 1))
            && next.staleAfter == Some(scan.asOf + 3600 * (if t.staleBars > 1 then t.staleBars else 1))
  {
  }

  // ---------- the graph that scans can walk ----------

  /** The moves that scans make. It is smaller than the declared table: cooldown leads only to stale, stale
      leads nowhere, and nothing leads to invalidated. */
  function Walkable(from: Name): set<Name>
  {
    match from
    case Neutral => {Neutral, Forming, Suppressed, Stale}
    case Forming => {Neutral, Forming, Qualified, Suppressed, Stale}
    case Qualified => {Qualified, Confirmed, Suppressed, Stale}
    case Confirmed => {Cooldown, Suppressed, Stale}
    case Cooldown => {Cooldown, Stale}
    case Suppressed => {Suppressed, Forming, Stale}
    case Invalidated => {Invalidated, Stale}
    case Stale => {Stale}
  }

  lemma {:induction false} EveryMoveIsWalkableAndLegal(c: Candidate, scan: Scan, t: Thresholds)
    ensures Next(c, scan, t).state in Walkable(c.state)
    ensures Next(c, scan, t).state == c.state || Next(c, scan, t).state in Allowed(c.state)
  {
  }

  function CardFor(score: real, vetoed: bool): Card { Card(score, TierFor(score), vetoed) }

  // ---------- runs ----------

  function Run(scans: seq<Scan>, t: Thresholds, asOf: int): Candidate
  {
    if scans == [] then Initial(asOf)
    else Next(Run(scans[..|scans| - 1], t, asOf), scans[|scans| - 1], t)
  }

  /** The last `n` scans were all unsuppressed, and all but the first of them at or above the watch score. */
  ghost predicate Streak(scans: seq<Scan>, n: int, watchBelow: real)
  {
    && 0 <= n <= |scans|
    && (forall i :: |scans| - n <= i < |scans| ==> Unsuppressed(scans[i]))
    && (forall i :: |scans| - n < i < |scans| ==> scans[i].card.score >= watchBelow)
  }

  lemma {:induction false} StreakGrows(scans: seq<Scan>, scan: Scan, n: int, watchBelow: real)
    requires Streak(scans, n, watchBelow) && n >= 1 && Unsuppressed(scan) && scan.card.score >= watchBelow
    ensures Streak(scans + [scan], n + 1, watchBelow)
  {
  }

  /** What holds after every run from the initial state. */
  lemma {:induction false} RunInvariant(scans: seq<Scan>, t: Thresholds, asOf: int)
    ensures var c := Run(scans, t, asOf);
            && c.state != Invalidated
            && c.count >= 0
            && (c.state == Forming ==> c.count >= 1 && Streak(scans, c.count, t.watchBelow))
            && (c.state == Qualified ==> c.count >= t.persistenceBars && c.count >= 2)
    decreases |scans|
  {
    if scans != [] {
      var prior, scan := scans[..|scans| - 1], scans[|scans| - 1];
      RunInvariant(prior, t, asOf);
      var before := Run(prior, t, asOf);
      assert scans == prior + [scan];
      if before.state == Forming && Run(scans, t, asOf).state == Forming {
        StreakGrows(prior, scan, before.count, t.watchBelow);
      }
    }
  }

  /** QUALIFIED is entered only from FORMING, after at least max(2, persistence_bars) consecutive
      unsuppressed scans, all but the first of them at or above the watch score. */
  lemma {:induction false} QualifiedEntry(scans: seq<Scan>, t: Thresholds, asOf: int)
    requires scans != []
    requires Run(scans, t, asOf).state == Qualified && Run(scans[..|scans| - 1], t, asOf).state != Qualified
    ensures Run(scans[..|scans| - 1], t, asOf).state == Forming
    ensures var n := Run(scans, t, asOf).count; n >= 2 && n >= t.persistenceBars && Streak(scans, n, t.watchBelow)
  {
    var prior, scan := scans[..|scans| - 1], scans[|scans| - 1];
    RunInvariant(prior, t, asOf);
    assert scans == prior + [scan];
    StreakGrows(prior, scan, Run(prior, t, asOf).count, t.watchBelow);
  }

  /** CONFIRMED never lasts two scans. */
  lemma {:induction false} ConfirmedIsBrief(c: Candidate, scan: Scan, t: Thresholds)
    requires c.state == Confirmed
    ensures Next(c, scan, t).state in {Cooldown, Suppressed, Stale}
  {
  }

  /** Once STALE, stale for ever; once COOLDOWN, cooldown until stale. The table lists exits that no scan takes. */
  lemma {:induction false} StaleAndCooldownAreTraps(scans: seq<Scan>, more: seq<Scan>, t: Thresholds, asOf: int)
    ensures Run(scans, t, asOf).state == Stale ==> Run(scans + more, t, asOf).state == Stale
    ensures Run(scans, t, asOf).state == Cooldown ==> Run(scans + more, t, asOf).state in {Cooldown, Stale}
    decreases |more|
  {
    if more == [] {
      assert scans + more == scans;
    } else {
      var n := |more| - 1;
      StaleAndCooldownAreTraps(scans, more[..n], t, asOf);
      assert (scans + more)[..|scans| + n] == scans + more[..n];
      assert (scans + more)[|scans| + n] == more[n];
    }
  }

  // ---------- the walkable graph is exact ----------

  /** The bounds of the configuration schema. */
  predicate ValidThresholds(t: Thresholds)
  {
    && 0.0 <= t.watchBelow <= 100.0 && 1 <= t.persistenceBars <= 50
    && 0 <= t.cooldownBars <= 200 && 1 <= t.staleBars <= 50
  }

  function CardOf(f: Features, held: Regime, w: Weights): Card
  {
    CardFor(FinalScore(w, EvidenceOf(f), held, Vetoed(f, held)), Vetoed(f, held))
  }

  /** The scanner's staleness rule: past the deadline the last transition set. */
  predicate Expired(c: Candidate, asOf: int) { c.staleAfter.Some? && asOf >= c.staleAfter.value }

  /** What the scanner takes of one symbol at one time. */
  datatype Reading = Reading(f: Features, asOf: int)

  function HourOf(asOf: int): int { asOf / HOUR % 24 }

  /** Saturday or Sunday; day zero of the epoch was a Thursday. */
  predicate WeekendAt(asOf: int) { (asOf / (24 * HOUR) + 3) % 7 >= 5 }

  ghost predicate RealReading(r: Reading)
  {
    FeaturesInRange(r.f) && r.f.hour == HourOf(r.asOf) && r.f.weekend == WeekendAt(r.asOf)
  }

  function Incoming(f: Features): Regime
  {
    if f.bars < 16 then Untradeable else Classify(f.atrPct, Abs(f.trend), Abs(f.roc)).0
  }

  /** The regime held against the incoming one, and for how long: a new regime waits out two scans unless it
      is confident, and an untradeable one never waits. */
  function Persist(previous: Option<Regime>, f: Features, seen: nat): (Regime, nat)
  {
    var incoming := Incoming(f);
    if previous == None || previous == Some(incoming) then (incoming, seen + 1)
    else if incoming == Untradeable then (incoming, 1)
    else if seen < 2 && Confidence(f.bars, f.atrPct, Abs(f.trend), Abs(f.roc)) < 0.75 then (previous.value, seen + 1)
    else (incoming, 1)
  }

  /** When the held regime changes: to an untradeable one at once, to another one after two scans or with
      confidence of at least three quarters; fewer than sixteen bars are untradeable. */
  lemma {:induction false} PersistMeans(previous: Option<Regime>, f: Features, seen: nat)
    ensures var (held, count), incoming := Persist(previous, f, seen), Incoming(f);
            var confident := Confidence(f.bars, f.atrPct, Abs(f.trend), Abs(f.roc)) >= 0.75;
            && (f.bars <= 15 <==> incoming == Untradeable)
            && (previous == None ==> held == incoming)
            && (held == incoming <==>
                  previous == None || previous == Some(incoming) || incoming == Untradeable || seen >= 2 || confident)
            && (held != incoming ==> Some(held) == previous)
            && count == (if previous != None && Some(held) != previous then 1 else seen + 1)
  {
  }

  /** Day zero was a Thursday, so days two and three of every seven are the weekend. */
  lemma {:induction false} WeekendMeans(asOf: int)
    ensures WeekendAt(asOf) <==> asOf / 86400 % 7 == 2 || asOf / 86400 % 7 == 3
  {
  }

  /** Hours count from midnight. */
  lemma {:induction false} HourMeans(day: int, seconds: int)
    requires 0 <= seconds < 86400
    ensures HourOf(day * 86400 + seconds) == seconds / 3600
  {
    assert day * 86400 + seconds == 3600 * (24 * day + seconds / 3600) + seconds % 3600;
    assert (day * 86400 + seconds) / 3600 == 24 * day + seconds / 3600;
    assert 0 <= seconds / 3600 < 24;
  }

  /** What the scanner keeps of one symbol. */
  datatype Tracked = Tracked(candidate: Candidate, regime: Option<Regime>, seen: nat)

  function TrackOne(x: Tracked, r: Reading, t: Thresholds, w: Weights): Tracked
  {
    var (held, seen) := Persist(x.regime, r.f, x.seen);
    var scan := Scan(CardOf(r.f, held, w), r.asOf, Expired(x.candidate, r.asOf));
    Tracked(Next(x.candidate, scan, t), Some(held), seen)
  }

  /** The scanner over a series of readings; the candidate starts at the first of them. */
  function Track(readings: seq<Reading>, t: Thresholds, w: Weights): Tracked
  {
    if readings == [] then Tracked(Initial(0), None, 0)
    else
      var n := |readings| - 1;
      TrackOne(if n == 0 then Tracked(Initial(readings[0].asOf), None, 0) else Track(readings[..n], t, w),
               readings[n], t, w)
  }

  /** Readings the scanner can take of one symbol: real ones, each later than the one before. */
  ghost predicate RealReadings(readings: seq<Reading>)
  {
    forall i :: 0 <= i < |readings| ==>
      RealReading(readings[i]) && (i > 0 ==> readings[i - 1].asOf < readings[i].asOf)
  }

  /** Some series of real readings, under some admissible configuration, makes the move. */
  ghost predicate Occurs(from: Name, to: Name)
  {
    exists t, w, readings, next :: OccursBy(from, to, t, w, readings, next)
  }

  ghost predicate OccursBy(from: Name, to: Name, t: Thresholds, w: Weights, readings: seq<Reading>, next: Reading)
  {
    && ValidThresholds(t) && w.InRange()
    && RealReadings(readings + [next])
    && StateAfter(readings, t, w) == from && StateAfter(readings + [next], t, w) == to
  }

  lemma {:induction false} TrackStep(readings: seq<Reading>, next: Reading, t: Thresholds, w: Weights)
    ensures Track(readings + [next], t, w) ==
            TrackOne(if readings == [] then Tracked(Initial(next.asOf), None, 0) else Track(readings, t, w), next, t, w)
  {
    assert (readings + [next])[..|readings|] == readings;
  }

  /** The state after a series of readings. */
  function StateAfter(readings: seq<Reading>, t: Thresholds, w: Weights): Name { Track(readings, t, w).candidate.state }

  lemma {:induction false} WalkableKeepsValid(from: Name, to: Name)
    requires from != Invalidated && to in Walkable(from)
    ensures to != Invalidated
  {
  }

  lemma {:induction false} StepKeepsValid(readings: seq<Reading>, n: nat, t: Thresholds, w: Weights)
    requires n < |readings| && StateAfter(readings[..n], t, w) != Invalidated
    ensures StateAfter(readings[..n + 1], t, w) != Invalidated
  {
    assert readings[..n + 1] == readings[..n] + [readings[n]];
    MovesAreWalkable(readings[..n], readings[n], t, w);
    WalkableKeepsValid(StateAfter(readings[..n], t, w), StateAfter(readings[..n + 1], t, w));
  }

  lemma {:induction false} NeverInvalidated(readings: seq<Reading>, n: nat, t: Thresholds, w: Weights)
    requires n <= |readings|
    ensures StateAfter(readings[..n], t, w) != Invalidated
  {
    if n > 0 {
      NeverInvalidated(readings, n - 1, t, w);
      StepKeepsValid(readings, n - 1, t, w);
    }
  }

  lemma {:induction false} MovesAreWalkable(readings: seq<Reading>, next: Reading, t: Thresholds, w: Weights)
    ensures StateAfter(readings + [next], t, w) in Walkable(StateAfter(readings, t, w))
  {
    TrackStep(readings, next, t, w);
    var c := if readings == [] then Initial(next.asOf) else Track(readings, t, w).candidate;
    var x := if readings == [] then Tracked(c, None, 0) else Track(readings, t, w);
    var held := Persist(x.regime, next.f, x.seen).0;
    EveryMoveIsWalkableAndLegal(c, Scan(CardOf(next.f, held, w), next.asOf, Expired(c, next.asOf)), t);
  }

  // ---------- a reading for every tier ----------

  /** Weights under which the engines reach every tier but the top one. */
  const STRONG_WEIGHTS := Weights(2.0, 1.0, 1.0, 1.0, 2.0, 2.0)

  datatype Level = Veto | Low | Middle | Strong

  /** A mild upward trend at 13 o'clock; the other time frames lean against it, with it, or strongly with it. */
  function FeaturesAt(level: Level): Features
  {
    var trend := match level case Middle => 0.0075 case Strong => 0.025 case _ => -0.0005;
    Features(64, 1.0, 0.004, 0.0025, if level == Strong then 0.0125 else 0.001, 0.5,
             [Frame(0.2, trend, 0.004), Frame(0.3, trend, 0.004)],
             false, false, false, false, 13, false, level != Veto)
  }

  /** The cards of the four levels: vetoed, watch, eligible, high. */
  function CardAt(level: Level): Card
  {
    match level
    case Veto => Card(39.0, Suppress, true)
    case Low => Card(51.5, Watch, false)
    case Middle => Card(65.1, Eligible, false)
    case Strong => Card(75.5, High, false)
  }

  function BiasAt(level: Level): real { match level case Middle => 60.0 case Strong => 77.5 case _ => 52.0 }

  lemma {:induction false} LeanAt(trend: real)
    requires trend in {0.0025, -0.0005, 0.0075, 0.025}
    ensures var lean := if trend == 0.0025 then 5.0 else if trend == -0.0005 then -1.0
                        else if trend == 0.0075 then 15.0 else 50.0;
            forall weight :: Lean(Frame(weight, trend, 0.004)) == lean
  {
  }

  lemma {:induction false} BiasOfLevel(level: Level)
    ensures FeaturesInRange(FeaturesAt(level))
    ensures var frames := Frames(FeaturesAt(level));
            Bias(frames, LongLean) == BiasAt(level) && Bias(frames, ShortLean) == 100.0 - BiasAt(level)
  {
    var f := FeaturesAt(level);
    var a, b, c := Frame(0.5, 0.0025, 0.004), f.others[0], f.others[1];
    assert Frames(f) == [a, b, c];
    LeanAt(0.0025);
    LeanAt(b.trend);
    DefaultBias(a, b, c, LongLean);
    DefaultBias(a, b, c, ShortLean);
  }

  lemma {:induction false} PartsAt(level: Level)
    ensures var w, e := STRONG_WEIGHTS, EvidenceOf(FeaturesAt(level));
            && RegimePart(w, e) == 20.0 && VolatilityPart(w, e) == 10.0 && SessionPart(w, e) == 10.0
            && StructurePart(w, e) == 5.0 && MomentumPart(w, e) == (if level == Strong then 15.0 else 8.1)
  {
    var w, e := STRONG_WEIGHTS, EvidenceOf(FeaturesAt(level));
    assert e.regimeConfidence == 0.75 && e.volatilityScore == 68.0 && e.sessionScore == 85.0;
    assert e.structureQuality == 30.0;
    assert e.longMomentum == (if level == Strong then 100.0 else 54.0) && e.shortMomentum <= 50.0;
  }

  lemma {:induction false} BiasPartAt(level: Level)
    ensures var w, e := STRONG_WEIGHTS, EvidenceOf(FeaturesAt(level));
            && BiasPart(w, e) == 0.2 * BiasAt(level)
            && ConflictPenalty(e.netBias) == (if level in {Middle, Strong} then 0.0 else 12.0)
  {
    BiasOfLevel(level);
  }

  lemma {:induction false} CombinedAt(level: Level)
    ensures Combined(20.0, 0.2 * BiasAt(level), 5.0, if level == Strong then 15.0 else 8.1, 10.0, 10.0,
                     if level in {Middle, Strong} then 0.0 else 12.0)
         == if level == Veto then 51.5 else CardAt(level).score
  {
  }

  lemma {:induction false} ScoreAt(level: Level, vetoed: bool)
    ensures FinalScore(STRONG_WEIGHTS, EvidenceOf(FeaturesAt(level)), Trending, vetoed) ==
            var score := if level == Veto then 51.5 else CardAt(level).score;
            if vetoed then Min(score, 39.0) else score
  {
    PartsAt(level);
    BiasPartAt(level);
    CombinedAt(level);
    assert RegimePenalty(Trending) == 0.0;
  }

  lemma {:induction false} LevelVetoed(level: Level)
    ensures Vetoed(FeaturesAt(level), Trending) <==> level == Veto
    ensures Incoming(FeaturesAt(level)) == Trending
  {
  }

  lemma {:induction false} LevelCard(level: Level)
    ensures CardOf(FeaturesAt(level), Trending, STRONG_WEIGHTS) == CardAt(level)
  {
    LevelVetoed(level);
    ScoreAt(level, level == Veto);
  }

  // ---------- a path to every state ----------

  /** 13 o'clock on the Thursday and the Friday the epoch begins with. */
  const START := 13 * HOUR
  const LATE := 37 * HOUR

  predicate Slot(asOf: int) { START <= asOf < START + 60 || LATE <= asOf < LATE + 60 }

  lemma {:induction false} SlotIsOpen(asOf: int)
    requires Slot(asOf)
    ensures HourOf(asOf) == 13 && !WeekendAt(asOf)
  {
  }

  function ReadingAt(level: Level, asOf: int): Reading { Reading(FeaturesAt(level), asOf) }

  lemma {:induction false} ReadingIsReal(level: Level, asOf: int)
    requires Slot(asOf)
    ensures RealReading(ReadingAt(level, asOf))
  {
    SlotIsOpen(asOf);
    BiasOfLevel(level);
  }

  /** The candidate that a state and a count stand for, as far as the next move goes. */
  function After(state: Name, count: int, level: Level, asOf: int, stale: bool, t: Thresholds): Candidate
  {
    Next(Candidate(state, 0, count, None, None, Init), Scan(CardAt(level), asOf, stale), t)
  }

  lemma {:induction false} NextByStateAndCount(c: Candidate, d: Candidate, scan: Scan, t: Thresholds)
    requires c.state == d.state && c.count == d.count && t.staleBars == 3
    ensures Next(c, scan, t).state == Next(d, scan, t).state && Next(c, scan, t).count == Next(d, scan, t).count
    ensures Next(c, scan, t).staleAfter == Some(scan.asOf + 3 * HOUR)
  {
  }

  /** What one reading of a level does to a symbol whose regime, if known, is trending. */
  lemma {:induction false} TrackLevel(x: Tracked, level: Level, asOf: int, t: Thresholds)
    requires (x.regime == None || x.regime == Some(Trending)) && t.staleBars == 3
    ensures var y := TrackOne(x, ReadingAt(level, asOf), t, STRONG_WEIGHTS);
            var next := After(x.candidate.state, x.candidate.count, level, asOf, Expired(x.candidate, asOf), t);
            && y.regime == Some(Trending)
            && y.candidate.state == next.state && y.candidate.count == next.count
            && y.candidate.staleAfter == Some(asOf + 3 * HOUR)
  {
    LevelVetoed(level);
    LevelCard(level);
    NextByStateAndCount(x.candidate, Candidate(x.candidate.state, 0, x.candidate.count, None, None, Init),
                        Scan(CardAt(level), asOf, Expired(x.candidate, asOf)), t);
  }

  /** Real readings that end in this state and count at time `asOf`, three hours before their deadline. */
  ghost predicate EndsAt(readings: seq<Reading>, t: Thresholds, state: Name, count: int, asOf: int)
  {
    && readings != [] && RealReadings(readings) && readings[|readings| - 1].asOf == asOf
    && TrackedAs(Track(readings, t, STRONG_WEIGHTS), state, count, asOf)
  }

  predicate TrackedAs(x: Tracked, state: Name, count: int, asOf: int)
  {
    && x.candidate.state == state && x.candidate.count == count
    && x.candidate.staleAfter == Some(asOf + 3 * HOUR) && x.regime == Some(Trending)
  }

  ghost predicate Reached(t: Thresholds, state: Name, count: int, asOf: int)
  {
    exists readings :: EndsAt(readings, t, state, count, asOf)
  }

  /** The move a reading of a level makes at a time. */
  predicate Leads(t: Thresholds, state: Name, count: int, level: Level, stale: bool, to: Name, left: int)
  {
    After(state, count, level, 0, stale, t).state == to && After(state, count, level, 0, stale, t).count == left
  }

  lemma {:induction false} AfterIgnoresTime(
    t: Thresholds, state: Name, count: int, level: Level, asOf: int, stale: bool)
    ensures var x, y := After(state, count, level, 0, stale, t), After(state, count, level, asOf, stale, t);
            x.state == y.state && x.count == y.count
  {
  }

  lemma {:induction false} ReadingsExtend(readings: seq<Reading>, next: Reading)
    requires RealReadings(readings) && RealReading(next)
    requires readings != [] ==> readings[|readings| - 1].asOf < next.asOf
    ensures RealReadings(readings + [next])
  {
  }

  lemma {:induction false} FirstStep(t: Thresholds, level: Level, to: Name, left: int)
    requires t.staleBars == 3 && Leads(t, Neutral, 0, level, false, to, left)
    ensures Reached(t, to, left, START)
  {
    var next := ReadingAt(level, START);
    ReadingIsReal(level, START);
    ReadingsExtend([], next);
    TrackStep([], next, t, STRONG_WEIGHTS);
    TrackLevel(Tracked(Initial(START), None, 0), level, START, t);
    AfterIgnoresTime(t, Neutral, 0, level, START, false);
    assert EndsAt([] + [next], t, to, left, START);
  }

  lemma {:induction false} StepFrom(
    readings: seq<Reading>, t: Thresholds, state: Name, count: int, asOf: int,
    level: Level, now: int, to: Name, left: int)
    requires EndsAt(readings, t, state, count, asOf) && t.staleBars == 3 && Slot(now) && asOf < now
    requires Leads(t, state, count, level, now >= asOf + 3 * HOUR, to, left)
    ensures EndsAt(readings + [ReadingAt(level, now)], t, to, left, now)
  {
    var next, x := ReadingAt(level, now), Track(readings, t, STRONG_WEIGHTS);
    ReadingIsReal(level, now);
    ReadingsExtend(readings, next);
    TrackStep(readings, next, t, STRONG_WEIGHTS);
    TrackLevel(x, level, now, t);
    AfterIgnoresTime(t, state, count, level, now, now >= asOf + 3 * HOUR);
  }

  lemma {:induction false} NextStep(
    t: Thresholds, state: Name, count: int, asOf: int, level: Level, now: int, to: Name, left: int)
    requires Reached(t, state, count, asOf) && t.staleBars == 3 && Slot(now) && asOf < now
    requires Leads(t, state, count, level, now >= asOf + 3 * HOUR, to, left)
    ensures Reached(t, to, left, now)
  {
    var readings :| EndsAt(readings, t, state, count, asOf);
    StepFrom(readings, t, state, count, asOf, level, now, to, left);
  }

  /** The default thresholds, with a higher watch score to hold a neutral candidate and a longer
      persistence to hold a forming one. */
  function ThresholdsFor(from: Name, to: Name): Thresholds
  {
    Thresholds(if from == Neutral then 70.0 else 60.0, if from == Forming && to == Forming then 3 else 2, 4, 3)
  }

  /** When, and with which count, each state is reached below. */
  function TimeAt(state: Name): int
  {
    match state
    case Qualified => START + 1
    case Confirmed => START + 2
    case Cooldown => START + 3
    case Stale => LATE
    case _ => START
  }

  function CountAt(state: Name): int
  {
    match state
    case Neutral => 1
    case Forming => 1
    case Qualified => 2
    case Confirmed => 3
    case _ => 0
  }

  predicate Usual(t: Thresholds) { t.watchBelow == 60.0 && t.persistenceBars == 2 && t.staleBars == 3 }

  lemma {:induction false} UsualMoves(t: Thresholds)
    requires Usual(t)
    ensures Leads(t, Forming, 1, Middle, false, Qualified, 2)
    ensures Leads(t, Qualified, 2, Strong, false, Confirmed, 3)
    ensures Leads(t, Confirmed, 3, Middle, false, Cooldown, 0)
    ensures Leads(t, Forming, 1, Middle, true, Stale, 0)
  {
  }

  lemma {:induction false} FormingIsReached(t: Thresholds)
    requires t.watchBelow == 60.0 && t.staleBars == 3
    ensures Reached(t, Forming, 1, START)
  {
    FirstStep(t, Low, Forming, 1);
  }

  lemma {:induction false} QualifiedIsReached(t: Thresholds)
    requires Usual(t)
    ensures Reached(t, Qualified, 2, START + 1)
  {
    FormingIsReached(t);
    UsualMoves(t);
    NextStep(t, Forming, 1, START, Middle, START + 1, Qualified, 2);
  }

  lemma {:induction false} ConfirmedIsReached(t: Thresholds)
    requires Usual(t)
    ensures Reached(t, Confirmed, 3, START + 2)
  {
    QualifiedIsReached(t);
    UsualMoves(t);
    NextStep(t, Qualified, 2, START + 1, Strong, START + 2, Confirmed, 3);
  }

  lemma {:induction false} CooldownIsReached(t: Thresholds)
    requires Usual(t)
    ensures Reached(t, Cooldown, 0, START + 3)
  {
    ConfirmedIsReached(t);
    UsualMoves(t);
    NextStep(t, Confirmed, 3, START + 2, Middle, START + 3, Cooldown, 0);
  }

  lemma {:induction false} StaleIsReached(t: Thresholds)
    requires Usual(t)
    ensures Reached(t, Stale, 0, LATE)
  {
    FormingIsReached(t);
    UsualMoves(t);
    NextStep(t, Forming, 1, START, Middle, LATE, Stale, 0);
  }

  lemma {:induction false} EveryStateIsReached(from: Name, to: Name)
    requires from != Invalidated
    ensures Reached(ThresholdsFor(from, to), from, CountAt(from), TimeAt(from))
  {
    var t := ThresholdsFor(from, to);
    match from
    case Neutral => FirstStep(t, Middle, Neutral, 1);
    case Suppressed => FirstStep(t, Veto, Suppressed, 0);
    case Forming => FormingIsReached(t);
    case Qualified => QualifiedIsReached(t);
    case Confirmed => ConfirmedIsReached(t);
    case Cooldown => CooldownIsReached(t);
    case Stale => StaleIsReached(t);
  }

  /** The reading that makes a walkable move, and when it is taken. */
  function LastLevel(from: Name, to: Name): Level
  {
    if to == Suppressed then if from == Suppressed then Middle else Veto
    else if to == Confirmed then Strong
    else if to == Forming then if from == Forming then Middle else Low
    else if to == Neutral && from == Forming then Low
    else Middle
  }

  function LastTime(from: Name, to: Name): int { if to == Stale then LATE + 1 else TimeAt(from) + 1 }

  lemma {:induction false} LastReadingMoves(from: Name, to: Name)
    requires from != Invalidated && to in Walkable(from)
    ensures var now, t := LastTime(from, to), ThresholdsFor(from, to);
            var stale := now >= TimeAt(from) + 3 * HOUR;
            && Slot(now) && TimeAt(from) < now
            && After(from, CountAt(from), LastLevel(from, to), 0, stale, t).state == to
  {
  }

  lemma {:induction false} OccursFrom(
    from: Name, to: Name, t: Thresholds, readings: seq<Reading>, next: Reading, m: int, n: int, asOf: int)
    requires ValidThresholds(t) && EndsAt(readings, t, from, m, asOf) && EndsAt(readings + [next], t, to, n, next.asOf)
    ensures OccursBy(from, to, t, STRONG_WEIGHTS, readings, next)
  {
  }

  lemma {:induction false} WalkableOccurs(from: Name, to: Name)
    requires from != Invalidated && to in Walkable(from)
    ensures Occurs(from, to)
  {
    var t, level, now, m := ThresholdsFor(from, to), LastLevel(from, to), LastTime(from, to), CountAt(from);
    EveryStateIsReached(from, to);
    var readings :| EndsAt(readings, t, from, m, TimeAt(from));
    LastReadingMoves(from, to);
    var left := After(from, m, level, 0, now >= TimeAt(from) + 3 * HOUR, t).count;
    StepFrom(readings, t, from, m, TimeAt(from), level, now, to, left);
    OccursFrom(from, to, t, readings, ReadingAt(level, now), m, left, TimeAt(from));
  }

  /** The walkable graph is exact. A move occurs in some series of real readings from the initial state, under
      some configuration the schema admits, exactly when it is walkable and its origin is not INVALIDATED. */
  lemma {:induction false} WalkableIsExact(from: Name, to: Name)
    ensures Occurs(from, to) <==> from != Invalidated && to in Walkable(from)
  {
    if from != Invalidated && to in Walkable(from) {
      WalkableOccurs(from, to);
    } else {
      forall t, w, readings, next
        ensures !OccursBy(from, to, t, w, readings, next)
      {
        NeverInvalidated(readings, |readings|, t, w);
        assert readings[..|readings|] == readings;
        MovesAreWalkable(readings, next, t, w);
      }
    }
  }

  // ---------- with the scores the engines produce ----------

  /** A scan whose card comes from the default weights and the engines. */
  ghost predicate FromEngines(scan: Scan)
  {
    exists f: Features, held: Regime ::
      FeaturesInRange(f) && scan.card == CardFor(DefaultScore(f, held), Vetoed(f, held))
  }

  lemma {:induction false} EngineTier(scan: Scan)
    requires FromEngines(scan)
    ensures scan.card.tier !in {High, Top}
  {
    var f: Features, held: Regime :| FeaturesInRange(f) && scan.card == CardFor(DefaultScore(f, held), Vetoed(f, held));
    DefaultScoreNeverAbove6781(f, held);
  }

  lemma {:induction false} LowTierNeverConfirms(c: Candidate, scan: Scan, t: Thresholds)
    requires c.state !in {Confirmed, Cooldown, Invalidated} && scan.card.tier !in {High, Top}
    ensures Next(c, scan, t).state !in {Confirmed, Cooldown, Invalidated}
  {
  }

  /** Under the default weights no run, whatever its thresholds, ever confirms a candidate. */
  lemma {:induction false} DefaultRunsNeverConfirm(scans: seq<Scan>, t: Thresholds, asOf: int)
    requires forall i :: 0 <= i < |scans| ==> FromEngines(scans[i])
    ensures Run(scans, t, asOf).state !in {Confirmed, Cooldown, Invalidated}
    decreases |scans|
  {
    if scans != [] {
      var n := |scans| - 1;
      DefaultRunsNeverConfirm(scans[..n], t, asOf);
      EngineTier(scans[n]);
      LowTierNeverConfirms(Run(scans[..n], t, asOf), scans[n], t);
    }
  }
}
