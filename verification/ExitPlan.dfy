/** The exit lifecycle: a plan armed once and driven by a stream of prices. */
module ExitPlan {
  import opened Wrappers
  import opened Decimals

  /** Any text other than the two known sides is accepted by `arm` and read as a sell by `on_price`. */
  datatype Side = Buy | Sell | OtherSide

  datatype ExitState = Armed | Breakeven | Closed

  datatype Event = BreakevenLock | TimeStop | StopLoss | TakeProfit

  predicate Terminal(e: Event) { e != BreakevenLock }

  datatype Plan = Plan(
    side: Side, entry: real, sl: real, tp: real, openedAt: int, timeStop: int, breakevenR: real,
    state: ExitState, events: seq<Event>)

  const TIME_STOP_SECONDS := 3600

  function Arm(side: Side, entry: real, sl: real, tp: real, now: int): Option<Plan>
  {
    if sl == entry || tp == entry then None
    else if side == Buy && !(sl < entry < tp) then None
    else if side == Sell && !(tp < entry < sl) then None
    else Some(Plan(side, entry, sl, tp, now, TIME_STOP_SECONDS, 1.0, Armed, []))
  }

  datatype Tick = Tick(price: real, now: int)

  predicate Expired(p: Plan, now: int) { now - p.openedAt >= p.timeStop }

  /** The move in the plan's favour. */
  function Gain(p: Plan, price: real): real { if p.side == Buy then price - p.entry else p.entry - price }

  predicate LocksAt(p: Plan, price: real)
  {
    var risk := Abs(p.entry - p.sl);
    risk > 0.0 && Gain(p, price) >= risk * p.breakevenR && p.state == Armed
  }

  function Locked(p: Plan): Plan
  {
    p.(state := Breakeven, sl := p.entry, events := p.events + [BreakevenLock])
  }

  function CloseWith(p: Plan, e: Event): Plan { p.(state := Closed, events := p.events + [e]) }

  /** Gain at the stop and at the target; crossing either closes. */
  function Settled(p: Plan, price: real): Plan
  {
    if Gain(p, price) <= Gain(p, p.sl) then CloseWith(p, StopLoss)
    else if Gain(p, price) >= Gain(p, p.tp) then CloseWith(p, TakeProfit)
    else p
  }

  function OnPrice(p: Plan, tick: Tick): Plan
  {
    if p.state == Closed then p
    else if Expired(p, tick.now) then CloseWith(p, TimeStop)
    else if LocksAt(p, tick.price) then Settled(Locked(p), tick.price)
    else Settled(p, tick.price)
  }

  function Run(p: Plan, ticks: seq<Tick>): Plan
  {
    if ticks == [] then p else OnPrice(Run(p, ticks[..|ticks| - 1]), ticks[|ticks| - 1])
  }

  // ---------- what every price stream keeps ----------

  /** The plan `p` after any ticks on a plan armed with stop `sl0`. */
  ghost predicate Invariant(p: Plan, sl0: real)
  {
    && p.side != OtherSide && p.breakevenR == 1.0
    && Gain(p, sl0) < 0.0 < Gain(p, p.tp)
    && (p.sl == sl0 || p.sl == p.entry)
    && match p.state
       case Armed => p.sl == sl0 && p.events == []
       case Breakeven => p.sl == p.entry && p.events == [BreakevenLock]
       case Closed =>
         && (|p.events| == 1 || |p.events| == 2) && Terminal(p.events[|p.events| - 1])
         && (|p.events| == 2 <==> p.sl == p.entry) && (|p.events| == 2 ==> p.events[0] == BreakevenLock)
  }

  lemma {:induction false} ArmEstablishes(side: Side, entry: real, sl: real, tp: real, now: int)
    requires side != OtherSide && Arm(side, entry, sl, tp, now).Some?
    ensures Invariant(Arm(side, entry, sl, tp, now).value, sl)
  {
  }

  lemma {:induction false} TickKeepsInvariant(p: Plan, sl0: real, tick: Tick)
    requires Invariant(p, sl0)
    ensures Invariant(OnPrice(p, tick), sl0)
    ensures Gain(p, p.sl) <= Gain(p, OnPrice(p, tick).sl) <= 0.0
    ensures p.events <= OnPrice(p, tick).events
  {
  }

  lemma {:induction false} SamePlan(p: Plan, ticks: seq<Tick>)
    ensures var q := Run(p, ticks);
            q.side == p.side && q.entry == p.entry && q.tp == p.tp && q.openedAt == p.openedAt
            && q.timeStop == p.timeStop && q.breakevenR == p.breakevenR
    decreases |ticks|
  {
    if ticks != [] { SamePlan(p, ticks[..|ticks| - 1]); }
  }

  /** Under any price stream from a valid arming: the stop only tightens and never passes entry, the
      breakeven lock happens at most once, and exactly one of time stop, stop loss and take profit is
      recorded, last, if and only if the plan is closed. */
  lemma {:induction false} RunKeepsInvariant(side: Side, entry: real, sl: real, tp: real, start: int, ticks: seq<Tick>)
    requires side != OtherSide && Arm(side, entry, sl, tp, start).Some?
    ensures var p := Arm(side, entry, sl, tp, start).value;
            var q := Run(p, ticks);
            && Invariant(q, sl)
            && Gain(p, sl) <= Gain(p, q.sl) <= 0.0
            && (q.state == Closed <==> exists e :: e in q.events && Terminal(e))
    decreases |ticks|
  {
    var p := Arm(side, entry, sl, tp, start).value;
    if ticks == [] {
      ArmEstablishes(side, entry, sl, tp, start);
    } else {
      var prior := ticks[..|ticks| - 1];
      RunKeepsInvariant(side, entry, sl, tp, start, prior);
      SamePlan(p, prior);
      TickKeepsInvariant(Run(p, prior), sl, ticks[|ticks| - 1]);
      var q := Run(p, ticks);
      if q.state == Closed { assert Terminal(q.events[|q.events| - 1]); }
    }
  }

  lemma {:induction false} OneMoreTick(
    side: Side, entry: real, sl: real, tp: real, start: int, ticks: seq<Tick>, tick: Tick)
    requires side != OtherSide && Arm(side, entry, sl, tp, start).Some?
    ensures var p := Arm(side, entry, sl, tp, start).value;
            && Gain(p, Run(p, ticks).sl) <= Gain(p, Run(p, ticks + [tick]).sl)
            && Run(p, ticks).events <= Run(p, ticks + [tick]).events
            && (Run(p, ticks).state == Closed ==> Run(p, ticks + [tick]) == Run(p, ticks))
  {
    var p := Arm(side, entry, sl, tp, start).value;
    RunKeepsInvariant(side, entry, sl, tp, start, ticks);
    SamePlan(p, ticks);
    TickKeepsInvariant(Run(p, ticks), sl, tick);
    assert (ticks + [tick])[..|ticks|] == ticks;
  }

  /** The stop of a longer stream is never looser, what was recorded stays recorded, and a closed plan
      never changes. */
  lemma {:induction false} StopNeverLoosens(
    side: Side, entry: real, sl: real, tp: real, start: int, ticks: seq<Tick>, more: seq<Tick>)
    requires side != OtherSide && Arm(side, entry, sl, tp, start).Some?
    ensures var p := Arm(side, entry, sl, tp, start).value;
            && Gain(p, Run(p, ticks).sl) <= Gain(p, Run(p, ticks + more).sl)
            && Run(p, ticks).events <= Run(p, ticks + more).events
            && (Run(p, ticks).state == Closed ==> Run(p, ticks + more) == Run(p, ticks))
    decreases |more|
  {
    if more == [] {
      assert ticks + more == ticks;
    } else {
      var n := |more| - 1;
      StopNeverLoosens(side, entry, sl, tp, start, ticks, more[..n]);
      OneMoreTick(side, entry, sl, tp, start, ticks + more[..n], more[n]);
      assert ticks + more == (ticks + more[..n]) + [more[n]];
    }
  }

  /** A tick that reaches one risk unit of gain while the plan is open and in time. */
  ghost predicate ReachedAt(p: Plan, ticks: seq<Tick>, i: nat)
    requires i < |ticks|
  {
    var before := Run(p, ticks[..i]);
    before.state != Closed && !Expired(p, ticks[i].now) && Gain(p, ticks[i].price) >= -Gain(p, p.sl)
  }

  /** The stop is at entry exactly when some live tick reached one risk unit. */
  lemma {:induction false} LockIffReached(side: Side, entry: real, sl: real, tp: real, start: int, ticks: seq<Tick>)
    requires side != OtherSide && Arm(side, entry, sl, tp, start).Some?
    ensures var p := Arm(side, entry, sl, tp, start).value;
            Run(p, ticks).sl == entry <==> exists i :: 0 <= i < |ticks| && ReachedAt(p, ticks, i)
    decreases |ticks|
  {
    var p := Arm(side, entry, sl, tp, start).value;
    if ticks != [] {
      var n := |ticks| - 1;
      var prior := ticks[..n];
      LockIffReached(side, entry, sl, tp, start, prior);
      RunKeepsInvariant(side, entry, sl, tp, start, prior);
      SamePlan(p, prior);
      TickLocks(Run(p, prior), sl, ticks[n]);
      ReachedExtends(p, ticks);
    }
  }

  lemma {:induction false} TickLocks(p: Plan, sl0: real, tick: Tick)
    requires Invariant(p, sl0)
    ensures OnPrice(p, tick).sl == p.entry <==>
      p.sl == p.entry || (p.state != Closed && !Expired(p, tick.now) && Gain(p, tick.price) >= -Gain(p, sl0))
  {
  }

  lemma {:induction false} ReachedExtends(p: Plan, ticks: seq<Tick>)
    requires ticks != []
    ensures var n := |ticks| - 1;
            (exists i :: 0 <= i < |ticks| && ReachedAt(p, ticks, i)) <==>
              ReachedAt(p, ticks, n) || (exists i :: 0 <= i < n && ReachedAt(p, ticks[..n], i))
  {
    var n := |ticks| - 1;
    forall i | 0 <= i < n
      ensures ReachedAt(p, ticks, i) <==> ReachedAt(p, ticks[..n], i)
    {
      assert ticks[..n][..i] == ticks[..i] && ticks[..n][i] == ticks[i];
    }
  }

  // ---------- why a plan closes ----------

  predicate AtStop(side: Side, price: real, stop: real)
    requires side != OtherSide
  {
    match side case Buy => price <= stop case Sell => price >= stop
  }

  predicate AtTarget(side: Side, price: real, target: real)
    requires side != OtherSide
  {
    match side case Buy => price >= target case Sell => price <= target
  }

  /** What a tick does to a plan armed at `start` whose stop stands at `stop`: one hour is up, else the stop is
      hit, else the target. */
  function Cause(side: Side, stop: real, target: real, start: int, tick: Tick): Option<Event>
    requires side != OtherSide
  {
    if tick.now >= start + 3600 then Some(TimeStop)
    else if AtStop(side, tick.price, stop) then Some(StopLoss)
    else if AtTarget(side, tick.price, target) then Some(TakeProfit)
    else None
  }

  lemma {:induction false} TickCloses(p: Plan, sl0: real, start: int, tick: Tick)
    requires Invariant(p, sl0) && p.state != Closed && p.openedAt == start && p.timeStop == TIME_STOP_SECONDS
    ensures var q, cause := OnPrice(p, tick), Cause(p.side, p.sl, p.tp, start, tick);
            && (q.state == Closed <==> cause.Some?)
            && (cause.Some? ==> q.events != [] && q.events[|q.events| - 1] == cause.value)
  {
  }

  /** The plan after the first `i` ticks. */
  function PlanAt(p: Plan, ticks: seq<Tick>, i: nat): Plan
    requires i <= |ticks|
  {
    Run(p, ticks[..i])
  }

  /** The first tick with a cause, against the stop in force when it came. */
  ghost predicate ClosesAt(p: Plan, ticks: seq<Tick>, i: nat)
    requires i < |ticks| && p.side != OtherSide
  {
    && Cause(p.side, PlanAt(p, ticks, i).sl, p.tp, p.openedAt, ticks[i]).Some?
    && forall j :: 0 <= j < i ==> Cause(p.side, PlanAt(p, ticks, j).sl, p.tp, p.openedAt, ticks[j]).None?
  }

  lemma {:induction false} OpenIffNoCause(
    side: Side, entry: real, sl: real, tp: real, start: int, ticks: seq<Tick>, n: nat)
    requires side != OtherSide && Arm(side, entry, sl, tp, start).Some? && n <= |ticks|
    ensures var p := Arm(side, entry, sl, tp, start).value;
            PlanAt(p, ticks, n).state != Closed <==>
            forall j :: 0 <= j < n ==> Cause(side, PlanAt(p, ticks, j).sl, tp, start, ticks[j]).None?
  {
    if n > 0 {
      var p := Arm(side, entry, sl, tp, start).value;
      OpenIffNoCause(side, entry, sl, tp, start, ticks, n - 1);
      assert ticks[..n][..n - 1] == ticks[..n - 1];
      RunKeepsInvariant(side, entry, sl, tp, start, ticks[..n - 1]);
      SamePlan(p, ticks[..n - 1]);
      if PlanAt(p, ticks, n - 1).state != Closed {
        TickCloses(PlanAt(p, ticks, n - 1), sl, start, ticks[n - 1]);
      }
    }
  }

  /** A plan is closed exactly when some tick came after the hour, or touched the stop then in force, or reached
      the target; and what it records last is the cause of the first such tick: time before stop before
      target. */
  lemma {:induction false} ClosedByItsCause(side: Side, entry: real, sl: real, tp: real, start: int, ticks: seq<Tick>)
    requires side != OtherSide && Arm(side, entry, sl, tp, start).Some?
    ensures var p := Arm(side, entry, sl, tp, start).value;
            var q := Run(p, ticks);
            && (q.state == Closed <==>
                  exists i :: 0 <= i < |ticks| && Cause(side, PlanAt(p, ticks, i).sl, tp, start, ticks[i]).Some?)
            && forall i :: 0 <= i < |ticks| && ClosesAt(p, ticks, i) ==>
                 && q.events != []
                 && Some(q.events[|q.events| - 1]) == Cause(side, PlanAt(p, ticks, i).sl, tp, start, ticks[i])
  {
    var p := Arm(side, entry, sl, tp, start).value;
    OpenIffNoCause(side, entry, sl, tp, start, ticks, |ticks|);
    assert ticks[..|ticks|] == ticks;
    forall i | 0 <= i < |ticks| && ClosesAt(p, ticks, i)
      ensures Run(p, ticks).events != []
      ensures Some(Run(p, ticks).events[|Run(p, ticks).events| - 1])
           == Cause(side, PlanAt(p, ticks, i).sl, tp, start, ticks[i])
    {
      ClosedAt(side, entry, sl, tp, start, ticks, i);
    }
  }

  lemma {:induction false} ClosingTick(
    side: Side, entry: real, sl: real, tp: real, start: int, ticks: seq<Tick>, i: nat)
    requires side != OtherSide && Arm(side, entry, sl, tp, start).Some? && i < |ticks|
    requires ClosesAt(Arm(side, entry, sl, tp, start).value, ticks, i)
    ensures var p := Arm(side, entry, sl, tp, start).value;
            var q := Run(p, ticks[..i + 1]);
            && q.state == Closed && q.events != []
            && Some(q.events[|q.events| - 1]) == Cause(side, PlanAt(p, ticks, i).sl, tp, start, ticks[i])
  {
    var p := Arm(side, entry, sl, tp, start).value;
    OpenIffNoCause(side, entry, sl, tp, start, ticks, i);
    RunKeepsInvariant(side, entry, sl, tp, start, ticks[..i]);
    SamePlan(p, ticks[..i]);
    TickCloses(PlanAt(p, ticks, i), sl, start, ticks[i]);
    assert ticks[..i + 1][..i] == ticks[..i];
  }

  lemma {:induction false} ClosedAt(side: Side, entry: real, sl: real, tp: real, start: int, ticks: seq<Tick>, i: nat)
    requires side != OtherSide && Arm(side, entry, sl, tp, start).Some? && i < |ticks|
    requires ClosesAt(Arm(side, entry, sl, tp, start).value, ticks, i)
    ensures var p := Arm(side, entry, sl, tp, start).value;
            var events := Run(p, ticks).events;
            events != [] && Some(events[|events| - 1]) == Cause(side, PlanAt(p, ticks, i).sl, tp, start, ticks[i])
  {
    var p := Arm(side, entry, sl, tp, start).value;
    ClosingTick(side, entry, sl, tp, start, ticks, i);
    StopNeverLoosens(side, entry, sl, tp, start, ticks[..i + 1], ticks[i + 1..]);
    assert ticks[..i + 1] + ticks[i + 1..] == ticks;
  }

  // ---------- reflection ----------

  function Mirror(p: Plan): Plan
  {
    p.(side := if p.side == Buy then Sell else if p.side == Sell then Buy else OtherSide,
       sl := 2.0 * p.entry - p.sl, tp := 2.0 * p.entry - p.tp)
  }

  function MirrorTick(p: Plan, tick: Tick): Tick { Tick(2.0 * p.entry - tick.price, tick.now) }

  function MirrorTicks(p: Plan, ticks: seq<Tick>): (m: seq<Tick>)
    ensures |m| == |ticks|
  {
    seq(|ticks|, i requires 0 <= i < |ticks| => MirrorTick(p, ticks[i]))
  }

  lemma {:induction false} SettledReflects(p: Plan, price: real)
    requires p.side != OtherSide
    ensures Settled(Mirror(p), 2.0 * p.entry - price) == Mirror(Settled(p, price))
  {
  }

  lemma {:induction false} LockReflects(p: Plan, price: real)
    requires p.side != OtherSide
    ensures LocksAt(Mirror(p), 2.0 * p.entry - price) == LocksAt(p, price)
    ensures Locked(Mirror(p)) == Mirror(Locked(p))
  {
    assert Abs(Mirror(p).entry - Mirror(p).sl) == Abs(p.entry - p.sl);
    assert Gain(Mirror(p), 2.0 * p.entry - price) == Gain(p, price);
  }

  lemma {:induction false} TickReflects(p: Plan, tick: Tick)
    requires p.side != OtherSide
    ensures OnPrice(Mirror(p), MirrorTick(p, tick)) == Mirror(OnPrice(p, tick))
  {
    LockReflects(p, tick.price);
    SettledReflects(p, tick.price);
    SettledReflects(Locked(p), tick.price);
  }

  /** A sell run is the reflection of a buy run about entry, tick by tick, for every plan. */
  lemma {:induction false} RunReflects(p: Plan, ticks: seq<Tick>)
    requires p.side != OtherSide
    ensures Run(Mirror(p), MirrorTicks(p, ticks)) == Mirror(Run(p, ticks))
    decreases |ticks|
  {
    if ticks != [] {
      var n := |ticks| - 1;
      RunReflects(p, ticks[..n]);
      assert MirrorTicks(p, ticks)[..n] == MirrorTicks(p, ticks[..n]);
      SamePlan(p, ticks[..n]);
      TickReflects(Run(p, ticks[..n]), ticks[n]);
    }
  }

  // ---------- a side that is neither ----------

  /** `arm` checks the order of the levels only for the two known sides. Armed under any other text, a plan
      survives its first in-time tick at the entry price exactly when its levels are ordered as a sell. */
  lemma {:induction false} UnknownSideIsReadAsSell(entry: real, sl: real, tp: real, start: int, now: int)
    requires Arm(OtherSide, entry, sl, tp, start).Some? && now - start < TIME_STOP_SECONDS
    ensures var p := Arm(OtherSide, entry, sl, tp, start).value;
            OnPrice(p, Tick(entry, now)).state != Closed <==> tp < entry < sl
  {
  }

  // ---------- the plan object ----------

  class ExitPlanLive {
    const side: Side
    const entry: real
    const tp: real
    const openedAt: int
    const timeStop: int
    const breakevenR: real
    var sl: real
    var state: ExitState
    var events: seq<Event>

    ghost function View(): Plan
      reads this
    {
      Plan(side, entry, sl, tp, openedAt, timeStop, breakevenR, state, events)
    }

    constructor (side: Side, entry: real, sl: real, tp: real, now: int)
      ensures View() == Plan(side, entry, sl, tp, now, TIME_STOP_SECONDS, 1.0, Armed, [])
    {
      this.side, this.entry, this.sl, this.tp := side, entry, sl, tp;
      openedAt, timeStop, breakevenR := now, TIME_STOP_SECONDS, 1.0;
      state, events := Armed, [];
    }

    /** The in-place update. */
    method Price(tick: Tick)
      modifies this
      ensures View() == OnPrice(old(View()), tick)
      ensures old(state) != Closed && side != OtherSide && timeStop == TIME_STOP_SECONDS ==>
                match Cause(side, sl, tp, openedAt, tick)
                case Some(cause) => state == Closed && events != [] && events[|events| - 1] == cause
                case None => state != Closed
    {
      if state == Closed { return; }
      if tick.now - openedAt >= timeStop {
        state, events := Closed, events + [TimeStop];
        return;
      }
      LockIfReached(tick.price);
      Settle(tick.price);
    }

    method LockIfReached(price: real)
      modifies this
      ensures View() == if LocksAt(old(View()), price) then Locked(old(View())) else old(View())
    {
      var risk := Abs(entry - sl);
      if risk > 0.0 {
        var move := if side == Buy then price - entry else entry - price;
        if move >= risk * breakevenR && state == Armed {
          state, sl, events := Breakeven, entry, events + [BreakevenLock];
        }
      }
    }

    /** Price comparisons written per side. */
    method Settle(price: real)
      modifies this
      ensures View() == Settled(old(View()), price)
      ensures side != OtherSide ==>
                events == old(events) + (if AtStop(side, price, sl) then [StopLoss]
                                         else if AtTarget(side, price, tp) then [TakeProfit] else [])
    {
      if side == Buy {
        if price <= sl {
          state, events := Closed, events + [StopLoss];
        } else if price >= tp {
          state, events := Closed, events + [TakeProfit];
        }
      } else {
        if price >= sl {
          state, events := Closed, events + [StopLoss];
        } else if price <= tp {
          state, events := Closed, events + [TakeProfit];
        }
      }
    }
  }

  method ArmPlan(side: Side, entry: real, sl: real, tp: real, now: int) returns (plan: ExitPlanLive?)
    ensures plan == null <==> Arm(side, entry, sl, tp, now).None?
    ensures plan != null ==> fresh(plan) && Arm(side, entry, sl, tp, now) == Some(plan.View())
  {
    plan := null;
    if sl == entry || tp == entry { return; }
    if side == Buy && !(sl < entry < tp) { return; }
    if side == Sell && !(tp < entry < sl) { return; }
    plan := new ExitPlanLive(side, entry, sl, tp, now);
  }
}
