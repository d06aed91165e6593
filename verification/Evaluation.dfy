/** The capital evaluation pipeline as a step function over the service state. */
module Evaluation {
  import opened Wrappers
  import opened Decimals
  import opened CapitalContracts
  import opened Ledger
  import opened Sizing
  import opened Checks

  // ---------- results ----------

  /** The validator of the result contract: an intent accompanies exactly the approvals. */
  predicate ShapeAccepted(r: Result)
  {
    IsApproved(r.decision.final) <==> r.intent.Some?
  }

  /** A measurement as text: amounts on the eight-decimal grid. */
  datatype Printed = Nothing | Units(units: int) | Whole(n: int) | Words(text: string)

  function Print(m: Measure): Printed
  {
    match m
    case NoMeasure => Nothing
    case Money(amount) => Units(Canonical(amount))
    case Count(n) => Whole(n)
    case Text(text) => Words(text)
  }

  datatype FaultPoint =
    | BeforePolicy | AfterPolicy | DuringAccount | DuringPortfolio | DuringModel
    | DuringSizing | DuringHeat | BeforePersist
    | AfterDecisionBeforeAudit | AfterAuditBeforeOutbox | AfterCommit

  datatype FailReason = FaultAt(point: FaultPoint) | SnapshotNotStored | CommitNotStored

  /** What the output hash covers. */
  datatype Body =
    | Decided(state: DecisionState, approvedUnits: int, projectedUnits: int, failed: seq<CheckName>,
              inputHash: string, policyHash: string, report: seq<(CheckName, Status, Printed)>)
    | FailedClosed(reason: FailReason)

  // ---------- the service ----------

  /** Fixed parts of one service. The three digests are arbitrary functions of what they hash. */
  datatype Service = Service(
    config: Config, hasApi: bool, requirePersistence: bool,
    inputHash: Request -> string, failHash: FailReason -> string,
    policyHash: Config -> string, outputHash: Body -> string)

  datatype HaltReason = NeverTripped | TrippedBy(state: DecisionState) | Recovered(why: string)

  datatype Halt = Halt(halted: bool, reason: HaltReason)

  type Memo = map<string, (string, Result)>

  /** `seen` is the in-process memo. `db`, the input hashes by idempotency key, and the journal of events
      outlive the process. */
  datatype State = State(
    ledger: LedgerState, halt: Halt, seen: Memo, db: map<string, string>, journal: seq<AuditEvent>)

  /** How the storing of a decision ends: nothing written, the event without the key, both written but an
      error after that, or success. */
  datatype CommitOutcome = IngestFailed | KeyNotStored | StoredThenFailed | CommitOk(ref: string)

  /** Everything the environment decides during one call: the clock, the health probe, storage failures, the
      injected fault, fresh ids. */
  datatype Env = Env(
    now: int, healthy: bool, snapshotFails: bool, divergenceFails: bool,
    commit: CommitOutcome, fault: Option<FaultPoint>, id: nat, failId: nat)

  datatype EvalError =
    | IdempotencyConflict | InjectedFault(point: FaultPoint) | SnapshotIngestFailed
    | DivergenceIngestFailed | ShapeViolation | RecoveryRefused

  datatype Outcome = Returned(result: Result) | Raised(error: EvalError) | Done

  // ---------- deciding ----------

  function ObservationOf(r: Request, now: int): Observation
  {
    Observation(if r.accountEquity > 0.0 then r.accountEquity else 0.0,
                r.peakEquity, r.realizedPnlDay, r.losingStreak, now)
  }

  /** The request seen through the ledger: its own figures can only get worse. A zero peak counts
      as absent. */
  function Effective(r: Request, ledger: LedgerState): Request
  {
    r.(peakEquity := if ledger.peak.Some? && ledger.peak.value != 0.0 then ledger.peak.value else r.peakEquity,
       realizedPnlDay := Min(r.realizedPnlDay, -ledger.dailyLoss),
       losingStreak := if r.losingStreak >= ledger.streak then r.losingStreak else ledger.streak)
  }

  function HeadroomFor(e: Request, c: Config): real
  {
    if e.accountEquity > 0.0 && !e.exposureUnknown then HeatHeadroom(e, c).value else 0.0
  }

  function TradeBudgetFor(e: Request, c: Config): real
  {
    if e.accountEquity > 0.0 then e.accountEquity * c.maxPerTradeRiskPct else 0.0
  }

  function SizeFor(e: Request, c: Config): SizingResult
  {
    Size(e, c, HeadroomFor(e, c), TradeBudgetFor(e, c))
  }

  function PersistenceOk(svc: Service, r: Request, env: Env): bool
  {
    r.persistenceAvailable && (svc.requirePersistence ==> svc.hasApi) && (svc.hasApi ==> env.healthy)
  }

  function ContextWith(svc: Service, e: Request, sizing: SizingResult, halted: bool, env: Env): Context
  {
    match sizing
    case Sized(trace) => Context(env.now, halted, PersistenceOk(svc, e, env), Some(trace.finalRisk), None)
    case Unsized(error) => Context(env.now, halted, PersistenceOk(svc, e, env), None, Some(error))
  }

  function ContextFor(svc: Service, e: Request, halted: bool, env: Env): Context
  {
    ContextWith(svc, e, SizeFor(e, svc.config), halted, env)
  }

  function ReportFor(svc: Service, e: Request, halted: bool, env: Env): (report: seq<CheckOutcome>)
    ensures |report| == 40
  {
    Report(e, svc.config, ContextFor(svc, e, halted, env))
  }

  function BlockingNames(report: seq<CheckOutcome>): set<CheckName>
  {
    set o | o in report && o.blocking :: o.name
  }

  function FailedNames(report: seq<CheckOutcome>): seq<CheckName>
  {
    if report == [] then []
    else
      var last := report[|report| - 1];
      FailedNames(report[..|report| - 1]) + (if last.blocking then [last.name] else [])
  }

  /** The first blocking check in this order names the state. */
  const BLOCK_MAP: seq<(CheckName, DecisionState)> := [
    (GlobalSafeHalt, BlockedSystem), (SystemControlState, BlockedSystem), (PersistenceAvailability, BlockedSystem),
    (ReconciliationStatus, BlockedReconciliation),
    (AccountFreshness, BlockedAccount), (PortfolioFreshness, BlockedData), (MarketFreshness, BlockedData),
    (ModelAvailability, BlockedModel), (ModelFreshness, BlockedModel),
    (ModelQuality, BlockedModel), (ModelUncertainty, BlockedModel),
    (EquityDrawdownLimit, BlockedDrawdown), (DailyLossLimit, BlockedDrawdown), (ConsecutiveLoss, BlockedDrawdown),
    (PortfolioHeat, BlockedPortfolioHeat),
    (SymbolExposure, BlockedExposure), (CurrencyExposure, BlockedExposure), (DirectionalExposure, BlockedExposure),
    (OpenOrderExposure, BlockedExposure), (PendingOrderExposure, BlockedExposure),
    (CorrelationConcentration, BlockedConcentration), (StrategyConcentration, BlockedConcentration),
    (ProfileAllocation, BlockedConcentration),
    (SpreadLimit, BlockedSpread), (SlippageLimit, BlockedSlippage)]

  function FirstBlocked(blocking: set<CheckName>, table: seq<(CheckName, DecisionState)>): Option<DecisionState>
  {
    if table == [] then None
    else if table[0].0 in blocking then Some(table[0].1)
    else FirstBlocked(blocking, table[1..])
  }

  function StateFrom(blocking: set<CheckName>, sizing: SizingResult, requested: real): DecisionState
  {
    match FirstBlocked(blocking, BLOCK_MAP)
    case Some(state) => state
    case None =>
      if blocking == {Cooldown} then Deferred
      else if blocking != {} then Rejected
      else if sizing.Unsized? || sizing.trace.rounded <= 0.0 then Rejected
      else if sizing.trace.rounded < requested then ApprovedReducedSize
      else Approved
  }

  function StateFor(svc: Service, e: Request, halted: bool, env: Env): DecisionState
  {
    StateFrom(BlockingNames(ReportFor(svc, e, halted, env)), SizeFor(e, svc.config), e.requestedQuantity)
  }

  /** The scan finds the state of the first blocking entry, and nothing only when no entry blocks. */
  lemma {:induction false} FirstBlockedIsInTable(blocking: set<CheckName>, table: seq<(CheckName, DecisionState)>)
    ensures match FirstBlocked(blocking, table)
            case Some(state) => exists i :: IsFirstBlocked(blocking, table, i) && table[i].1 == state
            case None => forall i :: 0 <= i < |table| ==> table[i].0 !in blocking
  {
    if table != [] {
      var rest := table[1..];
      if table[0].0 in blocking {
        assert IsFirstBlocked(blocking, table, 0);
      } else {
        FirstBlockedIsInTable(blocking, rest);
        if FirstBlocked(blocking, rest).Some? {
          var i :| IsFirstBlocked(blocking, rest, i) && rest[i].1 == FirstBlocked(blocking, rest).value;
          assert table[i + 1] == rest[i];
          assert forall j :: 0 < j < i + 1 ==> table[j] == rest[j - 1];
          assert IsFirstBlocked(blocking, table, i + 1);
        }
      }
    }
  }

  ghost predicate IsFirstBlocked(blocking: set<CheckName>, table: seq<(CheckName, DecisionState)>, i: int)
  {
    0 <= i < |table| && table[i].0 in blocking && forall j :: 0 <= j < i ==> table[j].0 !in blocking
  }

  lemma {:induction false} BlockMapNeverApproves()
    ensures forall i :: 0 <= i < |BLOCK_MAP| ==> !IsApproved(BLOCK_MAP[i].1) && BLOCK_MAP[i].1 != ErrorFailClosed
  {
  }

  /** An approval has nothing blocking and a positive size; its name tells whether the request was cut. */
  lemma {:induction false} ApprovalMeans(blocking: set<CheckName>, sizing: SizingResult, requested: real)
    ensures var state := StateFrom(blocking, sizing, requested);
            IsApproved(state) ==>
              && blocking == {}
              && sizing.Sized? && sizing.trace.rounded > 0.0
              && (state == ApprovedReducedSize <==> sizing.trace.rounded < requested)
  {
    FirstBlockedIsInTable(blocking, BLOCK_MAP);
    BlockMapNeverApproves();
  }

  function ApprovedQuantity(state: DecisionState, sizing: SizingResult): real
  {
    if IsApproved(state) && sizing.Sized? then sizing.trace.rounded else 0.0
  }

  function Projected(sizing: SizingResult): real
  {
    if sizing.Sized? then sizing.trace.finalRisk else 0.0
  }

  function PrintReport(report: seq<CheckOutcome>): seq<(CheckName, Status, Printed)>
  {
    seq(|report|, i requires 0 <= i < |report| => (report[i].name, report[i].status, Print(report[i].measured)))
  }

  function BodyFor(svc: Service, r: Request, e: Request, halted: bool, env: Env): Body
  {
    var sizing := SizeFor(e, svc.config);
    var report := ReportFor(svc, e, halted, env);
    var state := StateFor(svc, e, halted, env);
    Decided(state, Canonical(ApprovedQuantity(state, sizing)), Canonical(Projected(sizing)),
            FailedNames(report), svc.inputHash(r), svc.policyHash(svc.config), PrintReport(report))
  }

  function Heat(h: Option<real>): real { if h.Some? then h.value else 0.0 }

  /** The decision on a sized, checked and judged request. */
  function DecisionFrom(
    svc: Service, r: Request, e: Request, sizing: SizingResult, report: seq<CheckOutcome>, state: DecisionState,
    outputHash: string, env: Env): Decision
  {
    var risk := if IsApproved(state) then Projected(sizing) else 0.0;
    Decision(env.id, state, state, env.now, e.requestedQuantity, ApprovedQuantity(state, sizing), risk,
             Heat(HeatBefore(e)), Heat(HeatAfter(e, risk)), FailedNames(report), report,
             if sizing.Sized? then Some(sizing.trace) else None, svc.inputHash(r), outputHash, NoReference)
  }

  function MakeDecision(svc: Service, r: Request, e: Request, halted: bool, env: Env): Decision
  {
    DecisionFrom(svc, r, e, SizeFor(e, svc.config), ReportFor(svc, e, halted, env), StateFor(svc, e, halted, env),
                 svc.outputHash(BodyFor(svc, r, e, halted, env)), env)
  }

  function MakeResult(d: Decision): (r: Result)
    ensures ShapeAccepted(r)
  {
    if IsApproved(d.final) then Result(d, Some(Intent(d.id, d.approved, AuditRef(d.id))), None, None)
    else Result(d, None, Some(Rejection(d.final, NoReference)), None)
  }

  /** Stamp the storage reference on every part of a result. */
  function Referenced(r: Result, ref: Reference): Result
  {
    Result(r.decision.(reference := ref),
           if r.intent.Some? then Some(r.intent.value.(reference := ref)) else None,
           if r.rejection.Some? then Some(r.rejection.value.(reference := ref)) else None,
           r.replayMatch)
  }

  function AllBlocked(): (report: seq<CheckOutcome>)
    ensures |report| == 40
  {
    seq(40, i requires 0 <= i < 40 => Blocked(CATALOG[i]))
  }

  /** The answer to any exception: zero size, every check blocked, a rejection. */
  function FailClosed(svc: Service, r: Request, env: Env, reason: FailReason): (result: Result)
    ensures ShapeAccepted(result)
  {
    Result(
      Decision(env.failId, ErrorFailClosed, ErrorFailClosed, env.now, r.requestedQuantity, 0.0, 0.0, 0.0, 0.0,
               [GlobalSafeHalt], AllBlocked(), None, svc.failHash(reason), svc.outputHash(FailedClosed(reason)),
               NoReference),
      None, Some(Rejection(ErrorFailClosed, NoReference)), None)
  }

  // ---------- one pass of the pipeline ----------

  predicate EarlyFault(p: FaultPoint)
  {
    p in {BeforePolicy, AfterPolicy, DuringAccount, DuringPortfolio, DuringModel}
  }

  predicate SizingFault(p: FaultPoint) { p in {DuringSizing, DuringHeat} }

  predicate Trips(state: DecisionState) { state == BlockedDrawdown || state == BlockedSystem }

  function AfterTrip(halt: Halt, state: DecisionState): Halt
  {
    if Trips(state) then Halt(true, TrippedBy(state)) else halt
  }

  /** The newest decision event under a key. */
  function FindDecision(events: seq<AuditEvent>, key: string): Option<Result>
  {
    if events == [] then None
    else
      var last := events[|events| - 1];
      if last.DecisionEvent? && last.key == key then Some(last.result)
      else FindDecision(events[..|events| - 1], key)
  }

  /** Whether the journal holds a decision under a key; the event store then knows the key. */
  predicate Ingested(s: State, key: string) { FindDecision(s.journal, key).Some? }

  const LOOKUP_LIMIT: nat := 10000

  /** What the service sees of a stored decision: the events among the oldest 10,000. */
  function Visible(s: State, key: string): Option<Result> { FindDecision(Limit(s.journal, LOOKUP_LIMIT), key) }

  /** Commit a decided result: event, then key. A key the event store knows conflicts, since every decision
      has a new id and so another request hash. */
  function Commit(svc: Service, s: State, r: Request, result: Result, env: Env): (State, Outcome)
  {
    var key := r.idempotencyKey;
    if env.fault == Some(AfterDecisionBeforeAudit) then
      (s, Returned(FailClosed(svc, r, env, FaultAt(AfterDecisionBeforeAudit))))
    else if svc.hasApi && env.commit.IngestFailed? then (s, Returned(FailClosed(svc, r, env, CommitNotStored)))
    else if svc.hasApi && Ingested(s, key) then (s, Raised(IdempotencyConflict))
    else
      var next := if svc.hasApi then Stored(s, key, svc.inputHash(r), result, !env.commit.KeyNotStored?) else s;
      if svc.hasApi && !env.commit.CommitOk? then (next, Returned(FailClosed(svc, r, env, CommitNotStored)))
      else if env.fault == Some(AfterAuditBeforeOutbox) || env.fault == Some(AfterCommit) then
        (next, Returned(FailClosed(svc, r, env, FaultAt(env.fault.value))))
      else (next, Returned(Referenced(result, if svc.hasApi then StoredRef(env.commit.ref) else MemoryRef(env.id))))
  }

  /** The event appended and, unless that fails, the key put if absent. */
  function Stored(s: State, key: string, hash: string, result: Result, withKey: bool): State
  {
    s.(journal := s.journal + [DecisionEvent(key, result)],
       db := if withKey && key !in s.db then s.db[key := hash] else s.db)
  }

  /** After the decision: trip the latch, and on a live pass persist and memoise. */
  function Conclude(svc: Service, s: State, r: Request, result: Result, env: Env, live: bool): (State, Outcome)
  {
    var tripped := s.(halt := AfterTrip(s.halt, result.decision.final));
    if !live then (tripped, Returned(result))
    else if env.fault == Some(BeforePersist) then (tripped, Raised(InjectedFault(BeforePersist)))
    else
      var (next, outcome) := Commit(svc, tripped, r, result, env);
      if outcome.Returned? then
        (next.(seen := s.seen[r.idempotencyKey := (svc.inputHash(r), outcome.result)]), outcome)
      else (next, outcome)
  }

  /** The error, if any, that stops a pass before the ledger moves or before a decision is made. */
  function Interruption(svc: Service, env: Env, live: bool): Option<EvalError>
  {
    if env.fault.Some? && EarlyFault(env.fault.value) then Some(InjectedFault(env.fault.value))
    else if live && svc.hasApi && env.snapshotFails then Some(SnapshotIngestFailed)
    else if env.fault.Some? && SizingFault(env.fault.value) then Some(InjectedFault(env.fault.value))
    else None
  }

  predicate ReachesLedger(env: Env) { !(env.fault.Some? && EarlyFault(env.fault.value)) }

  function Observed(s: State, r: Request, env: Env): State
  {
    if ReachesLedger(env) then s.(ledger := Observe(s.ledger, ObservationOf(r, env.now))) else s
  }

  /** Whether a pass stores a snapshot of the ledger it has just moved. */
  predicate StoresSnapshot(svc: Service, env: Env, live: bool)
  {
    live && svc.hasApi && ReachesLedger(env) && !env.snapshotFails
  }

  function Recorded(svc: Service, s: State, r: Request, env: Env, live: bool): State
  {
    var seen := Observed(s, r, env);
    if StoresSnapshot(svc, env, live) then seen.(journal := s.journal + [SnapshotEvent(TakeSnapshot(seen.ledger))])
    else seen
  }

  function Decide(svc: Service, s: State, r: Request, env: Env): Result
  {
    MakeResult(MakeDecision(svc, r, Effective(r, s.ledger), s.halt.halted, env))
  }

  /** A pass that is not answered from memory. `live` is false for a replay, which neither persists
      nor memoises but still moves the ledger and may trip the halt. */
  function Fresh(svc: Service, s: State, r: Request, env: Env, live: bool): (State, Outcome)
  {
    var seen := Recorded(svc, s, r, env, live);
    match Interruption(svc, env, live)
    case Some(error) => (seen, Raised(error))
    case None => Conclude(svc, seen, r, Decide(svc, seen, r, env), env, live)
  }

  predicate InStore(svc: Service, s: State, r: Request) { svc.hasApi && r.idempotencyKey in s.db }

  /** A live pass is fresh when neither the memo nor the store answers it. */
  predicate IsFresh(svc: Service, s: State, r: Request)
  {
    && r.idempotencyKey !in s.seen
    && (InStore(svc, s, r) ==>
          s.db[r.idempotencyKey] == svc.inputHash(r) && Visible(s, r.idempotencyKey).None?)
  }

  function LivePass(svc: Service, s: State, r: Request, env: Env): (State, Outcome)
  {
    var key := r.idempotencyKey;
    var hash := svc.inputHash(r);
    if key in s.seen then
      if s.seen[key].0 != hash then (s, Raised(IdempotencyConflict)) else (s, Returned(s.seen[key].1))
    else if InStore(svc, s, r) && s.db[key] != hash then (s, Raised(IdempotencyConflict))
    else if InStore(svc, s, r) && Visible(s, key).Some? then
      (s.(seen := s.seen[key := (hash, Visible(s, key).value)]), Returned(Visible(s, key).value))
    else Fresh(svc, s, r, env, true)
  }

  function ReasonOf(error: EvalError): FailReason
  {
    if error.InjectedFault? then FaultAt(error.point) else SnapshotNotStored
  }

  /** `evaluate`: everything but an idempotency conflict becomes a result. */
  function Evaluate(svc: Service, s: State, r: Request, env: Env): (State, Outcome)
  {
    var (next, outcome) := LivePass(svc, s, r, env);
    if outcome.Raised? && !outcome.error.IdempotencyConflict? then
      (next, Returned(FailClosed(svc, r, env, ReasonOf(outcome.error))))
    else (next, outcome)
  }

  /** What `replay` answers once the pass is over: the two output hashes compared. The divergence answer
      drops the intent, which the result validator refuses for an approved original. */
  function ReplayAnswer(svc: Service, original: Result, pass: Outcome, env: Env): Outcome
  {
    if !pass.Returned? then pass
    else if pass.result.decision.outputHash == original.decision.outputHash then
      Returned(original.(replayMatch := Some(true)))
    else if svc.hasApi && env.divergenceFails then Raised(DivergenceIngestFailed)
    else
      var diverged := Result(original.decision.(status := ReplayDivergence), None, original.rejection, Some(false));
      if ShapeAccepted(diverged) then Returned(diverged) else Raised(ShapeViolation)
  }

  function Replay(svc: Service, s: State, original: Result, r: Request, env: Env): (State, Outcome)
  {
    var (next, pass) := Fresh(svc, s, r, env, false);
    (next, ReplayAnswer(svc, original, pass, env))
  }

  predicate ExplicitActor(actor: string) { actor != "" && actor != "automatic" }

  function Recover(s: State, actor: string, why: string): (State, Outcome)
  {
    if ExplicitActor(actor) then (s.(halt := Halt(false, Recovered(why))), Done)
    else (s, Raised(RecoveryRefused))
  }

  /** A process started on a store: with persistence the ledger is reloaded from the journal; the latch and
      the memo always start clear. */
  function Restart(svc: Service, db: map<string, string>, journal: seq<AuditEvent>): State
  {
    State(if svc.hasApi then Reloaded(journal) else FRESH, Halt(false, NeverTripped), map[], db, journal)
  }

  // ---------- the objects ----------

  class SafeHaltController {
    var halted: bool
    var reason: HaltReason

    ghost function View(): Halt
      reads this
    {
      Halt(halted, reason)
    }

    constructor ()
      ensures View() == Halt(false, NeverTripped)
    {
      halted, reason := false, NeverTripped;
    }

    method Trip(state: DecisionState)
      modifies this
      ensures View() == Halt(true, TrippedBy(state))
    {
      halted, reason := true, TrippedBy(state);
    }

    method Recover(actor: string, why: string) returns (ok: bool)
      modifies this
      ensures ok == ExplicitActor(actor)
      ensures View() == if ok then Halt(false, Recovered(why)) else old(View())
    {
      if actor == "" || actor == "automatic" { return false; }
      halted, reason := false, Recovered(why);
      ok := true;
    }
  }

  class CapitalEvaluationService {
    const svc: Service
    const halt: SafeHaltController
    const ledger: DrawdownLedger
    var seen: Memo
    var db: map<string, string>
    var journal: seq<AuditEvent>

    ghost predicate Valid() { svc.config.Valid() }

    ghost function View(): State
      reads this, halt, ledger
    {
      State(ledger.State(), halt.View(), seen, db, journal)
    }

    constructor (svc: Service, db: map<string, string>, journal: seq<AuditEvent>)
      requires svc.config.Valid()
      ensures Valid() && fresh(halt) && fresh(ledger) && this.svc == svc
      ensures View() == Restart(svc, db, journal)
    {
      this.svc := svc;
      halt := new SafeHaltController();
      ledger := new DrawdownLedger();
      seen, this.db, this.journal := map[], db, journal;
      new;
      if svc.hasApi { ledger.Reload(journal); }
    }

    method EvaluateRequest(r: Request, env: Env) returns (outcome: Outcome)
      requires Valid()
      modifies this, halt, ledger
      ensures (View(), outcome) == Evaluate(svc, old(View()), r, env)
    {
      outcome := Pass(r, env, true);
      if outcome.Raised? && !outcome.error.IdempotencyConflict? {
        outcome := Returned(FailClosed(svc, r, env, ReasonOf(outcome.error)));
      }
    }

    method ReplayResult(original: Result, r: Request, env: Env) returns (outcome: Outcome)
      requires Valid()
      modifies this, halt, ledger
      ensures (View(), outcome) == Replay(svc, old(View()), original, r, env)
    {
      outcome := Pass(r, env, false);
      if !outcome.Returned? { return; }
      if outcome.result.decision.outputHash == original.decision.outputHash {
        outcome := Returned(original.(replayMatch := Some(true)));
        return;
      }
      if svc.hasApi && env.divergenceFails { return Raised(DivergenceIngestFailed); }
      var diverged := Result(original.decision.(status := ReplayDivergence), None, original.rejection, Some(false));
      outcome := if ShapeAccepted(diverged) then Returned(diverged) else Raised(ShapeViolation);
    }

    /** `_evaluate`: memo, store lookup, ledger, sizing, checks, latch, commit, memo again. */
    method Pass(r: Request, env: Env, live: bool) returns (outcome: Outcome)
      requires Valid()
      modifies this, halt, ledger
      ensures (View(), outcome) ==
              if live then LivePass(svc, old(View()), r, env) else Fresh(svc, old(View()), r, env, false)
    {
      var key, hash := r.idempotencyKey, svc.inputHash(r);
      if live {
        if key in seen {
          if seen[key].0 != hash { return Raised(IdempotencyConflict); }
          return Returned(seen[key].1);
        }
        if svc.hasApi && key in db {
          if db[key] != hash { return Raised(IdempotencyConflict); }
          var stored := LookUp(key);
          if stored.Some? {
            seen := seen[key := (hash, stored.value)];
            return Returned(stored.value);
          }
        }
      }
      outcome := FreshPass(r, env, live);
    }

    /** Scan the oldest events from the newest of them back. */
    method LookUp(key: string) returns (found: Option<Result>)
      ensures found == Visible(View(), key)
    {
      var events := Limit(journal, LOOKUP_LIMIT);
      var i := |events|;
      assert events[..i] == events;
      while i > 0
        invariant 0 <= i <= |events| && FindDecision(events, key) == FindDecision(events[..i], key)
      {
        i := i - 1;
        assert events[..i + 1][..i] == events[..i];
        if events[i].DecisionEvent? && events[i].key == key { return Some(events[i].result); }
      }
      found := None;
    }

    method FreshPass(r: Request, env: Env, live: bool) returns (outcome: Outcome)
      requires Valid()
      modifies this, halt, ledger
      ensures (View(), outcome) == Fresh(svc, old(View()), r, env, live)
    {
      if env.fault.Some? && EarlyFault(env.fault.value) { return Raised(InjectedFault(env.fault.value)); }
      var snap := ledger.ObserveOnce(ObservationOf(r, env.now));
      if live && svc.hasApi {
        if env.snapshotFails { return Raised(SnapshotIngestFailed); }
        journal := journal + [SnapshotEvent(snap)];
      }
      if env.fault.Some? && SizingFault(env.fault.value) { return Raised(InjectedFault(env.fault.value)); }
      var result := Judge(r, env);
      outcome := Finish(r, result, env, live);
    }

    method Finish(r: Request, result: Result, env: Env, live: bool) returns (outcome: Outcome)
      modifies this, halt
      ensures (View(), outcome) == Conclude(svc, old(View()), r, result, env, live)
    {
      if Trips(result.decision.final) {
        halt.Trip(result.decision.final);
      }
      if !live { return Returned(result); }
      if env.fault == Some(BeforePersist) { return Raised(InjectedFault(BeforePersist)); }
      outcome := CommitResult(r, result, env);
      if outcome.Returned? {
        seen := seen[r.idempotencyKey := (svc.inputHash(r), outcome.result)];
      }
    }

    /** Names of the blocking checks, in report order. */
    method ListFailed(checks: seq<CheckOutcome>) returns (failed: seq<CheckName>)
      ensures failed == FailedNames(checks)
    {
      failed := [];
      for i := 0 to |checks|
        invariant failed == FailedNames(checks[..i])
      {
        assert checks[..i + 1][..i] == checks[..i];
        if checks[i].blocking { failed := failed + [checks[i].name]; }
      }
      assert checks[..|checks|] == checks;
    }

    /** Sizing, checks and state for the effective request. */
    method Judge(r: Request, env: Env) returns (result: Result)
      requires Valid()
      ensures result == Decide(svc, View(), r, env)
    {
      var e := Effective(r, LedgerState(ledger.peakEquity, ledger.dailyLoss, ledger.dailyKey, ledger.losingStreak));
      var sizing := SizePosition(e, svc.config, HeadroomFor(e, svc.config), TradeBudgetFor(e, svc.config));
      var checks := RunChecks(e, svc.config, ContextWith(svc, e, sizing, halt.halted, env));
      var failed := ListFailed(checks);
      var state := StateFrom(BlockingNames(checks), sizing, e.requestedQuantity);
      var quantity := ApprovedQuantity(state, sizing);
      ApprovalMeans(BlockingNames(checks), sizing, e.requestedQuantity);
      if IsApproved(state) && quantity <= 0.0 { assert false; }
      var risk := if IsApproved(state) then Projected(sizing) else 0.0;
      var body := Decided(state, Canonical(quantity), Canonical(Projected(sizing)), failed,
                          svc.inputHash(r), svc.policyHash(svc.config), PrintReport(checks));
      var decision := Decision(env.id, state, state, env.now, e.requestedQuantity, quantity, risk,
                           Heat(HeatBefore(e)), Heat(HeatAfter(e, risk)), failed, checks,
                           if sizing.Sized? then Some(sizing.trace) else None,
                           svc.inputHash(r), svc.outputHash(body), NoReference);
      result := MakeResult(decision);
    }

    /** Event first, then key; the late faults come after both. */
    method CommitResult(r: Request, result: Result, env: Env) returns (outcome: Outcome)
      modifies this
      ensures (View(), outcome) == Commit(svc, old(View()), r, result, env)
    {
      if env.fault == Some(AfterDecisionBeforeAudit) {
        return Returned(FailClosed(svc, r, env, FaultAt(AfterDecisionBeforeAudit)));
      }
      var key, ref := r.idempotencyKey, MemoryRef(env.id);
      if svc.hasApi {
        if env.commit.IngestFailed? { return Returned(FailClosed(svc, r, env, CommitNotStored)); }
        if FindDecision(journal, key).Some? { return Raised(IdempotencyConflict); }
        journal := journal + [DecisionEvent(key, result)];
        if env.commit.KeyNotStored? { return Returned(FailClosed(svc, r, env, CommitNotStored)); }
        if key !in db { db := db[key := svc.inputHash(r)]; }
        if env.commit.StoredThenFailed? { return Returned(FailClosed(svc, r, env, CommitNotStored)); }
        ref := StoredRef(env.commit.ref);
      }
      if env.fault == Some(AfterAuditBeforeOutbox) || env.fault == Some(AfterCommit) {
        return Returned(FailClosed(svc, r, env, FaultAt(env.fault.value)));
      }
      outcome := Returned(Referenced(result, ref));
    }
  }
}
