/** What a restart of the capital gate keeps and what it forgets. */
module Restarts {
  import opened Wrappers
  import opened Decimals
  import opened CapitalContracts
  import opened Ledger
  import opened Sizing
  import opened Checks
  import opened Evaluation
  import opened EvaluationRuns
  import opened Admission

  function AfterRestart(svc: Service, s: State): State { EvaluationRuns.Step(svc, s, RestartCall).0 }

  /** Refused: an idempotency conflict or a fail-closed answer. */
  predicate Refused(outcome: Outcome)
  {
    outcome == Raised(IdempotencyConflict) || (outcome.Returned? && outcome.result.decision.final == ErrorFailClosed)
  }

  // ---------- the journal of decisions ----------

  lemma {:induction false} FoundAppend(a: seq<AuditEvent>, e: AuditEvent, key: string)
    ensures FindDecision(a + [e], key) ==
            if e.DecisionEvent? && e.key == key then Some(e.result) else FindDecision(a, key)
  {
    assert (a + [e])[..|a|] == a;
  }

  /** `b` continues `a` without another decision under the key. */
  ghost predicate AddsNoDecision(a: seq<AuditEvent>, b: seq<AuditEvent>, key: string)
  {
    a <= b && forall i :: |a| <= i < |b| ==> !(b[i].DecisionEvent? && b[i].key == key)
  }

  lemma {:induction false} FoundIsKept(a: seq<AuditEvent>, b: seq<AuditEvent>, key: string)
    requires AddsNoDecision(a, b, key)
    ensures FindDecision(b, key) == FindDecision(a, key)
  {
    if |a| == |b| {
      assert a == b;
    } else {
      var n := |b| - 1;
      FoundIsKept(a, b[..n], key);
      assert b == b[..n] + [b[n]];
      FoundAppend(b[..n], b[n], key);
    }
  }

  lemma {:induction false} ConcludeAddsOnce(
    svc: Service, s: State, r: Request, result: Result, env: Env, live: bool, key: string)
    requires Ingested(s, key)
    ensures AddsNoDecision(s.journal, Conclude(svc, s, r, result, env, live).0.journal, key)
  {
  }

  lemma {:induction false} FreshAddsOnce(svc: Service, s: State, r: Request, env: Env, live: bool, key: string)
    requires Ingested(s, key)
    ensures AddsNoDecision(s.journal, Fresh(svc, s, r, env, live).0.journal, key)
  {
    var seen := Recorded(svc, s, r, env, live);
    assert AddsNoDecision(s.journal, seen.journal, key);
    FoundIsKept(s.journal, seen.journal, key);
    ConcludeAddsOnce(svc, seen, r, Decide(svc, seen, r, env), env, live, key);
  }

  lemma {:induction false} StepAddsOnce(svc: Service, s: State, call: Call, key: string)
    requires Ingested(s, key)
    ensures AddsNoDecision(s.journal, EvaluationRuns.Step(svc, s, call).0.journal, key)
  {
    match call
    case EvaluateCall(r, env) =>
      if IsFresh(svc, s, r) {
        LivePassOfFresh(svc, s, r, env);
        FreshAddsOnce(svc, s, r, env, true, key);
      }
    case ReplayCall(original, r, env) => ReplayWritesNothing(svc, s, original, r, env);
    case _ =>
  }

  /** A decision in the journal stays the only one under its key, and the same, in every run with any number
      of restarts. */
  lemma {:induction false} StoreIsWriteOnce(svc: Service, s: State, calls: seq<Call>, key: string)
    requires Ingested(s, key)
    ensures AddsNoDecision(s.journal, Run(svc, s, calls).journal, key)
    ensures FindDecision(Run(svc, s, calls).journal, key) == FindDecision(s.journal, key)
  {
    if calls != [] {
      var prior := calls[..|calls| - 1];
      StoreIsWriteOnce(svc, s, prior, key);
      StepAddsOnce(svc, Run(svc, s, prior), calls[|calls| - 1], key);
    }
    FoundIsKept(s.journal, Run(svc, s, calls).journal, key);
  }

  // ---------- one approval per key ----------

  lemma {:induction false} KnownKeyConclusion(svc: Service, s: State, r: Request, result: Result, env: Env)
    requires svc.hasApi && Ingested(s, r.idempotencyKey)
    ensures var outcome := Conclude(svc, s, r, result, env, true).1;
            Refused(outcome) || outcome == Raised(InjectedFault(BeforePersist))
  {
  }

  /** Once the journal holds a decision under a key, every fresh evaluation of that key is refused. */
  lemma {:induction false} KnownKeyIsRefused(svc: Service, s: State, r: Request, env: Env)
    requires svc.hasApi && Ingested(s, r.idempotencyKey) && IsFresh(svc, s, r)
    ensures Refused(Evaluate(svc, s, r, env).1)
  {
    var seen := Recorded(svc, s, r, env, true);
    LivePassOfFresh(svc, s, r, env);
    FoundIsKept(s.journal, seen.journal, r.idempotencyKey);
    KnownKeyConclusion(svc, seen, r, Decide(svc, seen, r, env), env);
  }

  lemma {:induction false} ApprovalIsIngested(svc: Service, s: State, r: Request, env: Env)
    requires svc.hasApi && FreshApproval(svc, s, r, env)
    ensures Ingested(Evaluate(svc, s, r, env).0, r.idempotencyKey)
  {
    var seen := Recorded(svc, s, r, env, true);
    LivePassOfFresh(svc, s, r, env);
    ApprovedConclusion(svc, seen, r, Decide(svc, seen, r, env), env);
  }

  lemma {:induction false} ApprovedConclusion(svc: Service, s: State, r: Request, result: Result, env: Env)
    requires svc.hasApi
    ensures var (next, outcome) := Conclude(svc, s, r, result, env, true);
            outcome.Returned? && IsApproved(outcome.result.decision.final) ==>
              next.journal == s.journal + [DecisionEvent(r.idempotencyKey, result)]
              && Ingested(next, r.idempotencyKey)
  {
    FoundAppend(s.journal, DecisionEvent(r.idempotencyKey, result), r.idempotencyKey);
  }

  /** With persistence a key is approved at most once: after a fresh approval, no run with any number of
      restarts leads to another fresh approval under the same key, whatever the request. */
  lemma {:induction false} ApprovedAtMostOnce(
    svc: Service, s: State, r: Request, env: Env, calls: seq<Call>, r2: Request, env2: Env)
    requires svc.hasApi && FreshApproval(svc, s, r, env) && r2.idempotencyKey == r.idempotencyKey
    ensures !FreshApproval(svc, Run(svc, Evaluate(svc, s, r, env).0, calls), r2, env2)
  {
    var next := Evaluate(svc, s, r, env).0;
    ApprovalIsIngested(svc, s, r, env);
    StoreIsWriteOnce(svc, next, calls, r.idempotencyKey);
    var later := Run(svc, next, calls);
    if IsFresh(svc, later, r2) { KnownKeyIsRefused(svc, later, r2, env2); }
  }

  // ---------- the answer after a restart ----------

  /** The pass writes its decision event. */
  predicate WritesEvent(svc: Service, env: Env)
  {
    && Interruption(svc, env, true).None? && !env.commit.IngestFailed?
    && env.fault !in {Some(BeforePersist), Some(AfterDecisionBeforeAudit)}
  }

  /** The commit returns, and nothing fails after it. */
  predicate Undisturbed(env: Env)
  {
    env.commit.CommitOk? && env.fault !in {Some(AfterAuditBeforeOutbox), Some(AfterCommit)}
  }

  lemma {:induction false} NeverDecidesFailClosed(svc: Service, s: State, r: Request, env: Env)
    ensures Decide(svc, s, r, env).decision.final != ErrorFailClosed
  {
    var e := Effective(r, s.ledger);
    DecisionFinal(svc, s, r, env);
    FirstBlockedIsInTable(BlockingNames(ReportFor(svc, e, s.halt.halted, env)), BLOCK_MAP);
    BlockMapNeverApproves();
  }

  /** A request under a key that neither the key table nor the journal knows. */
  predicate NewKey(s: State, r: Request)
  {
    r.idempotencyKey !in s.seen && r.idempotencyKey !in s.db && !Ingested(s, r.idempotencyKey)
  }

  lemma {:induction false} ConcludeWrites(svc: Service, s: State, r: Request, result: Result, env: Env)
    requires svc.hasApi && NewKey(s, r) && WritesEvent(svc, env) && result.decision.final != ErrorFailClosed
    ensures var (next, outcome) := Conclude(svc, s, r, result, env, true);
            && next.journal == s.journal + [DecisionEvent(r.idempotencyKey, result)]
            && next.db == (if env.commit.KeyNotStored? then s.db else s.db[r.idempotencyKey := svc.inputHash(r)])
            && outcome.Returned?
            && (outcome.result.decision.final == result.decision.final <==> Undisturbed(env))
  {
  }

  /** What a first evaluation leaves in the store, and when its answer is the stored decision. */
  lemma {:induction false} EvaluateStores(svc: Service, s: State, r: Request, env: Env)
    requires svc.hasApi && NewKey(s, r) && WritesEvent(svc, env)
    ensures var (next, outcome) := Evaluate(svc, s, r, env);
            var key, decided := r.idempotencyKey, Decide(svc, Observed(s, r, env), r, env);
            && |next.journal| == |s.journal| + 2
            && next.journal[|s.journal| + 1] == DecisionEvent(key, decided)
            && FindDecision(next.journal[..|s.journal| + 1], key).None?
            && next.db == (if env.commit.KeyNotStored? then s.db else s.db[key := svc.inputHash(r)])
            && outcome.Returned?
            && (outcome.result.decision.final == decided.decision.final <==> Undisturbed(env))
  {
    var seen, key := Recorded(svc, s, r, env, true), r.idempotencyKey;
    LivePassOfFresh(svc, s, r, env);
    NeverDecidesFailClosed(svc, seen, r, env);
    assert Decide(svc, seen, r, env) == Decide(svc, Observed(s, r, env), r, env);
    FoundAppend(s.journal, seen.journal[|s.journal|], key);
    ConcludeWrites(svc, seen, r, Decide(svc, seen, r, env), env);
    assert Evaluate(svc, s, r, env).0.journal[..|s.journal| + 1] == seen.journal;
  }

  /** A stored decision is in the lookup window exactly when its event is among the first 10,000. */
  lemma {:induction false} VisibleIff(s: State, key: string, at: nat)
    requires at < |s.journal| && s.journal[at].DecisionEvent? && s.journal[at].key == key
    requires FindDecision(s.journal[..at], key).None? && AddsNoDecision(s.journal[..at + 1], s.journal, key)
    ensures Visible(s, key) == if at < LOOKUP_LIMIT then Some(s.journal[at].result) else None
    ensures Ingested(s, key)
  {
    var event, upTo := s.journal[at], s.journal[..at + 1];
    assert upTo == s.journal[..at] + [event];
    FoundAppend(s.journal[..at], event, key);
    FoundIsKept(upTo, s.journal, key);
    var window := Limit(s.journal, LOOKUP_LIMIT);
    if at < LOOKUP_LIMIT {
      assert AddsNoDecision(upTo, window, key);
      FoundIsKept(upTo, window, key);
    } else {
      NoneBefore(s.journal[..at], window, key);
    }
  }

  lemma {:induction false} NoneBefore(a: seq<AuditEvent>, prefix: seq<AuditEvent>, key: string)
    requires prefix <= a && FindDecision(a, key).None?
    ensures FindDecision(prefix, key).None?
  {
    if |prefix| < |a| { NoneBefore(a[..|a| - 1], prefix, key); } else { assert prefix == a; }
  }

  /** The request repeated after any run and a restart, given the position of its decision event: it is
      answered with the stored decision exactly when the key was stored with this input and the event is among
      the first 10,000; otherwise it is refused. */
  lemma {:induction false} RepeatedAfterRestart(svc: Service, s: State, r: Request, env: Env, at: nat)
    requires svc.hasApi && at < |s.journal|
    requires s.journal[at].DecisionEvent? && s.journal[at].key == r.idempotencyKey
    requires FindDecision(s.journal[..at], r.idempotencyKey).None?
    requires AddsNoDecision(s.journal[..at + 1], s.journal, r.idempotencyKey)
    ensures var key, again := r.idempotencyKey, Evaluate(svc, AfterRestart(svc, s), r, env).1;
            if key in s.db && s.db[key] == svc.inputHash(r) && at < LOOKUP_LIMIT then
              again == Returned(s.journal[at].result)
            else Refused(again)
  {
    var next := AfterRestart(svc, s);
    VisibleIff(s, r.idempotencyKey, at);
    assert next.journal == s.journal && next.db == s.db && next.seen == map[];
    if IsFresh(svc, next, r) { KnownKeyIsRefused(svc, next, r, env); }
  }

  /** Two states agree on what the key table holds under a key. */
  ghost predicate SameKey(s: State, next: State, key: string)
  {
    (key in next.db <==> key in s.db) && (key in s.db ==> next.db[key] == s.db[key])
  }

  lemma {:induction false} ConcludeKeepsKey(
    svc: Service, s: State, r: Request, result: Result, env: Env, live: bool, key: string)
    requires Ingested(s, key)
    ensures SameKey(s, Conclude(svc, s, r, result, env, live).0, key)
  {
  }

  lemma {:induction false} FreshKeepsKey(svc: Service, s: State, r: Request, env: Env, live: bool, key: string)
    requires Ingested(s, key)
    ensures SameKey(s, Fresh(svc, s, r, env, live).0, key)
  {
    var seen := Recorded(svc, s, r, env, live);
    FoundIsKept(s.journal, seen.journal, key);
    ConcludeKeepsKey(svc, seen, r, Decide(svc, seen, r, env), env, live, key);
  }

  lemma {:induction false} StepKeepsKey(svc: Service, s: State, call: Call, key: string)
    requires Ingested(s, key)
    ensures SameKey(s, EvaluationRuns.Step(svc, s, call).0, key)
  {
    match call
    case EvaluateCall(r, env) =>
      if IsFresh(svc, s, r) {
        LivePassOfFresh(svc, s, r, env);
        FreshKeepsKey(svc, s, r, env, true, key);
      }
    case ReplayCall(original, r, env) => ReplayWritesNothing(svc, s, original, r, env);
    case _ =>
  }

  /** Once the journal holds a decision, whether its key was stored never changes. */
  lemma {:induction false} KeysAreKept(svc: Service, s: State, calls: seq<Call>, key: string)
    requires Ingested(s, key)
    ensures SameKey(s, Run(svc, s, calls), key)
  {
    if calls != [] {
      var prior := calls[..|calls| - 1];
      KeysAreKept(svc, s, prior, key);
      StoreIsWriteOnce(svc, s, prior, key);
      StepKeepsKey(svc, Run(svc, s, prior), calls[|calls| - 1], key);
    }
  }

  /** A first evaluation that wrote its decision event, then any run, then a restart: the repeated request gets
      the stored decision exactly when the key was stored too and the event came among the first 10,000, and is
      refused otherwise. A repeated answer agrees with the first one exactly when nothing failed in or after
      the commit. */
  lemma {:induction false} RestartAgreesIff(
    svc: Service, s: State, r: Request, env: Env, calls: seq<Call>, env2: Env)
    requires svc.hasApi && NewKey(s, r) && WritesEvent(svc, env)
    ensures var (next, first) := Evaluate(svc, s, r, env);
            var again := Evaluate(svc, AfterRestart(svc, Run(svc, next, calls)), r, env2).1;
            && first.Returned?
            && (if !env.commit.KeyNotStored? && |s.journal| + 1 < LOOKUP_LIMIT then
                  && again == Returned(Decide(svc, Observed(s, r, env), r, env))
                  && (again.result.decision.final == first.result.decision.final <==> Undisturbed(env))
                else Refused(again))
  {
    var next := Evaluate(svc, s, r, env).0;
    EvaluateStores(svc, s, r, env);
    LaterPosition(svc, next, calls, r.idempotencyKey, |s.journal| + 1);
    OnlyDecisionFound(next.journal, r.idempotencyKey, |s.journal| + 1);
    KeysAreKept(svc, next, calls, r.idempotencyKey);
    RepeatedAfterRestart(svc, Run(svc, next, calls), r, env2, |s.journal| + 1);
  }

  lemma {:induction false} OnlyDecisionFound(events: seq<AuditEvent>, key: string, at: nat)
    requires |events| == at + 1 && events[at].DecisionEvent? && events[at].key == key
    ensures FindDecision(events, key) == Some(events[at].result)
  {
  }

  /** The last event of a journal, the only decision under its key, keeps its place in every run. */
  lemma {:induction false} LaterPosition(svc: Service, s: State, calls: seq<Call>, key: string, at: nat)
    requires |s.journal| == at + 1 && s.journal[at].DecisionEvent? && s.journal[at].key == key
    requires FindDecision(s.journal[..at], key).None?
    ensures var later := Run(svc, s, calls).journal;
            && at < |later| && later[at] == s.journal[at] && FindDecision(later[..at], key).None?
            && AddsNoDecision(later[..at + 1], later, key)
  {
    OnlyDecisionFound(s.journal, key, at);
    StoreIsWriteOnce(svc, s, calls, key);
    var later := Run(svc, s, calls).journal;
    assert later[..at + 1] == s.journal && later[..at] == s.journal[..at];
  }

  /** The failing case at its plainest: a fault after the commit answers fail-closed and memoises that answer,
      while the store keeps the decision it committed and a restarted service returns it. */
  lemma {:induction false} CommittedDecisionOutlivesFault(svc: Service, s: State, r: Request, env: Env, env2: Env)
    requires svc.hasApi && NewKey(s, r) && |s.journal| + 1 < LOOKUP_LIMIT
    requires env.fault == Some(AfterCommit) && env.commit.CommitOk? && !env.snapshotFails
    ensures var decided := Decide(svc, Observed(s, r, env), r, env);
            var (next, outcome) := Evaluate(svc, s, r, env);
            && outcome.Returned? && outcome.result.decision.final == ErrorFailClosed
            && Evaluate(svc, next, r, env2).1 == outcome
            && Evaluate(svc, AfterRestart(svc, next), r, env2).1 == Returned(decided)
  {
    var seen := Recorded(svc, s, r, env, true);
    LivePassOfFresh(svc, s, r, env);
    assert WritesEvent(svc, env);
    FoundAppend(s.journal, seen.journal[|s.journal|], r.idempotencyKey);
    FaultConclusion(svc, seen, r, Decide(svc, seen, r, env), env);
    MemoAnswers(svc, Evaluate(svc, s, r, env).0, r, env2);
    RestartAgreesIff(svc, s, r, env, [], env2);
  }

  lemma {:induction false} FaultConclusion(svc: Service, s: State, r: Request, result: Result, env: Env)
    requires svc.hasApi && NewKey(s, r) && env.fault == Some(AfterCommit) && env.commit.CommitOk?
    ensures var (next, outcome) := Conclude(svc, s, r, result, env, true);
            && outcome == Returned(FailClosed(svc, r, env, FaultAt(AfterCommit)))
            && r.idempotencyKey in next.seen
            && next.seen[r.idempotencyKey] == (svc.inputHash(r), FailClosed(svc, r, env, FaultAt(AfterCommit)))
  {
  }

  // ---------- the latch ----------

  /** What blocks the system on its own: the request asks for a halt, the control state is not one of the
      working ones, or persistence is not available. */
  predicate SystemTrouble(svc: Service, r: Request, env: Env)
  {
    || r.safeHalt
    || r.controlState !in {"active", "armed", "normal"}
    || !PersistenceOk(svc, r, env)
  }

  /** The gate answers BLOCKED_SYSTEM exactly when the latch is set or the request brings its own trouble. */
  lemma {:induction false} SystemBlockIff(svc: Service, e: Request, halted: bool, env: Env)
    ensures StateFor(svc, e, halted, env) == BlockedSystem <==> halted || SystemTrouble(svc, e, env)
  {
    var x := ContextFor(svc, e, halted, env);
    DecisionIsVerdict(svc, e, halted, env);
    ContextMeans(svc, e, halted, env);
    SystemViolations(e, svc.config, x);
    VerdictOfSystem(Violations(e, svc.config, x), LotsOf(SizeFor(e, svc.config)), e.requestedQuantity);
  }

  /** No fault, no storage failure. */
  predicate Quiet(svc: Service, env: Env)
  {
    env.fault.None? && (svc.hasApi ==> !env.snapshotFails && env.commit.CommitOk?)
  }

  lemma {:induction false} QuietConclusion(svc: Service, s: State, r: Request, result: Result, env: Env)
    requires Quiet(svc, env) && (svc.hasApi ==> !Ingested(s, r.idempotencyKey))
    ensures var outcome := Conclude(svc, s, r, result, env, true).1;
            outcome.Returned? && outcome.result.decision.final == result.decision.final
  {
  }

  lemma {:induction false} QuietAnswer(svc: Service, s: State, r: Request, env: Env)
    requires NewKey(s, r) && Quiet(svc, env)
    ensures var outcome := Evaluate(svc, s, r, env).1;
            && outcome.Returned?
            && outcome.result.decision.final ==
               StateFor(svc, Effective(r, Observed(s, r, env).ledger), s.halt.halted, env)
  {
    var seen := Recorded(svc, s, r, env, true);
    LivePassOfFresh(svc, s, r, env);
    DecisionFinal(svc, seen, r, env);
    FoundIsKept(s.journal, seen.journal, r.idempotencyKey);
    QuietConclusion(svc, seen, r, Decide(svc, seen, r, env), env);
  }

  lemma {:induction false} TroubleIsTheRequests(svc: Service, r: Request, ledger: LedgerState, env: Env)
    ensures SystemTrouble(svc, Effective(r, ledger), env) <==> SystemTrouble(svc, r, env)
  {
  }

  /** A request under a new key meets BLOCKED_SYSTEM exactly when the latch is set or it brings trouble of its
      own. */
  lemma {:induction false} QuietSystemBlock(svc: Service, s: State, r: Request, env: Env)
    requires NewKey(s, r) && Quiet(svc, env)
    ensures var outcome := Evaluate(svc, s, r, env).1;
            && outcome.Returned?
            && (outcome.result.decision.final == BlockedSystem <==> s.halt.halted || SystemTrouble(svc, r, env))
  {
    QuietAnswer(svc, s, r, env);
    SystemBlockIff(svc, Effective(r, Observed(s, r, env).ledger), s.halt.halted, env);
    TroubleIsTheRequests(svc, r, Observed(s, r, env).ledger, env);
  }

  lemma {:induction false} RestartClears(svc: Service, s: State, r: Request)
    requires NewKey(s, r)
    ensures NewKey(AfterRestart(svc, s), r) && !AfterRestart(svc, s).halt.halted
  {
  }

  /** A new request that a halted service answers with BLOCKED_SYSTEM gets that answer from the restarted
      service exactly when it brings trouble of its own: the restart has forgotten the latch. */
  lemma {:induction false} RestartForgetsLatch(svc: Service, s: State, r: Request, env: Env)
    requires s.halt.halted && NewKey(s, r) && Quiet(svc, env)
    ensures var before := Evaluate(svc, s, r, env).1;
            var after := Evaluate(svc, AfterRestart(svc, s), r, env).1;
            && before.Returned? && before.result.decision.final == BlockedSystem
            && after.Returned? && (after.result.decision.final == BlockedSystem <==> SystemTrouble(svc, r, env))
  {
    QuietSystemBlock(svc, s, r, env);
    RestartClears(svc, s, r);
    QuietSystemBlock(svc, AfterRestart(svc, s), r, env);
  }

  // ---------- a halted service that approves after a restart ----------

  /** A small policy: ten units a lot, whole lots from one to five, one per cent a trade. */
  predicate CalmPolicy(c: Config)
  {
    && c.contractSize == 10.0 && c.lotStep == Dec(1, 0) && c.minLots == 1.0 && c.maxLots == 5.0
    && c.maxPerTradeRiskPct == 0.01 && c.maxDailyLossPct == 0.05 && c.maxEffectiveHeat == 0.05 && c.ddFreeze == 0.2
    && !c.includeTransactionCosts && !c.requireModel && c.consecutiveLossLimit == 3 && c.equityFloor == 0.0
  }

  /** One lot bought at 2 with a stop at 1, on an account of 10,000 at its peak with nothing open. */
  predicate CalmTrade(r: Request)
  {
    && r.side == Buy && r.requestedQuantity == 1.0 && r.entryPrice == 2.0 && r.stopLossPrice == 1.0
    && r.accountEquity == 10000.0 && r.peakEquity == 10000.0 && r.realizedPnlDay == 0.0 && r.losingStreak == 0
    && r.openPositionRisk == 0.0 && r.pendingOrderRisk == 0.0 && !r.exposureUnknown
    && r.conversionRate == Some(1.0) && r.contractSize.None? && r.volumeStep.None?
  }

  lemma {:induction false} CalmInputs(r: Request, c: Config)
    requires CalmPolicy(c) && CalmTrade(r)
    ensures HeadroomFor(r, c) == 0.05 && TradeBudgetFor(r, c) == 100.0
    ensures NetBudget(r, c, 0.05, 100.0) == 100.0 && RiskPerLot(r, c, 1.0) == 10.0
    ensures SizingGuard(r, c, 0.05, 100.0).None?
  {
  }

  lemma {:induction false} CalmRounding()
    ensures Lots(1.0, 1.0, Quantum(Dec(1, 0))) == 1.0
  {
  }

  lemma {:induction false} CalmSize(r: Request, c: Config)
    requires CalmPolicy(c) && CalmTrade(r)
    ensures var sizing := SizeFor(r, c);
            sizing.Sized? && sizing.trace.rounded == 1.0 && sizing.trace.finalRisk == 10.0
  {
    CalmInputs(r, c);
    CalmRounding();
    assert Theoretical(r, c, 0.05, 100.0) == 10.0;
  }

  const CALM_CONFIG := Config(
    10.0, Dec(1, 0), 1.0, 5.0, 0.01, 0.05, 0.05, 0.2, false, false, 1.0, 1.0, 1.0, 1.0, 0.0, 1.0, 0.5, 2.0,
    60, 60, 60, 5, 1.0, 1.0, 1.0, 1.0, 1.0, 3, 0.0, 0.0, ["london"], ["EURUSD"])

  const CALM_REQUEST := Request(
    "k", "s", "1", "p", "1", "EURUSD", Buy, 1.0, 2.0, 1.0, None, "", "", None, None, 0.0, 0.0, 0.0, 0.0,
    10000.0, 10000.0, 10000.0, 0.0, 0.0, 0.0, 0, 0, 0.0, 0.0, 0.0, 0.0, 0.0, 0.0,
    Some(1.0), None, None, 0, "london", "trend", 0, 0, 0, 0, false, false, false,
    "ok", false, false, "active", None, "", true)

  lemma {:induction false} CalmCheckPasses(n: CheckName, x: Context)
    requires !x.halt && x.persistenceOk && x.projected == Some(10.0) && x.sizingError.None?
    ensures !CheckOf(n, CALM_REQUEST, CALM_CONFIG, x).blocking
  {
  }

  lemma {:induction false} CalmReport(r: Request, c: Config, x: Context)
    requires r == CALM_REQUEST && c == CALM_CONFIG
    requires !x.halt && x.persistenceOk && x.projected == Some(10.0) && x.sizingError.None?
    ensures BlockingNames(Report(r, c, x)) == {}
  {
    forall o | o in Report(r, c, x)
      ensures !o.blocking
    {
      var i :| 0 <= i < 40 && o == Report(r, c, x)[i];
      CalmCheckPasses(CATALOG[i], x);
    }
  }

  lemma {:induction false} NothingBlockingApproves(blocking: set<CheckName>, sizing: SizingResult, requested: real)
    requires blocking == {} && sizing.Sized? && sizing.trace.rounded == requested > 0.0
    ensures StateFrom(blocking, sizing, requested) == Approved
  {
    FirstBlockedIsInTable(blocking, BLOCK_MAP);
  }

  lemma {:induction false} CalmIsCalm()
    ensures CalmPolicy(CALM_CONFIG) && CALM_CONFIG.Valid() && CalmTrade(CALM_REQUEST)
  {
  }

  lemma {:induction false} CalmContext(svc: Service, r: Request, env: Env)
    requires svc.config == CALM_CONFIG && r == CALM_REQUEST && PersistenceOk(svc, r, env)
    ensures var x := ContextFor(svc, r, false, env);
            !x.halt && x.persistenceOk && x.projected == Some(10.0) && x.sizingError.None?
  {
    CalmIsCalm();
    CalmSize(r, svc.config);
  }

  lemma {:induction false} CalmNothingBlocks(svc: Service, r: Request, env: Env)
    requires svc.config == CALM_CONFIG && r == CALM_REQUEST && PersistenceOk(svc, r, env)
    ensures BlockingNames(ReportFor(svc, r, false, env)) == {}
  {
    CalmContext(svc, r, env);
    CalmReport(r, svc.config, ContextFor(svc, r, false, env));
  }

  lemma {:induction false} ApprovedWhenUnblocked(svc: Service, r: Request, env: Env)
    requires BlockingNames(ReportFor(svc, r, false, env)) == {}
    requires CalmPolicy(svc.config) && CalmTrade(r)
    ensures StateFor(svc, r, false, env) == Approved
  {
    CalmSize(r, svc.config);
    NothingBlockingApproves(BlockingNames(ReportFor(svc, r, false, env)), SizeFor(r, svc.config), r.requestedQuantity);
  }

  lemma {:induction false} CalmIsApproved(svc: Service, r: Request, env: Env)
    requires svc.config == CALM_CONFIG && r == CALM_REQUEST && PersistenceOk(svc, r, env)
    ensures StateFor(svc, r, false, env) == Approved
  {
    CalmNothingBlocks(svc, r, env);
    CalmIsCalm();
    ApprovedWhenUnblocked(svc, r, env);
  }

  /** The ledger of a service that has seen nothing but calm figures, if anything. */
  predicate CalmLedger(ledger: LedgerState)
  {
    ledger == FRESH || ledger == LedgerState(Some(10000.0), 0.0, Some(0), 0)
  }

  lemma {:induction false} CalmIsEffective(s: State, r: Request, env: Env)
    requires CalmLedger(s.ledger) && r == CALM_REQUEST && ReachesLedger(env) && env.now == 0
    ensures Effective(r, Observed(s, r, env).ledger) == r
  {
  }

  lemma {:induction false} CalmAnswer(svc: Service, s: State, r: Request, env: Env)
    requires svc.config == CALM_CONFIG && r == CALM_REQUEST && PersistenceOk(svc, r, env) && env.now == 0
    requires CalmLedger(s.ledger) && !s.halt.halted && NewKey(s, r) && Quiet(svc, env)
    ensures var outcome := Evaluate(svc, s, r, env).1;
            outcome.Returned? && outcome.result.decision.final == Approved
  {
    QuietAnswer(svc, s, r, env);
    CalmIsEffective(s, r, env);
    CalmIsApproved(svc, r, env);
  }

  ghost predicate NothingUnder(s: State, key: string)
  {
    key !in s.seen && key !in s.db && FindDecision(s.journal, key).None? && |s.journal| <= 2
  }

  lemma {:induction false} FirstRecorded(svc: Service, s: State, r: Request, env: Env, key: string)
    requires s.journal == []
    ensures var seen := Recorded(svc, s, r, env, true); |seen.journal| <= 1 && !Ingested(seen, key)
  {
    FoundIsKept(s.journal, Recorded(svc, s, r, env, true).journal, key);
  }

  lemma {:induction false} FirstPassKeys(svc: Service, s: State, r: Request, env: Env, other: string)
    requires s.seen == map[] && s.db == map[] && s.journal == [] && other != r.idempotencyKey
    ensures NothingUnder(Fresh(svc, s, r, env, true).0, other)
  {
    var seen := Recorded(svc, s, r, env, true);
    FirstRecorded(svc, s, r, env, other);
    ConcludeOtherKey(svc, seen, r, Decide(svc, seen, r, env), env, other);
    FoundIsKept(seen.journal, Fresh(svc, s, r, env, true).0.journal, other);
  }

  /** What the first call on an empty store leaves under other keys. */
  lemma {:induction false} FirstCallKeys(svc: Service, s: State, r: Request, env: Env, other: string)
    requires s.seen == map[] && s.db == map[] && s.journal == [] && other != r.idempotencyKey
    requires IsFresh(svc, s, r)
    ensures NothingUnder(Evaluate(svc, s, r, env).0, other)
  {
    LivePassOfFresh(svc, s, r, env);
    FirstPassKeys(svc, s, r, env, other);
  }

  /** And its snapshot of the ledger it has moved. */
  lemma {:induction false} FirstCallSnapshot(svc: Service, s: State, r: Request, env: Env)
    requires IsFresh(svc, s, r) && StoresSnapshot(svc, env, true)
    ensures var next := Evaluate(svc, s, r, env).0;
            next.ledger.peak.Some? && LatestSnapshot(next.journal) == Some(TakeSnapshot(next.ledger))
  {
    var seen := Recorded(svc, s, r, env, true);
    EvaluateLedger(svc, s, r, env);
    NewSnapshotIsLatest(s.journal, TakeSnapshot(seen.ledger));
    LatestIsKept(seen.journal, Evaluate(svc, s, r, env).0.journal);
  }

  lemma {:induction false} ConcludeOtherKey(
    svc: Service, s: State, r: Request, result: Result, env: Env, other: string)
    requires other != r.idempotencyKey
    ensures var next := Conclude(svc, s, r, result, env, true).0;
            && (other in next.seen ==> other in s.seen) && (other in next.db ==> other in s.db)
            && AddsNoDecision(s.journal, next.journal, other) && |next.journal| <= |s.journal| + 1
  {
  }

  /** The calm request under another key, asking for a halt. */
  const HALTING_REQUEST := CALM_REQUEST.(idempotencyKey := "j", safeHalt := true)

  lemma {:induction false} HaltingLedger(s: State, r: Request, env: Env)
    requires s.ledger == FRESH && r == HALTING_REQUEST && ReachesLedger(env) && env.now == 0
    ensures Observed(s, r, env).ledger == LedgerState(Some(10000.0), 0.0, Some(0), 0)
  {
  }

  lemma {:induction false} CalmReload(svc: Service, s: State)
    requires s.ledger == LedgerState(Some(10000.0), 0.0, Some(0), 0) && |s.journal| <= 2
    requires svc.hasApi ==> LatestSnapshot(s.journal) == Some(TakeSnapshot(s.ledger))
    ensures CalmLedger(AfterRestart(svc, s).ledger)
  {
    ZeroOnGrid();
    assert 10000.0 == Parse(1000000000000);
    ParsedIsOnGrid(1000000000000);
    RestoreTakesBack(s.ledger);
  }

  lemma {:induction false} HaltingTrips(svc: Service, s: State, r: Request, env: Env)
    requires NewKey(s, r) && Quiet(svc, env) && r.safeHalt
    ensures Evaluate(svc, s, r, env).0.halt.halted
  {
    SystemBlockIff(svc, Effective(r, Observed(s, r, env).ledger), s.halt.halted, env);
    LivePassOfFresh(svc, s, r, env);
    FreshLatch(svc, s, r, env, true);
  }

  /** After the halting request, on an empty store. */
  ghost predicate HaltedCalm(svc: Service, s: State, key: string)
  {
    && s.halt.halted && s.ledger == LedgerState(Some(10000.0), 0.0, Some(0), 0) && |s.journal| <= 2
    && key !in s.seen && key !in s.db && !Ingested(s, key)
    && (svc.hasApi ==> LatestSnapshot(s.journal) == Some(TakeSnapshot(s.ledger)))
  }

  lemma {:induction false} HaltingLeaves(svc: Service, start: State, first: Request, env: Env, key: string)
    requires start == GENESIS && first == HALTING_REQUEST && key != first.idempotencyKey
    requires Quiet(svc, env) && env.now == 0
    ensures HaltedCalm(svc, Evaluate(svc, start, first, env).0, key)
  {
    FirstCallKeys(svc, start, first, env, key);
    EvaluateLedger(svc, start, first, env);
    if svc.hasApi { FirstCallSnapshot(svc, start, first, env); }
    HaltingLedger(start, first, env);
    HaltingTrips(svc, start, first, env);
  }

  lemma {:induction false} HaltedCalmRefuses(svc: Service, s: State, r: Request, env: Env)
    requires HaltedCalm(svc, s, r.idempotencyKey) && Quiet(svc, env)
    ensures var before := Evaluate(svc, s, r, env).1;
            before.Returned? && before.result.decision.final == BlockedSystem
  {
    QuietSystemBlock(svc, s, r, env);
  }

  lemma {:induction false} RestartedCalm(svc: Service, s: State, r: Request)
    requires HaltedCalm(svc, s, r.idempotencyKey)
    ensures var next := AfterRestart(svc, s); CalmLedger(next.ledger) && !next.halt.halted && NewKey(next, r)
  {
    CalmReload(svc, s);
  }

  /** One run: a first request asks for a halt and trips the latch; the next one is refused with
      BLOCKED_SYSTEM, and approved once the service is restarted. */
  lemma {:induction false} RefusedThenApproved(svc: Service, start: State, first: Request, r: Request, env: Env)
    requires svc.config == CALM_CONFIG && (svc.requirePersistence ==> svc.hasApi)
    requires start == GENESIS && first == HALTING_REQUEST && r == CALM_REQUEST
    requires env == Env(0, true, false, false, CommitOk("ref"), None, 0, 1)
    ensures var s := Evaluate(svc, start, first, env).0;
            var before := Evaluate(svc, s, r, env).1;
            var after := Evaluate(svc, AfterRestart(svc, s), r, env).1;
            && before.Returned? && before.result.decision.final == BlockedSystem
            && after.Returned? && after.result.decision.final == Approved
  {
    HaltingLeaves(svc, start, first, env, r.idempotencyKey);
    var s := Evaluate(svc, start, first, env).0;
    HaltedCalmRefuses(svc, s, r, env);
    RestartedCalm(svc, s, r);
    CalmAnswer(svc, AfterRestart(svc, s), r, env);
  }
}
