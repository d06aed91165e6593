/** What every run of the capital gate keeps: safety of approvals, the latch, the memo, replay. */
module EvaluationRuns {
  import opened Wrappers
  import opened Decimals
  import opened CapitalContracts
  import opened Ledger
  import opened Sizing
  import opened Checks
  import opened Evaluation

  /** What can happen to a service: its three operations, a new process on the same store, and events that
      reach the journal besides its snapshots and decisions, its divergence reports included. */
  datatype Call =
    | EvaluateCall(r: Request, env: Env)
    | ReplayCall(original: Result, r: Request, env: Env)
    | RecoverCall(actor: string, why: string)
    | RestartCall
    | OtherEventsCall(count: nat)

  function OtherEvents(n: nat): (events: seq<AuditEvent>)
    ensures |events| == n && forall i :: 0 <= i < n ==> events[i] == OtherEvent
  {
    seq(n, _ => OtherEvent)
  }

  function Step(svc: Service, s: State, call: Call): (State, Outcome)
  {
    match call
    case EvaluateCall(r, env) => Evaluate(svc, s, r, env)
    case ReplayCall(original, r, env) => Replay(svc, s, original, r, env)
    case RecoverCall(actor, why) => Recover(s, actor, why)
    case RestartCall => (Restart(svc, s.db, s.journal), Done)
    case OtherEventsCall(count) => (s.(journal := s.journal + OtherEvents(count)), Done)
  }

  function Run(svc: Service, s: State, calls: seq<Call>): State
  {
    if calls == [] then s
    else Step(svc, Run(svc, s, calls[..|calls| - 1]), calls[|calls| - 1]).0
  }

  /** The first process on an empty store. */
  const GENESIS := State(FRESH, Halt(false, NeverTripped), map[], map[], [])

  // ---------- what a run has observed ----------

  /** The observation a call makes, if it gets as far as the ledger. */
  function ObservedBy(svc: Service, s: State, call: Call): seq<Observation>
  {
    match call
    case EvaluateCall(r, env) =>
      if IsFresh(svc, s, r) && ReachesLedger(env) then [ObservationOf(r, env.now)] else []
    case ReplayCall(_, r, env) =>
      if ReachesLedger(env) then [ObservationOf(r, env.now)] else []
    case _ => []
  }

  /** Whether a call stores a snapshot. */
  predicate Saves(svc: Service, s: State, call: Call)
  {
    call.EvaluateCall? && IsFresh(svc, s, call.r) && StoresSnapshot(svc, call.env, true)
  }

  /** `b` continues `a` without another snapshot. */
  ghost predicate AddsNoSnapshot(a: seq<AuditEvent>, b: seq<AuditEvent>)
  {
    a <= b && forall i :: |a| <= i < |b| ==> !b[i].SnapshotEvent?
  }

  lemma {:induction false} ConcludeKeepsLedger(svc: Service, s: State, r: Request, result: Result, env: Env, live: bool)
    ensures var next := Conclude(svc, s, r, result, env, live).0;
            && next.ledger == s.ledger && AddsNoSnapshot(s.journal, next.journal)
            && (!live ==> next.journal == s.journal)
  {
  }

  lemma {:induction false} FreshLedger(svc: Service, s: State, r: Request, env: Env, live: bool)
    ensures var next := Fresh(svc, s, r, env, live).0;
            && next.ledger == Observed(s, r, env).ledger
            && AddsNoSnapshot(Recorded(svc, s, r, env, live).journal, next.journal)
            && (!live ==> next.journal == s.journal)
  {
    var seen := Recorded(svc, s, r, env, live);
    ConcludeKeepsLedger(svc, seen, r, Decide(svc, seen, r, env), env, live);
  }

  lemma {:induction false} EvaluateLedger(svc: Service, s: State, r: Request, env: Env)
    ensures var next := Evaluate(svc, s, r, env).0;
            if IsFresh(svc, s, r) then
              && next.ledger == Observed(s, r, env).ledger
              && AddsNoSnapshot(Recorded(svc, s, r, env, true).journal, next.journal)
            else next.ledger == s.ledger && next.journal == s.journal
  {
    if IsFresh(svc, s, r) {
      LivePassOfFresh(svc, s, r, env);
      FreshLedger(svc, s, r, env, true);
    }
  }

  lemma {:induction false} ReplayLedger(svc: Service, s: State, original: Result, r: Request, env: Env)
    ensures var next := Replay(svc, s, original, r, env).0;
            next.ledger == Observed(s, r, env).ledger && next.journal == s.journal
  {
    FreshLedger(svc, s, r, env, false);
  }

  lemma {:induction false} FoldUpToOne(s: LedgerState, o: Observation)
    ensures Fold(s, []) == s && Fold(s, [o]) == Observe(s, o)
  {
    FoldAppend(s, [], o);
    assert [] + [o] == [o];
  }

  /** What a call does to the ledger and to the journal, restarts apart. */
  lemma {:induction false} StepLedger(svc: Service, s: State, call: Call)
    requires !call.RestartCall?
    ensures var next := Step(svc, s, call).0;
            && next.ledger == Fold(s.ledger, ObservedBy(svc, s, call))
            && (Saves(svc, s, call) ==>
                  && next.ledger.peak.Some?
                  && AddsNoSnapshot(s.journal + [SnapshotEvent(TakeSnapshot(next.ledger))], next.journal))
            && (!Saves(svc, s, call) ==> AddsNoSnapshot(s.journal, next.journal))
  {
    if call.EvaluateCall? || call.ReplayCall? { FoldUpToOne(s.ledger, ObservationOf(call.r, call.env.now)); }
    match call
    case EvaluateCall(r, env) => EvaluateLedger(svc, s, r, env);
    case ReplayCall(original, r, env) => ReplayLedger(svc, s, original, r, env);
    case _ =>
  }

  lemma {:induction false} FoldConcat(s: LedgerState, a: seq<Observation>, b: seq<Observation>)
    ensures Fold(s, a + b) == Fold(Fold(s, a), b)
  {
    if b == [] {
      assert a + b == a;
    } else {
      var n := |b| - 1;
      FoldConcat(s, a, b[..n]);
      assert (a + b)[..|a| + n] == a + b[..n];
    }
  }

  // ---------- what a run remembers ----------

  /** An observation and the call that made it. */
  datatype Note = Note(call: nat, seen: Observation)

  function Notes(call: nat, observed: seq<Observation>): (notes: seq<Note>)
    ensures |notes| == |observed| && forall i :: 0 <= i < |notes| ==> notes[i].call == call
  {
    seq(|observed|, i requires 0 <= i < |observed| => Note(call, observed[i]))
  }

  function Seen(notes: seq<Note>): (history: seq<Observation>)
    ensures |history| == |notes|
  {
    seq(|notes|, i requires 0 <= i < |notes| => notes[i].seen)
  }

  /** The observations the ledger stands for, and those the last stored snapshot stands for. */
  datatype Memory = Memory(all: seq<Note>, saved: seq<Note>)

  /** A snapshot saves everything remembered; a restart falls back to what was saved. */
  function Remember(svc: Service, s: State, m: Memory, n: nat, call: Call): Memory
  {
    var all := m.all + Notes(n, ObservedBy(svc, s, call));
    if call.RestartCall? then Memory(m.saved, m.saved)
    else Memory(all, if Saves(svc, s, call) then all else m.saved)
  }

  function Remembered(svc: Service, s: State, calls: seq<Call>): Memory
  {
    if calls == [] then Memory([], [])
    else
      var n := |calls| - 1;
      Remember(svc, Run(svc, s, calls[..n]), Remembered(svc, s, calls[..n]), n, calls[n])
  }

  predicate GridRequest(r: Request) { OnGrid(r.accountEquity) && OnGrid(r.peakEquity) && OnGrid(r.realizedPnlDay) }

  predicate GridCall(call: Call) { call.EvaluateCall? || call.ReplayCall? ==> GridRequest(call.r) }

  /** The reload window holds the newest snapshot. */
  predicate WindowHoldsLatest(journal: seq<AuditEvent>)
  {
    LatestSnapshot(Limit(journal, RELOAD_LIMIT)) == LatestSnapshot(journal)
  }

  /** Every restart happens while the reload window holds the newest snapshot, after requests on the
      eight-decimal grid that their contract enforces. */
  ghost predicate SoundRestarts(svc: Service, s: State, calls: seq<Call>)
  {
    forall i :: 0 <= i < |calls| && calls[i].RestartCall? ==>
      WindowHoldsLatest(Run(svc, s, calls[..i]).journal) && forall j :: 0 <= j < i ==> GridCall(calls[j])
  }

  lemma {:induction false} PrefixIsSound(svc: Service, s: State, calls: seq<Call>, n: nat)
    requires SoundRestarts(svc, s, calls) && n <= |calls|
    ensures SoundRestarts(svc, s, calls[..n])
  {
    forall i | 0 <= i < n && calls[i].RestartCall?
      ensures WindowHoldsLatest(Run(svc, s, calls[..n][..i]).journal)
    {
      assert calls[..n][..i] == calls[..i];
    }
  }

  ghost predicate AllGrid(history: seq<Observation>)
  {
    forall i :: 0 <= i < |history| ==> GridObservation(history[i])
  }

  lemma {:induction false} RememberedIsGrid(svc: Service, s: State, calls: seq<Call>)
    requires forall i :: 0 <= i < |calls| ==> GridCall(calls[i])
    ensures AllGrid(Seen(Remembered(svc, s, calls).all)) && AllGrid(Seen(Remembered(svc, s, calls).saved))
  {
    if calls != [] {
      var n := |calls| - 1;
      var m, observed := Remembered(svc, s, calls[..n]), ObservedBy(svc, Run(svc, s, calls[..n]), calls[n]);
      RememberedIsGrid(svc, s, calls[..n]);
      ZeroOnGrid();
      assert AllGrid(observed);
      assert Seen(m.all + Notes(n, observed)) == Seen(m.all) + observed;
    }
  }

  lemma {:induction false} FoldKeepsGrid(history: seq<Observation>)
    requires AllGrid(history)
    ensures OnGrid(Fold(FRESH, history).dailyLoss)
    ensures history != [] ==> GridState(Fold(FRESH, history))
  {
    if history == [] {
      ZeroOnGrid();
    } else {
      var n := |history| - 1;
      FoldKeepsGrid(history[..n]);
      ObserveKeepsGrid(Fold(FRESH, history[..n]), history[n]);
    }
  }

  /** The newest snapshot of a journal is that of the saved observations, if there are any. */
  ghost predicate SnapshotOf(journal: seq<AuditEvent>, saved: seq<Observation>)
  {
    match LatestSnapshot(journal)
    case None => saved == []
    case Some(snap) => saved != [] && Fold(FRESH, saved).peak.Some? && snap == TakeSnapshot(Fold(FRESH, saved))
  }

  lemma {:induction false} LatestIsKept(a: seq<AuditEvent>, b: seq<AuditEvent>)
    requires AddsNoSnapshot(a, b)
    ensures LatestSnapshot(b) == LatestSnapshot(a)
  {
    if |a| == |b| {
      assert a == b;
    } else {
      LatestIsKept(a, b[..|b| - 1]);
    }
  }

  lemma {:induction false} NewSnapshotIsLatest(journal: seq<AuditEvent>, snap: Snapshot)
    ensures LatestSnapshot(journal + [SnapshotEvent(snap)]) == Some(snap)
  {
  }

  lemma {:induction false} ReloadedIsSaved(journal: seq<AuditEvent>, saved: seq<Observation>)
    requires SnapshotOf(journal, saved) && AllGrid(saved) && WindowHoldsLatest(journal)
    ensures Reloaded(journal) == Fold(FRESH, saved)
  {
    if saved != [] {
      FoldKeepsGrid(saved);
      RestoreTakesBack(Fold(FRESH, saved));
    }
  }

  /** What memory promises of a state. */
  ghost predicate Stands(svc: Service, s: State, m: Memory)
  {
    && s.ledger == Fold(FRESH, Seen(m.all))
    && SnapshotOf(s.journal, Seen(m.saved))
    && (!svc.hasApi ==> m.saved == [])
  }

  lemma {:induction false} SavingStands(
    svc: Service, s: State, next: State, m: Memory, n: nat, observed: seq<Observation>)
    requires Stands(svc, s, m) && svc.hasApi && observed != []
    requires next.ledger == Fold(s.ledger, observed) && next.ledger.peak.Some?
    requires AddsNoSnapshot(s.journal + [SnapshotEvent(TakeSnapshot(next.ledger))], next.journal)
    ensures var all := m.all + Notes(n, observed); Stands(svc, next, Memory(all, all))
  {
    FoldConcat(FRESH, Seen(m.all), observed);
    assert Seen(m.all + Notes(n, observed)) == Seen(m.all) + observed;
    NewSnapshotIsLatest(s.journal, TakeSnapshot(next.ledger));
    LatestIsKept(s.journal + [SnapshotEvent(TakeSnapshot(next.ledger))], next.journal);
  }

  lemma {:induction false} NotSavingStands(
    svc: Service, s: State, next: State, m: Memory, n: nat, observed: seq<Observation>)
    requires Stands(svc, s, m)
    requires next.ledger == Fold(s.ledger, observed) && AddsNoSnapshot(s.journal, next.journal)
    ensures Stands(svc, next, Memory(m.all + Notes(n, observed), m.saved))
  {
    FoldConcat(FRESH, Seen(m.all), observed);
    assert Seen(m.all + Notes(n, observed)) == Seen(m.all) + observed;
    LatestIsKept(s.journal, next.journal);
  }

  lemma {:induction false} OrdinaryStepStands(svc: Service, s: State, m: Memory, n: nat, call: Call)
    requires Stands(svc, s, m) && !call.RestartCall?
    ensures Stands(svc, Step(svc, s, call).0, Remember(svc, s, m, n, call))
  {
    var next, observed := Step(svc, s, call).0, ObservedBy(svc, s, call);
    StepLedger(svc, s, call);
    if Saves(svc, s, call) {
      SavingStands(svc, s, next, m, n, observed);
    } else {
      NotSavingStands(svc, s, next, m, n, observed);
    }
  }

  lemma {:induction false} RestartStands(svc: Service, s: State, m: Memory)
    requires Stands(svc, s, m) && AllGrid(Seen(m.saved)) && WindowHoldsLatest(s.journal)
    ensures Stands(svc, Step(svc, s, RestartCall).0, Memory(m.saved, m.saved))
  {
    ReloadedIsSaved(s.journal, Seen(m.saved));
  }

  lemma {:induction false} RunStands(svc: Service, calls: seq<Call>)
    requires SoundRestarts(svc, GENESIS, calls)
    ensures Stands(svc, Run(svc, GENESIS, calls), Remembered(svc, GENESIS, calls))
  {
    if calls != [] {
      var n := |calls| - 1;
      var prior, call := calls[..n], calls[n];
      PrefixIsSound(svc, GENESIS, calls, n);
      RunStands(svc, prior);
      if call.RestartCall? {
        RememberedIsGrid(svc, GENESIS, prior);
        RestartStands(svc, Run(svc, GENESIS, prior), Remembered(svc, GENESIS, prior));
      } else {
        OrdinaryStepStands(svc, Run(svc, GENESIS, prior), Remembered(svc, GENESIS, prior), n, call);
      }
    }
  }

  /** The ledger of any run is the fold of what the run remembers, across restarts. */
  lemma {:induction false} RunLedgerIsFold(svc: Service, calls: seq<Call>)
    requires SoundRestarts(svc, GENESIS, calls)
    ensures Run(svc, GENESIS, calls).ledger == Fold(FRESH, Seen(Remembered(svc, GENESIS, calls).all))
  {
    RunStands(svc, calls);
  }

  ghost predicate NoRestart(calls: seq<Call>) { forall i :: 0 <= i < |calls| ==> !calls[i].RestartCall? }

  // ---------- which observations are remembered ----------

  ghost predicate Recalls(notes: seq<Note>, call: nat) { exists i :: 0 <= i < |notes| && notes[i].call == call }

  /** The call at index `n` stores a snapshot. */
  ghost predicate SavesAt(svc: Service, s: State, calls: seq<Call>, n: nat)
    requires n < |calls|
  {
    Saves(svc, Run(svc, s, calls[..n]), calls[n])
  }

  ghost predicate ObservesAt(svc: Service, s: State, calls: seq<Call>, n: nat)
    requires n < |calls|
  {
    ObservedBy(svc, Run(svc, s, calls[..n]), calls[n]) != []
  }

  ghost predicate RecallsAll(svc: Service, s: State, calls: seq<Call>, n: nat, k: nat)
    requires n <= |calls|
  {
    Recalls(Remembered(svc, s, calls[..n]).all, k)
  }

  ghost predicate RecallsSaved(svc: Service, s: State, calls: seq<Call>, n: nat, k: nat)
    requires n <= |calls|
  {
    Recalls(Remembered(svc, s, calls[..n]).saved, k)
  }

  lemma {:induction false} RecallsAppend(notes: seq<Note>, call: nat, observed: seq<Observation>, k: nat)
    ensures Recalls(notes + Notes(call, observed), k) <==> Recalls(notes, k) || (k == call && observed != [])
  {
    var longer := notes + Notes(call, observed);
    forall i | 0 <= i < |notes|
      ensures longer[i] == notes[i]
    {
    }
    if observed != [] { assert longer[|notes|].call == call; }
  }

  lemma {:induction false} RecallStep(svc: Service, s: State, calls: seq<Call>, n: nat, k: nat)
    requires n < |calls|
    ensures var noted := RecallsAll(svc, s, calls, n, k) || (k == n && ObservesAt(svc, s, calls, n));
            if calls[n].RestartCall? then
              && RecallsAll(svc, s, calls, n + 1, k) == RecallsSaved(svc, s, calls, n, k)
              && RecallsSaved(svc, s, calls, n + 1, k) == RecallsSaved(svc, s, calls, n, k)
            else
              && RecallsAll(svc, s, calls, n + 1, k) == noted
              && RecallsSaved(svc, s, calls, n + 1, k) ==
                 (if SavesAt(svc, s, calls, n) then noted else RecallsSaved(svc, s, calls, n, k))
  {
    assert calls[..n + 1][..n] == calls[..n];
    RecallsAppend(Remembered(svc, s, calls[..n]).all, n, ObservedBy(svc, Run(svc, s, calls[..n]), calls[n]), k);
  }

  lemma {:induction false} NotYetRecalled(svc: Service, s: State, calls: seq<Call>, n: nat, k: nat)
    requires n <= k && n <= |calls|
    ensures !RecallsAll(svc, s, calls, n, k) && !RecallsSaved(svc, s, calls, n, k)
  {
    if n > 0 {
      NotYetRecalled(svc, s, calls, n - 1, k);
      RecallStep(svc, s, calls, n - 1, k);
    }
  }

  /** How recall develops from step to step after step `k`: a restart falls back to what was saved, a
      snapshot saves what is recalled. */
  ghost predicate RecallTrace(all: seq<bool>, saved: seq<bool>, saves: seq<bool>, restarts: seq<bool>, k: nat)
  {
    && |all| == |saved| == |saves| + 1 && |restarts| == |saves| && k < |saves|
    && all[k + 1] && saved[k + 1] == saves[k]
    && forall n :: k < n < |saves| ==> RecallAt(all, saved, saves, restarts, n)
  }

  ghost predicate RecallAt(all: seq<bool>, saved: seq<bool>, saves: seq<bool>, restarts: seq<bool>, n: nat)
    requires n + 1 < |all| == |saved| && n < |saves| == |restarts|
  {
    && (saves[n] ==> !restarts[n])
    && all[n + 1] == (if restarts[n] then saved[n] else all[n])
    && saved[n + 1] == (if saves[n] then all[n] else saved[n])
  }

  ghost predicate NoneBetween(flags: seq<bool>, k: nat, m: nat)
    requires m <= |flags|
  {
    forall i :: k < i < m ==> !flags[i]
  }

  ghost predicate SavedBefore(saves: seq<bool>, restarts: seq<bool>, k: nat, n: nat)
    requires n <= |saves| == |restarts|
  {
    exists m :: k <= m < n && saves[m] && NoneBetween(restarts, k, m)
  }

  lemma {:induction false} RecallHolds(
    all: seq<bool>, saved: seq<bool>, saves: seq<bool>, restarts: seq<bool>, k: nat, n: nat)
    requires RecallTrace(all, saved, saves, restarts, k) && k < n <= |saves|
    ensures saved[n] <==> SavedBefore(saves, restarts, k, n)
    ensures all[n] <==> SavedBefore(saves, restarts, k, n) || NoneBetween(restarts, k, n)
  {
    if n == k + 1 {
      assert NoneBetween(restarts, k, k);
    } else {
      RecallHolds(all, saved, saves, restarts, k, n - 1);
      assert RecallAt(all, saved, saves, restarts, n - 1);
      assert SavedBefore(saves, restarts, k, n) <==>
        SavedBefore(saves, restarts, k, n - 1) || (saves[n - 1] && NoneBetween(restarts, k, n - 1));
    }
  }

  ghost function AllOf(svc: Service, s: State, calls: seq<Call>, k: nat): (all: seq<bool>)
    ensures |all| == |calls| + 1
  {
    seq(|calls| + 1, n requires 0 <= n <= |calls| => RecallsAll(svc, s, calls, n, k))
  }

  ghost function SavedOf(svc: Service, s: State, calls: seq<Call>, k: nat): (saved: seq<bool>)
    ensures |saved| == |calls| + 1
  {
    seq(|calls| + 1, n requires 0 <= n <= |calls| => RecallsSaved(svc, s, calls, n, k))
  }

  ghost function SavesOf(svc: Service, s: State, calls: seq<Call>): (saves: seq<bool>)
    ensures |saves| == |calls|
  {
    seq(|calls|, n requires 0 <= n < |calls| => SavesAt(svc, s, calls, n))
  }

  ghost function RestartsOf(calls: seq<Call>): (restarts: seq<bool>)
    ensures |restarts| == |calls| && forall i :: 0 <= i < |calls| ==> restarts[i] == calls[i].RestartCall?
  {
    seq(|calls|, i requires 0 <= i < |calls| => calls[i].RestartCall?)
  }

  lemma {:induction false} SavesIsNoRestart(svc: Service, s: State, calls: seq<Call>, n: nat)
    requires n < |calls| && SavesAt(svc, s, calls, n)
    ensures !calls[n].RestartCall?
  {
  }

  lemma {:induction false} TraceEntries(svc: Service, s: State, calls: seq<Call>, k: nat, n: nat)
    requires n <= |calls|
    ensures AllOf(svc, s, calls, k)[n] == RecallsAll(svc, s, calls, n, k)
    ensures SavedOf(svc, s, calls, k)[n] == RecallsSaved(svc, s, calls, n, k)
    ensures n < |calls| ==> SavesOf(svc, s, calls)[n] == SavesAt(svc, s, calls, n)
  {
  }

  lemma {:induction false} RecallEntry(
    all: seq<bool>, saved: seq<bool>, saves: seq<bool>, restarts: seq<bool>, n: nat,
    allNow: bool, savedNow: bool, allNext: bool, savedNext: bool)
    requires n + 1 < |all| == |saved| && n < |saves| == |restarts| && (saves[n] ==> !restarts[n])
    requires all[n] == allNow && saved[n] == savedNow && all[n + 1] == allNext && saved[n + 1] == savedNext
    requires allNext == (if restarts[n] then savedNow else allNow)
    requires savedNext == (if saves[n] then allNow else savedNow)
    ensures RecallAt(all, saved, saves, restarts, n)
  {
  }

  lemma {:induction false} RecallFollows(svc: Service, s: State, calls: seq<Call>, k: nat, n: nat)
    requires k < n < |calls|
    ensures RecallAt(AllOf(svc, s, calls, k), SavedOf(svc, s, calls, k), SavesOf(svc, s, calls), RestartsOf(calls), n)
  {
    RecallStep(svc, s, calls, n, k);
    TraceEntries(svc, s, calls, k, n);
    TraceEntries(svc, s, calls, k, n + 1);
    if SavesAt(svc, s, calls, n) { SavesIsNoRestart(svc, s, calls, n); }
    RecallEntry(AllOf(svc, s, calls, k), SavedOf(svc, s, calls, k), SavesOf(svc, s, calls), RestartsOf(calls), n,
                RecallsAll(svc, s, calls, n, k), RecallsSaved(svc, s, calls, n, k),
                RecallsAll(svc, s, calls, n + 1, k), RecallsSaved(svc, s, calls, n + 1, k));
  }

  lemma {:induction false} RecallStarts(svc: Service, s: State, calls: seq<Call>, k: nat)
    requires k < |calls| && ObservesAt(svc, s, calls, k)
    ensures RecallsAll(svc, s, calls, k + 1, k)
    ensures RecallsSaved(svc, s, calls, k + 1, k) == SavesAt(svc, s, calls, k)
  {
    NotYetRecalled(svc, s, calls, k, k);
    RecallStep(svc, s, calls, k, k);
  }

  lemma {:induction false} RecallDevelops(svc: Service, s: State, calls: seq<Call>, k: nat)
    requires k < |calls| && ObservesAt(svc, s, calls, k)
    ensures RecallTrace(
      AllOf(svc, s, calls, k), SavedOf(svc, s, calls, k), SavesOf(svc, s, calls), RestartsOf(calls), k)
  {
    RecallStarts(svc, s, calls, k);
    forall n | k < n < |calls|
      ensures RecallAt(AllOf(svc, s, calls, k), SavedOf(svc, s, calls, k), SavesOf(svc, s, calls), RestartsOf(calls), n)
    {
      RecallFollows(svc, s, calls, k, n);
    }
  }

  /** The observation a call made is remembered at the end of a run exactly when no restart came after it, or
      a snapshot was stored, by that call or a later one, before the first restart. */
  lemma {:induction false} MemoryKeeps(svc: Service, s: State, calls: seq<Call>, k: nat)
    requires k < |calls| && ObservesAt(svc, s, calls, k)
    ensures RecallsAll(svc, s, calls, |calls|, k) <==>
            || NoneBetween(RestartsOf(calls), k, |calls|)
            || SavedBefore(SavesOf(svc, s, calls), RestartsOf(calls), k, |calls|)
  {
    RecallDevelops(svc, s, calls, k);
    RecallHolds(
      AllOf(svc, s, calls, k), SavedOf(svc, s, calls, k), SavesOf(svc, s, calls), RestartsOf(calls), k, |calls|);
  }

  // ---------- approvals ----------

  /** The pass that decides an evaluate call without memo or store. */
  predicate FreshApproval(svc: Service, s: State, r: Request, env: Env)
  {
    && IsFresh(svc, s, r)
    && Evaluate(svc, s, r, env).1.Returned?
    && IsApproved(Evaluate(svc, s, r, env).1.result.decision.final)
  }

  lemma {:induction false} NoneBlockingMeansNoneBad(report: seq<CheckOutcome>, i: nat)
    requires BlockingNames(report) == {} && i < |report|
    ensures !report[i].blocking
  {
    var o := report[i];
    assert o in report && (o.blocking ==> o.name in BlockingNames(report));
  }

  /** An approved decision carries no failed or blocked check anywhere in the catalogue. */
  lemma {:induction false} ApprovedPassesEveryCheck(svc: Service, e: Request, halted: bool, env: Env, i: nat)
    requires IsApproved(StateFor(svc, e, halted, env)) && i < 40
    ensures !Bad(CheckOf(CATALOG[i], e, svc.config, ContextFor(svc, e, halted, env)).status)
  {
    var report := ReportFor(svc, e, halted, env);
    ApprovalMeans(BlockingNames(report), SizeFor(e, svc.config), e.requestedQuantity);
    NoneBlockingMeansNoneBad(report, i);
    OutcomeShape(CATALOG[i], e, svc.config, ContextFor(svc, e, halted, env));
  }

  lemma {:induction false} DrawdownPassMeans(e: Request, c: Config, x: Context)
    requires !Bad(CheckOf(CATALOG[22], e, c, x).status)
    ensures e.accountEquity > 0.0 && e.peakEquity > 0.0
    ensures (e.peakEquity - e.accountEquity) / e.peakEquity < c.ddFreeze
  {
    assert CATALOG[22] == EquityDrawdownLimit;
  }

  lemma {:induction false} ApprovedDrawdown(svc: Service, e: Request, halted: bool, env: Env)
    requires IsApproved(StateFor(svc, e, halted, env))
    ensures e.accountEquity > 0.0 && e.peakEquity > 0.0
    ensures (e.peakEquity - e.accountEquity) / e.peakEquity < svc.config.ddFreeze
  {
    ApprovedPassesEveryCheck(svc, e, halted, env, 22);
    DrawdownPassMeans(e, svc.config, ContextFor(svc, e, halted, env));
  }

  predicate DailyLossWithin(e: Request, c: Config)
  {
    e.accountEquity > 0.0 ==> Abs(Min(e.realizedPnlDay, 0.0)) < e.accountEquity * c.maxDailyLossPct
  }

  lemma {:induction false} DailyLossPassMeans(e: Request, c: Config, x: Context)
    requires !Bad(CheckOf(CATALOG[21], e, c, x).status)
    ensures DailyLossWithin(e, c)
  {
    assert CATALOG[21] == DailyLossLimit;
  }

  lemma {:induction false} ApprovedDailyLoss(svc: Service, e: Request, halted: bool, env: Env)
    requires IsApproved(StateFor(svc, e, halted, env))
    ensures DailyLossWithin(e, svc.config)
  {
    ApprovedPassesEveryCheck(svc, e, halted, env, 21);
    DailyLossPassMeans(e, svc.config, ContextFor(svc, e, halted, env));
  }

  lemma {:induction false} StreakPassMeans(e: Request, c: Config, x: Context)
    requires !Bad(CheckOf(CATALOG[23], e, c, x).status)
    ensures e.losingStreak < c.consecutiveLossLimit
  {
    assert CATALOG[23] == ConsecutiveLoss;
  }

  lemma {:induction false} ApprovedStreak(svc: Service, e: Request, halted: bool, env: Env)
    requires IsApproved(StateFor(svc, e, halted, env))
    ensures e.losingStreak < svc.config.consecutiveLossLimit
  {
    ApprovedPassesEveryCheck(svc, e, halted, env, 23);
    StreakPassMeans(e, svc.config, ContextFor(svc, e, halted, env));
  }

  lemma {:induction false} HeatPassMeans(e: Request, c: Config, x: Context)
    requires !Bad(CheckOf(CATALOG[24], e, c, x).status)
    ensures HeatAfter(e, Risk(x)).Some? && HeatAfter(e, Risk(x)).value <= c.maxEffectiveHeat
  {
    assert CATALOG[24] == PortfolioHeat;
  }

  lemma {:induction false} ApprovedHeat(svc: Service, e: Request, halted: bool, env: Env)
    requires IsApproved(StateFor(svc, e, halted, env))
    ensures HeatAfter(e, Risk(ContextFor(svc, e, halted, env))).Some?
    ensures HeatAfter(e, Risk(ContextFor(svc, e, halted, env))).value <= svc.config.maxEffectiveHeat
  {
    ApprovedPassesEveryCheck(svc, e, halted, env, 24);
    HeatPassMeans(e, svc.config, ContextFor(svc, e, halted, env));
  }

  /** What the ledger shows after the current observation bounds what the effective request shows. */
  lemma {:induction false} EffectiveFigures(r: Request, before: LedgerState, now: int)
    requires before.dailyLoss >= 0.0
    ensures var ledger := Observe(before, ObservationOf(r, now));
            var e := Effective(r, ledger);
            && e.accountEquity == r.accountEquity
            && (r.accountEquity > 0.0 ==> ledger.peak.value > 0.0 && e.peakEquity == ledger.peak.value)
            && Abs(Min(e.realizedPnlDay, 0.0)) == ledger.dailyLoss
            && e.losingStreak == ledger.streak
  {
  }

  // ---------- from an outcome back to its decision ----------

  /** A fresh approval was decided by the checks on the effective request, with the latch clear. */
  lemma {:induction false} FreshApprovalDecided(svc: Service, s: State, r: Request, env: Env)
    requires FreshApproval(svc, s, r, env)
    ensures ReachesLedger(env)
    ensures var e := Effective(r, Observe(s.ledger, ObservationOf(r, env.now)));
            && IsApproved(StateFor(svc, e, s.halt.halted, env))
            && Evaluate(svc, s, r, env).1.result.decision.final == StateFor(svc, e, s.halt.halted, env)
  {
    var seen := Recorded(svc, s, r, env, true);
    var result := Decide(svc, seen, r, env);
    LivePassOfFresh(svc, s, r, env);
    ConcludedApproval(svc, seen, r, result, env);
  }

  lemma {:induction false} LivePassOfFresh(svc: Service, s: State, r: Request, env: Env)
    requires IsFresh(svc, s, r)
    ensures LivePass(svc, s, r, env) == Fresh(svc, s, r, env, true)
  {
  }

  lemma {:induction false} ConcludedApproval(svc: Service, s: State, r: Request, result: Result, env: Env)
    ensures var outcome := Conclude(svc, s, r, result, env, true).1;
            outcome.Returned? && IsApproved(outcome.result.decision.final) ==>
              outcome.result.decision.final == result.decision.final
  {
  }

  // ---------- whole-run capital safety ----------

  /** Safety of an approval at `equity` on date `day`, against everything ever observed: a drawdown below
      the freeze measured from the highest equity or peak, the worst streak below the limit, and the worst
      loss of the date below the daily cap. The last clause needs the date to be uninterrupted, as it is
      when clocks do not run backwards. */
  ghost predicate CapitalSafe(c: Config, all: seq<Observation>, equity: real, day: int)
  {
    && all != [] && equity > 0.0
    && (exists peak :: IsPeakOf(peak, all) && peak > 0.0 && (peak - equity) / peak < c.ddFreeze)
    && (forall i :: 0 <= i < |all| ==> all[i].streak < c.consecutiveLossLimit)
    && (LastDayContiguous(all) ==>
          forall i :: 0 <= i < |all| && OnDay(all[i], day) ==> LossOf(all[i]) < equity * c.maxDailyLossPct)
  }

  /** The three ledger limits of the gate at a given equity. */
  ghost predicate WithinLimits(c: Config, ledger: LedgerState, equity: real)
  {
    && ledger.peak.Some? && equity > 0.0 && ledger.peak.value > 0.0
    && (ledger.peak.value - equity) / ledger.peak.value < c.ddFreeze
    && ledger.dailyLoss < equity * c.maxDailyLossPct
    && ledger.streak < c.consecutiveLossLimit
  }

  lemma {:induction false} SafeFromFold(c: Config, all: seq<Observation>, equity: real, day: int)
    requires all != [] && OnDay(all[|all| - 1], day)
    requires WithinLimits(c, Fold(FRESH, all), equity)
    ensures CapitalSafe(c, all, equity, day)
  {
    FoldPeakAndStreak(all);
    assert IsPeakOf(Fold(FRESH, all).peak.value, all);
    if LastDayContiguous(all) { FoldDailyLoss(all); }
  }

  lemma {:induction false} ApprovalBoundsLedger(svc: Service, before: LedgerState, r: Request, halted: bool, env: Env)
    requires before.dailyLoss >= 0.0
    requires IsApproved(StateFor(svc, Effective(r, Observe(before, ObservationOf(r, env.now))), halted, env))
    ensures WithinLimits(svc.config, Observe(before, ObservationOf(r, env.now)), r.accountEquity)
  {
    var e := Effective(r, Observe(before, ObservationOf(r, env.now)));
    EffectiveFigures(r, before, env.now);
    ApprovedDrawdown(svc, e, halted, env);
    ApprovedDailyLoss(svc, e, halted, env);
    ApprovedStreak(svc, e, halted, env);
  }

  lemma {:induction false} FreshApprovalWithinLimits(svc: Service, s: State, r: Request, env: Env)
    requires FreshApproval(svc, s, r, env) && s.ledger.dailyLoss >= 0.0
    ensures WithinLimits(svc.config, Observe(s.ledger, ObservationOf(r, env.now)), r.accountEquity)
  {
    FreshApprovalDecided(svc, s, r, env);
    ApprovalBoundsLedger(svc, s.ledger, r, s.halt.halted, env);
  }

  /** In every sequence of evaluate, replay and recover calls and restarts from the first process on, a fresh
      approval is safe against everything remembered and its own request. */
  lemma {:induction false} WholeRunCapitalSafety(svc: Service, calls: seq<Call>, r: Request, env: Env)
    requires SoundRestarts(svc, GENESIS, calls)
    requires FreshApproval(svc, Run(svc, GENESIS, calls), r, env)
    ensures CapitalSafe(svc.config, Seen(Remembered(svc, GENESIS, calls).all) + [ObservationOf(r, env.now)],
                        r.accountEquity, Day(env.now))
  {
    var s, o := Run(svc, GENESIS, calls), ObservationOf(r, env.now);
    var before := Seen(Remembered(svc, GENESIS, calls).all);
    RunLedgerIsFold(svc, calls);
    FoldedLossNonNegative(before);
    FreshApprovalWithinLimits(svc, s, r, env);
    FoldAppend(FRESH, before, o);
    SafeFromFold(svc.config, before + [o], r.accountEquity, Day(env.now));
  }

  lemma {:induction false} SizedRiskWithinCap(e: Request, c: Config)
    requires c.Valid() && SizeFor(e, c).Sized?
    ensures SizeFor(e, c).trace.finalRisk <= e.accountEquity * c.maxPerTradeRiskPct
  {
    FinalRiskWithinCaps(e, c, HeadroomFor(e, c), TradeBudgetFor(e, c));
  }

  lemma {:induction false} ContextRisk(svc: Service, e: Request, halted: bool, env: Env)
    requires SizeFor(e, svc.config).Sized?
    ensures Risk(ContextFor(svc, e, halted, env)) == SizeFor(e, svc.config).trace.finalRisk
  {
  }

  lemma {:induction false} ApprovedIsSized(svc: Service, e: Request, halted: bool, env: Env)
    requires IsApproved(StateFor(svc, e, halted, env))
    ensures SizeFor(e, svc.config).Sized? && SizeFor(e, svc.config).trace.rounded > 0.0
  {
    ApprovalMeans(BlockingNames(ReportFor(svc, e, halted, env)), SizeFor(e, svc.config), e.requestedQuantity);
  }

  /** The money of an approval: the projected risk is within the per-trade cap, for any commission. */
  lemma {:induction false} ApprovedRiskWithinCap(c: Config, e: Request, blocking: set<CheckName>)
    requires c.Valid() && IsApproved(StateFrom(blocking, SizeFor(e, c), e.requestedQuantity))
    ensures SizeFor(e, c).Sized?
    ensures SizeFor(e, c).trace.finalRisk <= e.accountEquity * c.maxPerTradeRiskPct
  {
    ApprovalMeans(blocking, SizeFor(e, c), e.requestedQuantity);
    SizedRiskWithinCap(e, c);
  }

  /** And the heat after the trade is within the portfolio cap. */
  lemma {:induction false} ApprovedHeatWithinCap(svc: Service, e: Request, halted: bool, env: Env)
    requires IsApproved(StateFor(svc, e, halted, env))
    ensures SizeFor(e, svc.config).Sized?
    ensures HeatAfter(e, SizeFor(e, svc.config).trace.finalRisk).Some?
    ensures HeatAfter(e, SizeFor(e, svc.config).trace.finalRisk).value <= svc.config.maxEffectiveHeat
  {
    ApprovedIsSized(svc, e, halted, env);
    ContextRisk(svc, e, halted, env);
    ApprovedHeat(svc, e, halted, env);
  }

  predicate FitsTradeCap(sizing: SizingResult, e: Request, c: Config)
  {
    sizing.Sized? ==> sizing.trace.finalRisk <= e.accountEquity * c.maxPerTradeRiskPct
  }

  lemma {:induction false} SizerFitsTradeCap(e: Request, c: Config)
    requires c.Valid()
    ensures FitsTradeCap(SizeFor(e, c), e, c)
  {
    if SizeFor(e, c).Sized? { SizedRiskWithinCap(e, c); }
  }

  lemma {:induction false} FittingRiskPasses(svc: Service, e: Request, sizing: SizingResult, halted: bool, env: Env)
    requires FitsTradeCap(sizing, e, svc.config)
    ensures !Bad(CheckSingleTrade(e, svc.config, ContextWith(svc, e, sizing, halted, env)).status)
  {
  }

  /** The sizer makes the single-trade check redundant: it never fails, sized or not. */
  lemma {:induction false} SingleTradeCheckNeverFails(svc: Service, e: Request, halted: bool, env: Env)
    requires svc.config.Valid()
    ensures !Bad(CheckSingleTrade(e, svc.config, ContextFor(svc, e, halted, env)).status)
  {
    SizerFitsTradeCap(e, svc.config);
    FittingRiskPasses(svc, e, SizeFor(e, svc.config), halted, env);
  }

  /** With known exposure and heat below the cap beforehand, the heat check cannot fail either. */
  lemma {:induction false} HeatCheckPassesBelowCap(svc: Service, e: Request, halted: bool, env: Env)
    requires svc.config.Valid() && e.accountEquity > 0.0 && !e.exposureUnknown
    requires HeatBefore(e).value < svc.config.maxEffectiveHeat
    ensures !Bad(CheckHeat(e, svc.config, ContextFor(svc, e, halted, env)).status)
  {
    if SizeFor(e, svc.config).Sized? {
      SizerKeepsHeat(e, svc.config, HeadroomFor(e, svc.config), TradeBudgetFor(e, svc.config));
      ContextRisk(svc, e, halted, env);
    } else {
      assert Risk(ContextFor(svc, e, halted, env)) == 0.0;
      assert HeatAfter(e, 0.0) == HeatBefore(e);
    }
  }

  // ---------- the latch ----------

  lemma {:induction false} HaltBlocksSystem(svc: Service, e: Request, halted: bool, env: Env)
    requires halted || e.safeHalt
    ensures StateFor(svc, e, halted, env) == BlockedSystem
  {
    var report := ReportFor(svc, e, halted, env);
    assert CATALOG[39] == GlobalSafeHalt;
    assert report[39] == CheckHalt(e, ContextFor(svc, e, halted, env));
    assert report[39] in report && report[39].blocking;
    assert GlobalSafeHalt in BlockingNames(report);
    assert BLOCK_MAP[0] == (GlobalSafeHalt, BlockedSystem);
  }

  lemma {:induction false} DecisionFinal(svc: Service, s: State, r: Request, env: Env)
    ensures Decide(svc, s, r, env).decision.final == StateFor(svc, Effective(r, s.ledger), s.halt.halted, env)
  {
  }

  lemma {:induction false} ConcludedFinal(svc: Service, s: State, r: Request, result: Result, env: Env)
    ensures var outcome := Conclude(svc, s, r, result, env, true).1;
            match outcome
            case Returned(answer) =>
              answer.decision.final == result.decision.final || answer.decision.final == ErrorFailClosed
            case Raised(error) => error == IdempotencyConflict || error == InjectedFault(BeforePersist)
            case Done => false
  {
  }

  lemma {:induction false} FreshFinal(svc: Service, s: State, r: Request, env: Env)
    ensures var seen := Observed(s, r, env);
            match Fresh(svc, s, r, env, true).1
            case Returned(answer) =>
              answer.decision.final == ErrorFailClosed
              || answer.decision.final == StateFor(svc, Effective(r, seen.ledger), s.halt.halted, env)
            case Raised(error) =>
              error == IdempotencyConflict || error == SnapshotIngestFailed || error.InjectedFault?
            case Done => false
  {
    var seen := Recorded(svc, s, r, env, true);
    DecisionFinal(svc, seen, r, env);
    ConcludedFinal(svc, seen, r, Decide(svc, seen, r, env), env);
  }

  /** While the latch is set, an evaluation that is not answered from memory is refused: it returns
      BLOCKED_SYSTEM or ERROR_FAIL_CLOSED, or raises an idempotency conflict. */
  lemma {:induction false} HaltedServiceRefuses(svc: Service, s: State, r: Request, env: Env)
    requires s.halt.halted && IsFresh(svc, s, r)
    ensures var outcome := Evaluate(svc, s, r, env).1;
            || outcome == Raised(IdempotencyConflict)
            || (outcome.Returned? && outcome.result.decision.final in {BlockedSystem, ErrorFailClosed})
  {
    LivePassOfFresh(svc, s, r, env);
    FreshFinal(svc, s, r, env);
    HaltBlocksSystem(svc, Effective(r, Observed(s, r, env).ledger), s.halt.halted, env);
  }

  predicate EffectiveRecovery(call: Call) { call.RecoverCall? && call.actor !in {"", "automatic"} }

  predicate ClearsLatch(call: Call) { EffectiveRecovery(call) || call.RestartCall? }

  /** The pass gets as far as a decision, and that is a drawdown or system block. */
  predicate PassTrips(svc: Service, s: State, r: Request, env: Env, live: bool)
  {
    && Interruption(svc, env, live).None?
    && Trips(StateFor(svc, Effective(r, Observed(s, r, env).ledger), s.halt.halted, env))
  }

  /** The call trips the latch. */
  predicate SetsLatch(svc: Service, s: State, call: Call)
  {
    match call
    case EvaluateCall(r, env) => IsFresh(svc, s, r) && PassTrips(svc, s, r, env, true)
    case ReplayCall(_, r, env) => PassTrips(svc, s, r, env, false)
    case _ => false
  }

  lemma {:induction false} ConcludeLatch(svc: Service, s: State, r: Request, result: Result, env: Env, live: bool)
    ensures Conclude(svc, s, r, result, env, live).0.halt.halted <==> s.halt.halted || Trips(result.decision.final)
  {
  }

  lemma {:induction false} FreshLatch(svc: Service, s: State, r: Request, env: Env, live: bool)
    ensures Fresh(svc, s, r, env, live).0.halt.halted <==> s.halt.halted || PassTrips(svc, s, r, env, live)
  {
    var seen := Recorded(svc, s, r, env, live);
    DecisionFinal(svc, seen, r, env);
    ConcludeLatch(svc, seen, r, Decide(svc, seen, r, env), env, live);
  }

  lemma {:induction false} StepLatch(svc: Service, s: State, call: Call)
    ensures Step(svc, s, call).0.halt.halted <==> SetsLatch(svc, s, call) || (s.halt.halted && !ClearsLatch(call))
  {
    match call
    case EvaluateCall(r, env) =>
      if IsFresh(svc, s, r) {
        LivePassOfFresh(svc, s, r, env);
        FreshLatch(svc, s, r, env, true);
      }
    case ReplayCall(original, r, env) => FreshLatch(svc, s, r, env, false);
    case _ =>
  }

  /** The latch is set after `i` calls by the last of them, or was set at the start. */
  ghost predicate SetAt(svc: Service, s: State, calls: seq<Call>, i: nat)
    requires i <= |calls|
  {
    if i == 0 then s.halt.halted else SetsLatchAt(svc, s, calls, i - 1)
  }

  /** Set after `i` calls and not cleared by any later one. */
  ghost predicate HeldSince(svc: Service, s: State, calls: seq<Call>, i: nat)
    requires i <= |calls|
  {
    SetAt(svc, s, calls, i) && forall j :: i <= j < |calls| ==> !ClearsLatch(calls[j])
  }

  /** A flag that each step sets, clears or keeps: when it was last set decides. */
  ghost predicate FlagTrace(flag: seq<bool>, sets: seq<bool>, clears: seq<bool>)
  {
    && |flag| == |sets| + 1 && |clears| == |sets|
    && forall k :: 0 <= k < |sets| ==> (flag[k + 1] <==> sets[k] || (flag[k] && !clears[k]))
  }

  ghost predicate FlagSince(flag: seq<bool>, sets: seq<bool>, clears: seq<bool>, i: nat, n: nat)
    requires FlagTrace(flag, sets, clears) && i <= n <= |sets|
  {
    (if i == 0 then flag[0] else sets[i - 1]) && forall j :: i <= j < n ==> !clears[j]
  }

  lemma {:induction false} FlagHolds(flag: seq<bool>, sets: seq<bool>, clears: seq<bool>, n: nat)
    requires FlagTrace(flag, sets, clears) && n <= |sets|
    ensures flag[n] <==> exists i :: 0 <= i <= n && FlagSince(flag, sets, clears, i, n)
  {
    if n > 0 {
      FlagHolds(flag, sets, clears, n - 1);
      assert flag[n - 1 + 1] <==> sets[n - 1] || (flag[n - 1] && !clears[n - 1]);
    }
    if n == 0 || sets[n - 1] {
      assert FlagSince(flag, sets, clears, n, n) <==> flag[n];
    } else if flag[n] {
      var i :| 0 <= i <= n - 1 && FlagSince(flag, sets, clears, i, n - 1);
      assert FlagSince(flag, sets, clears, i, n);
    } else {
      forall i | 0 <= i <= n
        ensures !FlagSince(flag, sets, clears, i, n)
      {
        assert i < n ==> !FlagSince(flag, sets, clears, i, n - 1) || clears[n - 1];
      }
    }
  }

  /** Whether the latch is set once the first `n` calls are done. */
  function HaltedAfter(svc: Service, s: State, calls: seq<Call>, n: nat): bool
    requires n <= |calls|
  {
    Run(svc, s, calls[..n]).halt.halted
  }

  predicate SetsLatchAt(svc: Service, s: State, calls: seq<Call>, n: nat)
    requires n < |calls|
  {
    SetsLatch(svc, Run(svc, s, calls[..n]), calls[n])
  }

  lemma {:induction false} LatchStepAt(svc: Service, s: State, calls: seq<Call>, n: nat)
    requires n < |calls|
    ensures HaltedAfter(svc, s, calls, n + 1) <==>
            SetsLatchAt(svc, s, calls, n) || (HaltedAfter(svc, s, calls, n) && !ClearsLatch(calls[n]))
  {
    assert calls[..n + 1][..n] == calls[..n];
    StepLatch(svc, Run(svc, s, calls[..n]), calls[n]);
  }

  ghost function Halts(svc: Service, s: State, calls: seq<Call>): (flag: seq<bool>)
    ensures |flag| == |calls| + 1
  {
    seq(|calls| + 1, k requires 0 <= k <= |calls| => HaltedAfter(svc, s, calls, k))
  }

  ghost function Settings(svc: Service, s: State, calls: seq<Call>): (sets: seq<bool>)
    ensures |sets| == |calls|
  {
    seq(|calls|, k requires 0 <= k < |calls| => SetsLatchAt(svc, s, calls, k))
  }

  ghost function Clearings(calls: seq<Call>): (clears: seq<bool>)
    ensures |clears| == |calls| && forall i :: 0 <= i < |calls| ==> clears[i] == ClearsLatch(calls[i])
  {
    seq(|calls|, k requires 0 <= k < |calls| => ClearsLatch(calls[k]))
  }

  lemma {:induction false} LatchIsFlag(svc: Service, s: State, calls: seq<Call>)
    ensures FlagTrace(Halts(svc, s, calls), Settings(svc, s, calls), Clearings(calls))
  {
    var flag, sets, clears := Halts(svc, s, calls), Settings(svc, s, calls), Clearings(calls);
    forall k | 0 <= k < |calls|
      ensures flag[k + 1] <==> sets[k] || (flag[k] && !clears[k])
    {
      LatchStepAt(svc, s, calls, k);
    }
  }

  lemma {:induction false} SetAtIsFlag(svc: Service, s: State, calls: seq<Call>, i: nat)
    requires i <= |calls|
    ensures SetAt(svc, s, calls, i) <==>
            if i == 0 then Halts(svc, s, calls)[0] else Settings(svc, s, calls)[i - 1]
  {
    assert calls[..0] == [];
  }

  lemma {:induction false} HeldIsFlag(svc: Service, s: State, calls: seq<Call>, i: nat)
    requires i <= |calls| && FlagTrace(Halts(svc, s, calls), Settings(svc, s, calls), Clearings(calls))
    ensures HeldSince(svc, s, calls, i) <==>
            FlagSince(Halts(svc, s, calls), Settings(svc, s, calls), Clearings(calls), i, |calls|)
  {
    SetAtIsFlag(svc, s, calls, i);
  }

  /** The latch is set after a run exactly when it was set at the start or tripped by some call, with no
      explicit recovery and no restart since. */
  lemma {:induction false} LatchHolds(svc: Service, s: State, calls: seq<Call>)
    ensures HaltedAfter(svc, s, calls, |calls|) <==>
            exists i :: 0 <= i <= |calls| && HeldSince(svc, s, calls, i)
  {
    LatchIsFlag(svc, s, calls);
    FlagHolds(Halts(svc, s, calls), Settings(svc, s, calls), Clearings(calls), |calls|);
    forall i | 0 <= i <= |calls|
      ensures HeldSince(svc, s, calls, i) <==>
              FlagSince(Halts(svc, s, calls), Settings(svc, s, calls), Clearings(calls), i, |calls|)
    {
      HeldIsFlag(svc, s, calls, i);
    }
  }

  /** A drawdown or system block in a live pass sets the latch for the next call. */
  lemma {:induction false} BlockedDecisionTrips(svc: Service, s: State, r: Request, env: Env)
    requires PassTrips(svc, s, r, env, true)
    ensures Fresh(svc, s, r, env, true).0.halt.halted
  {
    FreshLatch(svc, s, r, env, true);
  }

  // ---------- what a fault leaves behind ----------

  predicate FaultBeforeLedger(env: Env)
  {
    && env.fault.Some?
    && (match env.fault.value
        case BeforePolicy | AfterPolicy | DuringAccount | DuringPortfolio | DuringModel => true
        case _ => false)
  }

  predicate FaultBeforeDecision(env: Env)
  {
    FaultBeforeLedger(env) || (env.fault.Some? && (env.fault.value.DuringSizing? || env.fault.value.DuringHeat?))
  }

  /** Nothing approved, nothing at risk, no intent, every check of the catalogue blocked. */
  ghost predicate Refuses(result: Result)
  {
    var d := result.decision;
    && d.status == d.final == ErrorFailClosed && d.failed == [GlobalSafeHalt]
    && d.approved == d.monetaryRisk == d.heatBefore == d.heatAfter == 0.0
    && result.intent.None? && result.rejection.Some? && result.rejection.value.code == ErrorFailClosed
    && |d.checks| == 40
    && forall i :: 0 <= i < 40 ==> d.checks[i].name == CATALOG[i] && d.checks[i].status == Block
  }

  lemma {:induction false} FailClosedRefuses(svc: Service, r: Request, env: Env, reason: FailReason)
    ensures Refuses(FailClosed(svc, r, env, reason))
  {
  }

  /** An evaluation interrupted before its decision answers fail-closed and memoises nothing; before the ledger
      it changes nothing at all, later it has moved the ledger and stored at most the snapshot of it. */
  lemma {:induction false} InterruptedLeaves(svc: Service, s: State, r: Request, env: Env)
    requires IsFresh(svc, s, r) && Interruption(svc, env, true).Some?
    ensures var (next, outcome) := Evaluate(svc, s, r, env);
            && outcome.Returned? && Refuses(outcome.result)
            && next.halt == s.halt && next.seen == s.seen && next.db == s.db
            && (FaultBeforeLedger(env) ==> next == s)
            && (!FaultBeforeLedger(env) ==> next.ledger == Observe(s.ledger, ObservationOf(r, env.now)))
            && (!FaultBeforeLedger(env) ==>
                  next.journal == (if svc.hasApi && !env.snapshotFails
                                   then s.journal + [SnapshotEvent(TakeSnapshot(next.ledger))] else s.journal))
  {
    LivePassOfFresh(svc, s, r, env);
    FailClosedRefuses(svc, r, env, ReasonOf(Interruption(svc, env, true).value));
  }

  /** Which faults and failures interrupt an evaluation. */
  lemma {:induction false} InterruptedIff(svc: Service, env: Env)
    ensures Interruption(svc, env, true).Some? <==>
            FaultBeforeDecision(env) || (svc.hasApi && env.snapshotFails)
  {
  }

  // ---------- the write-once memo ----------

  /** What stays of the memo and the store through a pass. */
  ghost predicate Keeps(s: State, next: State, key: string)
  {
    && (forall k :: k in s.seen && k != key ==> k in next.seen && next.seen[k] == s.seen[k])
    && (forall k :: k in s.db ==> k in next.db && next.db[k] == s.db[k])
    && s.journal <= next.journal
  }

  lemma {:induction false} ConcludeMemo(svc: Service, s: State, r: Request, result: Result, env: Env, live: bool)
    ensures var next := Conclude(svc, s, r, result, env, live).0;
            && Keeps(s, next, r.idempotencyKey)
            && (!live ==> next.seen == s.seen && next.db == s.db && next.journal == s.journal)
  {
  }

  lemma {:induction false} FreshMemo(svc: Service, s: State, r: Request, env: Env, live: bool)
    ensures var next := Fresh(svc, s, r, env, live).0;
            && Keeps(s, next, r.idempotencyKey)
            && (!live ==> next.seen == s.seen && next.db == s.db && next.journal == s.journal)
  {
    var seen := Recorded(svc, s, r, env, live);
    ConcludeMemo(svc, seen, r, Decide(svc, seen, r, env), env, live);
  }

  /** A replay writes neither the memo nor the store, whatever it returns or raises. */
  lemma {:induction false} ReplayWritesNothing(svc: Service, s: State, original: Result, r: Request, env: Env)
    ensures var next := Replay(svc, s, original, r, env).0;
            next.seen == s.seen && next.db == s.db && next.journal == s.journal
  {
    FreshMemo(svc, s, r, env, false);
  }

  /** A memoised key answers from the memo and changes nothing; another payload under it raises. */
  lemma {:induction false} MemoAnswers(svc: Service, s: State, r: Request, env: Env)
    requires r.idempotencyKey in s.seen
    ensures Evaluate(svc, s, r, env) ==
            (s, if s.seen[r.idempotencyKey].0 == svc.inputHash(r) then Returned(s.seen[r.idempotencyKey].1)
                else Raised(IdempotencyConflict))
  {
  }

  lemma {:induction false} AnsweredKeepsMemo(svc: Service, s: State, r: Request, env: Env, key: string)
    requires key in s.seen && key != r.idempotencyKey && !IsFresh(svc, s, r)
    ensures key in LivePass(svc, s, r, env).0.seen && LivePass(svc, s, r, env).0.seen[key] == s.seen[key]
  {
  }

  lemma {:induction false} OtherKeyKeepsMemo(svc: Service, s: State, r: Request, env: Env, key: string)
    requires key in s.seen && key != r.idempotencyKey
    ensures key in Evaluate(svc, s, r, env).0.seen && Evaluate(svc, s, r, env).0.seen[key] == s.seen[key]
  {
    assert Evaluate(svc, s, r, env).0 == LivePass(svc, s, r, env).0;
    if IsFresh(svc, s, r) {
      LivePassOfFresh(svc, s, r, env);
      FreshMemo(svc, s, r, env, true);
    } else {
      AnsweredKeepsMemo(svc, s, r, env, key);
    }
  }

  lemma {:induction false} EvaluateKeepsMemo(svc: Service, s: State, r: Request, env: Env, key: string)
    requires key in s.seen
    ensures key in Evaluate(svc, s, r, env).0.seen && Evaluate(svc, s, r, env).0.seen[key] == s.seen[key]
  {
    if r.idempotencyKey == key {
      MemoAnswers(svc, s, r, env);
    } else {
      OtherKeyKeepsMemo(svc, s, r, env, key);
    }
  }

  lemma {:induction false} StepKeepsMemo(svc: Service, s: State, call: Call, key: string)
    requires key in s.seen && !call.RestartCall?
    ensures key in Step(svc, s, call).0.seen && Step(svc, s, call).0.seen[key] == s.seen[key]
  {
    match call
    case EvaluateCall(r, env) => EvaluateKeepsMemo(svc, s, r, env, key);
    case ReplayCall(original, r, env) => ReplayWritesNothing(svc, s, original, r, env);
    case _ =>
  }

  /** Once written, a memo entry never changes for as long as the process lives, and every later evaluation
      of that key is decided by it with the whole state untouched. */
  lemma {:induction false} MemoIsWriteOnce(svc: Service, s: State, calls: seq<Call>, r: Request, env: Env)
    requires r.idempotencyKey in s.seen && NoRestart(calls)
    ensures var later := Run(svc, s, calls);
            && r.idempotencyKey in later.seen && later.seen[r.idempotencyKey] == s.seen[r.idempotencyKey]
            && Evaluate(svc, later, r, env) ==
               (later, if s.seen[r.idempotencyKey].0 == svc.inputHash(r) then Returned(s.seen[r.idempotencyKey].1)
                       else Raised(IdempotencyConflict))
  {
    if calls != [] {
      var prior := calls[..|calls| - 1];
      MemoIsWriteOnce(svc, s, prior, r, env);
      StepKeepsMemo(svc, Run(svc, s, prior), calls[|calls| - 1], r.idempotencyKey);
    }
    MemoAnswers(svc, Run(svc, s, calls), r, env);
  }

  // ---------- the shape of every answer ----------

  ghost predicate InCatalogOrder(checks: seq<CheckOutcome>)
  {
    |checks| == 40 && forall i :: 0 <= i < 40 ==> checks[i].name == CATALOG[i]
  }

  ghost predicate NoneBad(checks: seq<CheckOutcome>)
  {
    forall i :: 0 <= i < |checks| ==> !Bad(checks[i].status)
  }

  ghost predicate GoodDecision(d: Decision)
  {
    && d.status == d.final
    && d.approved >= 0.0
    && (d.approved > 0.0 <==> IsApproved(d.final))
    && (IsApproved(d.final) ==> d.approved <= d.requested && NoneBad(d.checks))
    && (d.final == Approved ==> d.approved == d.requested)
    && InCatalogOrder(d.checks)
  }

  /** Exactly one of intent and rejection, matching a good decision. */
  ghost predicate GoodShape(r: Result)
  {
    && GoodDecision(r.decision)
    && (IsApproved(r.decision.final) <==> r.intent.Some?)
    && (r.intent.Some? <==> r.rejection.None?)
    && (r.intent.Some? ==> r.intent.value.quantity == r.decision.approved)
    && (r.rejection.Some? ==> r.rejection.value.code == r.decision.final)
  }

  lemma {:induction false} ReportInOrder(r: Request, c: Config, x: Context)
    ensures InCatalogOrder(Report(r, c, x))
  {
    forall i | 0 <= i < 40
      ensures Report(r, c, x)[i].name == CATALOG[i]
    {
      OutcomeShape(CATALOG[i], r, c, x);
    }
  }

  lemma {:induction false} ApprovedReportNoneBad(svc: Service, e: Request, halted: bool, env: Env)
    requires IsApproved(StateFor(svc, e, halted, env))
    ensures NoneBad(ReportFor(svc, e, halted, env))
  {
    forall i | 0 <= i < 40
      ensures !Bad(ReportFor(svc, e, halted, env)[i].status)
    {
      ApprovedPassesEveryCheck(svc, e, halted, env, i);
    }
  }

  /** The approved quantity is positive, within the request, and equal to it unless reduced. */
  lemma {:induction false} ApprovedQuantityWithinRequest(c: Config, e: Request, blocking: set<CheckName>)
    requires c.Valid()
    ensures var state := StateFrom(blocking, SizeFor(e, c), e.requestedQuantity);
            var quantity := ApprovedQuantity(state, SizeFor(e, c));
            && quantity >= 0.0
            && (quantity > 0.0 <==> IsApproved(state))
            && (IsApproved(state) ==> quantity <= e.requestedQuantity)
            && (state == Approved ==> quantity == e.requestedQuantity)
  {
    ApprovalMeans(blocking, SizeFor(e, c), e.requestedQuantity);
    if IsApproved(StateFrom(blocking, SizeFor(e, c), e.requestedQuantity)) {
      RoundedIsGreatestWithinLimits(e, c, HeadroomFor(e, c), TradeBudgetFor(e, c), 0);
    }
  }

  lemma {:induction false} DecisionIsGood(svc: Service, r: Request, e: Request, halted: bool, env: Env)
    requires svc.config.Valid()
    ensures GoodDecision(MakeDecision(svc, r, e, halted, env))
  {
    ApprovedQuantityWithinRequest(svc.config, e, BlockingNames(ReportFor(svc, e, halted, env)));
    ReportInOrder(e, svc.config, ContextFor(svc, e, halted, env));
    if IsApproved(StateFor(svc, e, halted, env)) {
      ApprovedReportNoneBad(svc, e, halted, env);
    }
  }

  lemma {:induction false} DecideIsGood(svc: Service, s: State, r: Request, env: Env)
    requires svc.config.Valid()
    ensures GoodShape(Decide(svc, s, r, env))
  {
    DecisionIsGood(svc, r, Effective(r, s.ledger), s.halt.halted, env);
  }

  lemma {:induction false} FailClosedIsGood(svc: Service, r: Request, env: Env, reason: FailReason)
    ensures GoodShape(FailClosed(svc, r, env, reason))
    ensures FailClosed(svc, r, env, reason).decision.approved == 0.0
  {
  }

  ghost predicate GoodMemo(m: Memo) { forall k :: k in m ==> GoodShape(m[k].1) }

  ghost predicate GoodJournal(events: seq<AuditEvent>)
  {
    forall i :: 0 <= i < |events| && events[i].DecisionEvent? ==> GoodShape(events[i].result)
  }

  ghost predicate GoodState(s: State) { GoodMemo(s.seen) && GoodJournal(s.journal) }

  lemma {:induction false} FoundIsGood(events: seq<AuditEvent>, key: string)
    requires GoodJournal(events)
    ensures FindDecision(events, key).Some? ==> GoodShape(FindDecision(events, key).value)
  {
    if events != [] { FoundIsGood(events[..|events| - 1], key); }
  }

  lemma {:induction false} CommitIsGood(svc: Service, s: State, r: Request, result: Result, env: Env)
    requires GoodState(s) && GoodShape(result)
    ensures var (next, outcome) := Commit(svc, s, r, result, env);
            GoodState(next) && next.seen == s.seen && (outcome.Returned? ==> GoodShape(outcome.result))
  {
    FailClosedIsGood(svc, r, env, FaultAt(AfterDecisionBeforeAudit));
    FailClosedIsGood(svc, r, env, CommitNotStored);
    if env.fault.Some? { FailClosedIsGood(svc, r, env, FaultAt(env.fault.value)); }
    ReferencedIsGood(result, MemoryRef(env.id));
    if env.commit.CommitOk? { ReferencedIsGood(result, StoredRef(env.commit.ref)); }
  }

  /** A committed approval always carries a storage reference, so the later guard on a missing one is idle. */
  lemma {:induction false} MissingReferenceGuardIdle(svc: Service, s: State, r: Request, result: Result, env: Env)
    ensures var outcome := Commit(svc, s, r, result, env).1;
            outcome.Returned? && IsApproved(outcome.result.decision.final) ==>
              outcome.result.decision.reference != NoReference
              && outcome.result.intent.Some? == result.intent.Some?
  {
  }

  lemma {:induction false} ReferencedIsGood(result: Result, ref: Reference)
    requires GoodShape(result)
    ensures GoodShape(Referenced(result, ref))
  {
    assert result.decision.(reference := ref).checks == result.decision.checks;
  }

  lemma {:induction false} FreshIsGood(svc: Service, s: State, r: Request, env: Env, live: bool)
    requires svc.config.Valid() && GoodState(s)
    ensures GoodState(Fresh(svc, s, r, env, live).0)
    ensures Fresh(svc, s, r, env, live).1.Returned? ==> GoodShape(Fresh(svc, s, r, env, live).1.result)
  {
    var seen := Recorded(svc, s, r, env, live);
    assert GoodState(seen);
    if Interruption(svc, env, live).None? {
      DecideIsGood(svc, seen, r, env);
      ConcludeIsGood(svc, seen, r, Decide(svc, seen, r, env), env, live);
    }
  }

  lemma {:induction false} ConcludeIsGood(svc: Service, s: State, r: Request, result: Result, env: Env, live: bool)
    requires GoodState(s) && GoodShape(result)
    ensures var (next, outcome) := Conclude(svc, s, r, result, env, live);
            GoodState(next) && (outcome.Returned? ==> GoodShape(outcome.result))
  {
    CommitIsGood(svc, s.(halt := AfterTrip(s.halt, result.decision.final)), r, result, env);
  }

  lemma {:induction false} LivePassIsGood(svc: Service, s: State, r: Request, env: Env)
    requires svc.config.Valid() && GoodState(s)
    ensures GoodState(LivePass(svc, s, r, env).0)
    ensures var outcome := LivePass(svc, s, r, env).1;
            outcome.Raised? || (outcome.Returned? && GoodShape(outcome.result))
  {
    if IsFresh(svc, s, r) {
      LivePassOfFresh(svc, s, r, env);
      FreshIsGood(svc, s, r, env, true);
      FreshFinal(svc, s, r, env);
    } else {
      FoundIsGood(Limit(s.journal, LOOKUP_LIMIT), r.idempotencyKey);
    }
  }

  lemma {:induction false} EvaluateIsGood(svc: Service, s: State, r: Request, env: Env)
    requires svc.config.Valid() && GoodState(s)
    ensures GoodState(Evaluate(svc, s, r, env).0)
    ensures match Evaluate(svc, s, r, env).1
            case Returned(result) => GoodShape(result)
            case Raised(error) => error == IdempotencyConflict
            case Done => false
  {
    LivePassIsGood(svc, s, r, env);
    var pass := LivePass(svc, s, r, env).1;
    if pass.Raised? { FailClosedIsGood(svc, r, env, ReasonOf(pass.error)); }
  }

  lemma {:induction false} ReplayIsGood(svc: Service, s: State, original: Result, r: Request, env: Env)
    requires svc.config.Valid() && GoodState(s)
    ensures GoodState(Replay(svc, s, original, r, env).0)
  {
    FreshIsGood(svc, s, r, env, false);
    assert Replay(svc, s, original, r, env).0 == Fresh(svc, s, r, env, false).0;
  }

  lemma {:induction false} StepIsGood(svc: Service, s: State, call: Call)
    requires svc.config.Valid() && GoodState(s)
    ensures GoodState(Step(svc, s, call).0)
  {
    match call
    case EvaluateCall(r, env) => EvaluateIsGood(svc, s, r, env);
    case ReplayCall(original, r, env) => ReplayIsGood(svc, s, original, r, env);
    case _ =>
  }

  lemma {:induction false} RunIsGood(svc: Service, s: State, calls: seq<Call>)
    requires svc.config.Valid() && GoodState(s)
    ensures GoodState(Run(svc, s, calls))
  {
    if calls != [] {
      RunIsGood(svc, s, calls[..|calls| - 1]);
      StepIsGood(svc, Run(svc, s, calls[..|calls| - 1]), calls[|calls| - 1]);
    }
  }

  /** On every path of `evaluate` in every run, under any injected fault and any storage failure, the
      answer is an idempotency conflict or a result of good shape. */
  lemma {:induction false} EveryAnswerHasGoodShape(svc: Service, s: State, calls: seq<Call>, r: Request, env: Env)
    requires svc.config.Valid() && GoodState(s)
    ensures match Evaluate(svc, Run(svc, s, calls), r, env).1
            case Returned(result) => GoodShape(result)
            case Raised(error) => error == IdempotencyConflict
            case Done => false
  {
    RunIsGood(svc, s, calls);
    EvaluateIsGood(svc, Run(svc, s, calls), r, env);
  }

  // ---------- replay ----------

  /** The digest tells these two bodies apart if they differ. */
  ghost predicate NoCollision(h: Body -> string, a: Body, b: Body) { h(a) == h(b) ==> a == b }

  lemma {:induction false} BodyDependsOnEnvByClockAndHealth(
    svc: Service, r: Request, e: Request, halted: bool, env: Env, env2: Env)
    requires env.now == env2.now && env.healthy == env2.healthy
    ensures BodyFor(svc, r, e, halted, env) == BodyFor(svc, r, e, halted, env2)
  {
    assert ContextFor(svc, e, halted, env) == ContextFor(svc, e, halted, env2);
  }

  lemma {:induction false} RequestHaltHidesLatch(svc: Service, r: Request, e: Request, env: Env)
    requires e.safeHalt
    ensures BodyFor(svc, r, e, false, env) == BodyFor(svc, r, e, true, env)
  {
    var a, b := ReportFor(svc, e, false, env), ReportFor(svc, e, true, env);
    forall i | 0 <= i < 40
      ensures a[i] == b[i]
    {
      OnlyHaltCheckReadsLatch(CATALOG[i], e, svc.config, ContextFor(svc, e, false, env), ContextFor(svc, e, true, env));
    }
    assert a == b;
  }

  lemma {:induction false} OnlyHaltCheckReadsLatch(n: CheckName, e: Request, c: Config, x: Context, y: Context)
    requires y == x.(halt := y.halt)
    requires n != GlobalSafeHalt || e.safeHalt
    ensures CheckOf(n, e, c, x) == CheckOf(n, e, c, y)
  {
  }

  lemma {:induction false} LatchShowsInBody(svc: Service, r: Request, e: Request, env: Env)
    requires !e.safeHalt
    ensures BodyFor(svc, r, e, false, env) != BodyFor(svc, r, e, true, env)
  {
    var a, b := ReportFor(svc, e, false, env), ReportFor(svc, e, true, env);
    assert CATALOG[39] == GlobalSafeHalt;
    assert a[39].status == Pass && b[39].status == Block;
    assert PrintReport(a)[39] != PrintReport(b)[39];
  }

  /** The decision of a fresh live pass was neither interrupted nor replaced by a fail-closed answer. */
  predicate NormallyDecided(svc: Service, s: State, r: Request, env: Env)
  {
    var outcome := Fresh(svc, s, r, env, true).1;
    && Interruption(svc, env, true).None?
    && outcome.Returned?
    && outcome.result.decision.outputHash == svc.outputHash(FirstBody(svc, s, r, env))
  }

  /** The body hashed by a pass over `s`. */
  function FirstBody(svc: Service, s: State, r: Request, env: Env): Body
  {
    BodyFor(svc, r, Effective(r, Observed(s, r, env).ledger), s.halt.halted, env)
  }

  lemma {:induction false} ReplayOutputHash(svc: Service, s: State, r: Request, env: Env)
    requires Interruption(svc, env, false).None?
    ensures var outcome := Fresh(svc, s, r, env, false).1;
            outcome.Returned? && outcome.result.decision.outputHash == svc.outputHash(FirstBody(svc, s, r, env))
  {
  }

  /** The state a fresh live pass leaves behind, as far as the next body depends on it. */
  lemma {:induction false} AfterFresh(svc: Service, s: State, r: Request, env: Env)
    ensures Fresh(svc, s, r, env, true).0.ledger == Observed(s, r, env).ledger
  {
    FreshLedger(svc, s, r, env, true);
  }

  /** The body a replay right after the pass would hash. */
  lemma {:induction false} SecondBody(svc: Service, s: State, r: Request, env: Env, env2: Env)
    requires ReachesLedger(env) && ReachesLedger(env2)
    requires env.now == env2.now && env.healthy == env2.healthy
    ensures var next := Fresh(svc, s, r, env, true).0;
            FirstBody(svc, next, r, env2) ==
            BodyFor(svc, r, Effective(r, Observed(s, r, env).ledger), next.halt.halted, env)
  {
    var next := Fresh(svc, s, r, env, true).0;
    AfterFresh(svc, s, r, env);
    ObserveIdempotent(s.ledger, ObservationOf(r, env.now));
    assert Observed(next, r, env2).ledger == Observed(s, r, env).ledger;
    BodyDependsOnEnvByClockAndHealth(
      svc, r, Effective(r, Observed(s, r, env).ledger), next.halt.halted, env2, env);
  }

  /** Whether the body a replay hashes differs from the first one depends on the latch alone. */
  lemma {:induction false} BodyChangesWithLatch(
    svc: Service, r: Request, e: Request, before: bool, after: bool, env: Env)
    requires before ==> after
    ensures BodyFor(svc, r, e, before, env) == BodyFor(svc, r, e, after, env) <==> before == after || e.safeHalt
  {
    if e.safeHalt {
      RequestHaltHidesLatch(svc, r, e, env);
    } else {
      LatchShowsInBody(svc, r, e, env);
    }
  }

  /** The latch is as the pass found it, or the request itself asks for a halt. */
  predicate Settled(svc: Service, s: State, r: Request, env: Env)
  {
    Fresh(svc, s, r, env, true).0.halt.halted == s.halt.halted || r.safeHalt
  }

  lemma {:induction false} SecondBodyIff(svc: Service, s: State, r: Request, env: Env, env2: Env)
    requires ReachesLedger(env) && ReachesLedger(env2)
    requires env.now == env2.now && env.healthy == env2.healthy
    ensures FirstBody(svc, Fresh(svc, s, r, env, true).0, r, env2) == FirstBody(svc, s, r, env)
       <==> Settled(svc, s, r, env)
  {
    SecondBody(svc, s, r, env, env2);
    FreshKeepsHaltMonotone(svc, s, r, env);
    BodyChangesWithLatch(svc, r, Effective(r, Observed(s, r, env).ledger), s.halt.halted,
                         Fresh(svc, s, r, env, true).0.halt.halted, env);
  }

  /** Replaying a fresh, normally decided evaluation at once, at the same clock reading and health, matches
      if the evaluation left the latch as it found it or the request itself asks for a halt. Unless the two
      bodies collide it matches only then: a first block trips the latch, and the replay sees it. */
  lemma {:induction false} ImmediateReplay(svc: Service, s: State, r: Request, env: Env, env2: Env)
    requires NormallyDecided(svc, s, r, env)
    requires env.now == env2.now && env.healthy == env2.healthy && Interruption(svc, env2, false).None?
    requires NoCollision(svc.outputHash, FirstBody(svc, Fresh(svc, s, r, env, true).0, r, env2),
                         FirstBody(svc, s, r, env))
    ensures var (next, outcome) := Fresh(svc, s, r, env, true);
            Replay(svc, next, outcome.result, r, env2).1 == Returned(outcome.result.(replayMatch := Some(true)))
            <==> Settled(svc, s, r, env)
  {
    var (next, outcome) := Fresh(svc, s, r, env, true);
    SecondBodyIff(svc, s, r, env, env2);
    ReplayMatchesIff(svc, next, outcome.result, r, env2);
  }

  lemma {:induction false} ReplayMatchesIff(svc: Service, s: State, original: Result, r: Request, env: Env)
    requires Interruption(svc, env, false).None?
    ensures Replay(svc, s, original, r, env).1 == Returned(original.(replayMatch := Some(true)))
       <==> svc.outputHash(FirstBody(svc, s, r, env)) == original.decision.outputHash
  {
    ReplayOutputHash(svc, s, r, env);
  }

  lemma {:induction false} FreshKeepsHaltMonotone(svc: Service, s: State, r: Request, env: Env)
    ensures s.halt.halted ==> Fresh(svc, s, r, env, true).0.halt.halted
  {
    FreshLatch(svc, s, r, env, true);
  }

  /** A replay that is not interrupted returns a match exactly when the recomputed hash is the original's;
      a divergence is answered exactly for originals that were not approved, and raises for approvals. */
  lemma {:induction false} ReplayAnswers(svc: Service, s: State, original: Result, r: Request, env: Env)
    requires Interruption(svc, env, false).None? && !(svc.hasApi && env.divergenceFails)
    requires ShapeAccepted(original)
    ensures var outcome := Replay(svc, s, original, r, env).1;
            var same := svc.outputHash(FirstBody(svc, s, r, env)) == original.decision.outputHash;
            && (same <==> outcome == Returned(original.(replayMatch := Some(true))))
            && (!same && IsApproved(original.decision.final) <==> outcome == Raised(ShapeViolation))
            && (!same && !IsApproved(original.decision.final) ==>
                  outcome.Returned? && outcome.result.decision.status == ReplayDivergence
                  && outcome.result.replayMatch == Some(false))
  {
    ReplayOutputHash(svc, s, r, env);
  }
}
