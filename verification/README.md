# Verified model of the trading bot's decision core

This project models the stateful decision code of the bot in Dafny and proves what every run of it keeps.
`dafny verify dfyconfig.toml` checks all of it.

| part | modules | subject |
|---|---|---|
| PM4 capital gate | `CapitalContracts`, `Sizing`, `Checks`, `Ledger`, `Evaluation`, `EvaluationRuns`, `Admission`, `Restarts` | sizing, forty checks, drawdown ledger, latching halt, write-once memo, replay, restarts |
| PM8 store | `Payloads`, `Journal`, `Outbox` | hash-chained events, checkpoints, leases claimed by several workers |
| PM3 forecasting | `Envelope`, `WalkForward`, `Conformal` | type 7 quantiles, embargoed splitter, coverage tracker |
| PM2 market context | `Confluence`, `Qualification`, `Suppression` | capped score, candidate state machine, greedy suppressor, lists |
| PM3 strategy engine | `Ensemble` | weighted consensus over votes |
| Execution | `ExitPlan` | exit plan driven by prices |

Stateful code is a class whose methods are proved equal to a step function on values; loops are methods proved
against a specification. Theorems over whole runs are proved on the step functions, and the method contracts
carry them to the objects. `EvaluationRuns.WholeRunCapitalSafety` is the central result.

## Modelling choices

- `Decimal` and `float` are exact reals. Rounding appears only where the program asks for it: half-even onto a
  decimal grid, and truncation onto the exponent of a lot step.
- Times are integer seconds; a UTC date is seconds divided by 86400. Timestamps stored as ISO text in one format
  compare like the integers.
- Digests are arbitrary functions. Freedom from collisions is assumed only in the lemmas that name it, and only
  for the texts those lemmas hash.
- The clock, the health probe, new ids, storage outcomes and the injected fault are parameters of each call
  (`Env`). New ids are new: a second decision under a known key has another request hash, so its ingest conflicts.
- A run is any sequence of evaluate, replay and recover calls, restarts of the process on the same store, and
  other events reaching the journal, divergence reports of the gate among them. The ledger theorems that cross a
  restart ask that the reload window then holds the newest snapshot, and for requests on the grid.
- Readings of the PM2 scanner are tied to the time of the scan, to the regime held so far and to the time frames
  behind the two bias scores. The bars behind them are not modelled: range, trend, rate of change and swing flags
  of the decision time frame are free within their ranges.
- Payloads are what `json.dumps` makes of a dictionary. The journal theorems use one fact about them, that their
  brackets and quotes close for the first time at their end; `Payloads.DumpedDictIsObjectText` proves it of the
  serialiser. Numbers and the words `true`, `false` and `null` are texts without brackets, quotes and backslashes.
- A raised exception is a value of the outcome type, so every error path is part of the step functions.
- `ORDER BY` leaves ties in insertion order, and a negative `LIMIT` is no limit, as in SQLite. Each store method is
  one atomic step.
- The forty `put` statements of the checks are one pass over the catalogue, since each writes its own name.
- Requests carry amounts on the eight-decimal grid, as their contract enforces; configurations satisfy the bounds
  of their schema (`Valid`).
- Upper-casing and lower-casing cover ASCII letters.

## Where code and documentation differ

The model follows the code.

- The ledger is described as restart-safe. A restart loses nothing exactly when the last observation was persisted
  among the first 10,000 events (`Ledger.RestartLosesNothingIff`): `list_events` returns the oldest rows, and
  replays and failed snapshots move the ledger without persisting.
- A stored decision is meant to answer every repetition of its request. After a restart it does exactly while its
  event is among the first 10,000; past that the repetition is refused (`Restarts.RepeatedAfterRestart`).
- The halt is described as manual recovery only. The latch is not stored, so a restart clears it
  too (`EvaluationRuns.LatchHolds`), and a refused request can then be approved (`Restarts.RefusedThenApproved`).
- Fail closed is the answer to a fault after the commit, yet the store keeps the decision it committed and a
  restarted service returns it (`Restarts.RestartAgreesIff`).
- A diverging replay of an approval is meant to be reported; the report is an object its own validator refuses,
  so the call raises (`EvaluationRuns.ReplayAnswers`).
- The lot step is rounded to its power of ten, not to its multiples (`Decimals.RoundsToStepIffPowerOfTen`).
- The qualification table declares exits from STALE and COOLDOWN, and entries to INVALIDATED, that no run takes
  (`Qualification.WalkableIsExact`).
- The daily loss of a UTC date is meant to be carried through the date; that holds exactly for clocks that do not
  interrupt it (`Ledger.DailyLossIsWorstIffContiguous`).
- The ensemble breaks ties towards long under some admissible thresholds (`Ensemble.SymmetricIffTiesAreSafe`).
- `arm` accepts any side text, and `on_price` reads an unknown one as a sell (`ExitPlan.UnknownSideIsReadAsSell`).

## Model

| member | source | states |
|---|---|---|
| `EvaluationRuns.WholeRunCapitalSafety` | botmoduleproject1/modules/pm4_risk_gate/capital/evaluation.py:175-245 | after any sequence of evaluate, replay and recover calls and restarts from the first process on, a fresh approval has positive equity, a drawdown below `dd_freeze` from the highest equity or peak remembered, every streak remembered below the limit, and every loss of an uninterrupted UTC date below the daily cap |
| `EvaluationRuns.RunLedgerIsFold` | botmoduleproject1/modules/pm4_risk_gate/capital/evaluation.py:175-182 | the ledger of any run is the fold of exactly the observations it remembers: all those made since the last restart, replays included, after all those its last stored snapshot stands for |
| `EvaluationRuns.MemoryKeeps` | botmoduleproject1/modules/pm4_risk_gate/capital/drawdown_ledger.py:78-91 | the observation a call made is remembered at the end of a run iff no restart came after it, or that call or a later one stored a snapshot before the first restart |
| `EvaluationRuns.EffectiveFigures` | botmoduleproject1/modules/pm4_risk_gate/capital/evaluation.py:183-192 | the figures the checks see are the ledger's: its peak (for positive equity), its daily loss, its streak |
| `EvaluationRuns.ApprovedPassesEveryCheck` | botmoduleproject1/modules/pm4_risk_gate/capital/evaluation.py:229-242 | an approval has no failed and no blocked check at any of the forty catalogue positions |
| `EvaluationRuns.ApprovedRiskWithinCap` | botmoduleproject1/modules/pm4_risk_gate/capital/evaluation.py:204-215 | the risk of an approval is within equity times the per-trade cap, for any sign of the commission |
| `EvaluationRuns.ApprovedHeatWithinCap` | botmoduleproject1/modules/pm4_risk_gate/capital/checks.py:214-221 | heat after an approved trade is known and within the portfolio cap |
| `EvaluationRuns.SingleTradeCheckNeverFails` | botmoduleproject1/modules/pm4_risk_gate/capital/checks.py:184-189 | because of the sizer, the single-trade check can never fail, whatever the request |
| `EvaluationRuns.HeatCheckPassesBelowCap` | botmoduleproject1/modules/pm4_risk_gate/capital/checks.py:214-221 | with known exposure, positive equity and heat below the cap beforehand, the heat check cannot fail |
| `EvaluationRuns.EveryAnswerHasGoodShape` | botmoduleproject1/modules/pm4_risk_gate/capital/evaluation.py:99-116 | on every path of evaluate in every run, under every injected fault and storage failure: an idempotency conflict, or exactly one of intent and rejection, quantity positive iff approved, within the request and equal to it for APPROVED, forty checks in order and none bad in an approval |
| `EvaluationRuns.ApprovedQuantityWithinRequest` | botmoduleproject1/modules/pm4_risk_gate/capital/evaluation.py:233-242 | approved quantity is positive iff the state approves, never above the request, and equal to it when APPROVED |
| `EvaluationRuns.HaltedServiceRefuses` | botmoduleproject1/modules/pm4_risk_gate/capital/evaluation.py:244-245 | with the latch set, a fresh evaluation answers BLOCKED_SYSTEM or ERROR_FAIL_CLOSED, or raises a conflict |
| `EvaluationRuns.LatchHolds` | botmoduleproject1/modules/pm4_risk_gate/capital/safe_halt.py:11-19 | after any run, restarts included, the latch is set iff it was set at the start or tripped by some call, with no recovery by a non-empty, non-automatic actor and no restart since |
| `EvaluationRuns.BlockedDecisionTrips` | botmoduleproject1/modules/pm4_risk_gate/capital/evaluation.py:244-245 | an uninterrupted live pass that ends in a drawdown or system block leaves the latch set, even when storing then fails |
| `EvaluationRuns.MemoIsWriteOnce` | botmoduleproject1/modules/pm4_risk_gate/capital/evaluation.py:147-157 | over any run of one process a memo entry never changes, and every later evaluate under its key returns it, or raises on another input hash, with the whole state unchanged |
| `EvaluationRuns.MemoAnswers` | botmoduleproject1/modules/pm4_risk_gate/capital/evaluation.py:147-153 | a memoised key is answered from the memo alone, with no state change |
| `EvaluationRuns.ReplayWritesNothing` | botmoduleproject1/modules/pm4_risk_gate/capital/evaluation.py:118-135 | replay changes neither memo, key table nor journal, whether it returns or raises |
| `EvaluationRuns.ImmediateReplay` | botmoduleproject1/modules/pm4_risk_gate/capital/evaluation.py:118-135 | replay right after a normal decision at the same clock and health matches iff the latch was left as found or the request itself asks for a halt |
| `EvaluationRuns.ReplayAnswers` | botmoduleproject1/modules/pm4_risk_gate/capital/evaluation.py:120-135 | an uninterrupted replay returns a match iff the hashes agree; a divergence is reported for non-approvals and raises, by the shape validator, exactly for approvals |
| `EvaluationRuns.MissingReferenceGuardIdle` | botmoduleproject1/modules/pm4_risk_gate/capital/evaluation.py:406-408 | a committed approval always has a storage reference, so the guard on a missing one never acts |
| `EvaluationRuns.InterruptedIff` | botmoduleproject1/modules/pm4_risk_gate/capital/evaluation.py:159-219 | exactly which faults and storage failures interrupt an evaluation before its decision |
| `EvaluationRuns.InterruptedLeaves` | botmoduleproject1/modules/pm4_risk_gate/capital/evaluation.py:159-219 | an interrupted evaluation answers fail-closed, with nothing approved or at risk and all forty checks blocked, and memoises nothing; before the ledger it changes nothing, later it has moved the ledger and stored at most its snapshot |
| `Restarts.RestartAgreesIff` | botmoduleproject1/modules/pm4_risk_gate/capital/persistence.py:19-39 | after a first evaluation that wrote its decision event, any run and a restart, the repeated request gets the stored decision iff the key was stored too and the event is among the first 10,000, and is refused otherwise; the repeated answer agrees with the first iff nothing failed in or after the commit |
| `Restarts.EvaluateStores` | botmoduleproject1/modules/pm4_risk_gate/capital/persistence.py:41-99 | where a first evaluation puts its decision event and key, and that its answer is the stored decision iff nothing failed in or after the commit |
| `Restarts.RepeatedAfterRestart` | botmoduleproject1/modules/pm4_risk_gate/capital/persistence.py:19-39 | a request whose decision event is in the journal is answered by a restarted service with that decision iff its key was stored with this input and the event is among the first 10,000, and is refused otherwise |
| `Restarts.StoreIsWriteOnce` | botmoduleproject1/modules/pm8_persistence/api/v1.py:193-202 | a decision in the journal stays the only one under its key, and the same, in every run with any number of restarts |
| `Restarts.KnownKeyIsRefused` | botmoduleproject1/modules/pm8_persistence/api/v1.py:193-197 | once the journal holds a decision under a key, every fresh evaluation of that key ends in an idempotency conflict or fail-closed |
| `Restarts.ApprovedAtMostOnce` | botmoduleproject1/modules/pm4_risk_gate/capital/persistence.py:41-86 | with persistence, after a fresh approval no run with any number of restarts leads to another fresh approval under the same key |
| `Restarts.CommittedDecisionOutlivesFault` | botmoduleproject1/modules/pm4_risk_gate/capital/evaluation.py:379-412 | the failing case: a fault after the commit answers and memoises fail-closed, while a restarted service answers the same request with the decision that was committed |
| `Restarts.SystemBlockIff` | botmoduleproject1/modules/pm4_risk_gate/capital/evaluation.py:491-495 | BLOCKED_SYSTEM is decided iff the latch is set, the request asks for a halt, the control state is not a working one, or persistence is unavailable |
| `Restarts.RestartForgetsLatch` | botmoduleproject1/modules/pm4_risk_gate/capital/evaluation.py:84-90 | a new request a halted service answers with BLOCKED_SYSTEM gets that answer after a restart iff it brings such trouble of its own |
| `Restarts.RefusedThenApproved` | botmoduleproject1/modules/pm4_risk_gate/capital/evaluation.py:84-90 | the failing run: a first request asks for a halt and trips the latch, the next is refused with BLOCKED_SYSTEM, and is approved once the service is restarted |
| `Evaluation.ApprovalMeans` | botmoduleproject1/modules/pm4_risk_gate/capital/evaluation.py:491-504 | an approving state has nothing blocking, a positive size, and is REDUCED exactly when the size is below the request |
| `Evaluation.FirstBlockedIsInTable` | botmoduleproject1/modules/pm4_risk_gate/capital/evaluation.py:492-495 | the scan yields the state of the first blocking entry in table order, and nothing only when no entry blocks |
| `Evaluation.MakeResult` | botmoduleproject1/modules/pm4_risk_gate/capital/evaluation.py:334-376 | the built result satisfies the shape validator |
| `Evaluation.FailClosed` | botmoduleproject1/modules/pm4_risk_gate/capital/evaluation.py:414-488 | the fail-closed result satisfies the shape validator |
| `Evaluation.SafeHaltController.Trip` | botmoduleproject1/modules/pm4_risk_gate/capital/safe_halt.py:11-13 | sets the latch and the reason |
| `Evaluation.SafeHaltController.Recover` | botmoduleproject1/modules/pm4_risk_gate/capital/safe_halt.py:15-19 | clears the latch exactly for an explicit actor, else leaves it untouched |
| `Evaluation.CapitalEvaluationService.constructor` | botmoduleproject1/modules/pm4_risk_gate/capital/evaluation.py:73-90 | a new service on a store is in the restarted state of the run model: the ledger its journal reloads to (fresh without persistence), a clear latch, an empty memo |
| `Evaluation.CapitalEvaluationService.EvaluateRequest` | botmoduleproject1/modules/pm4_risk_gate/capital/evaluation.py:99-116 | outcome and full new state are those of the specification step `Evaluate`, on which the run theorems are proved |
| `Evaluation.CapitalEvaluationService.ReplayResult` | botmoduleproject1/modules/pm4_risk_gate/capital/evaluation.py:118-135 | outcome and full new state are those of the specification step `Replay` |
| `Evaluation.CapitalEvaluationService.Pass` | botmoduleproject1/modules/pm4_risk_gate/capital/evaluation.py:137-157 | memo, then store lookup, then a fresh pass; conflicts raise without a state change |
| `Evaluation.CapitalEvaluationService.LookUp` | botmoduleproject1/modules/pm4_risk_gate/capital/persistence.py:28-39 | the scan from the newest of the oldest 10,000 events back finds what the specification calls visible |
| `Evaluation.CapitalEvaluationService.FreshPass` | botmoduleproject1/modules/pm4_risk_gate/capital/evaluation.py:159-232 | ledger first, then faults, sizing and decision, in the order that decides what a fault leaves behind |
| `Evaluation.CapitalEvaluationService.Judge` | botmoduleproject1/modules/pm4_risk_gate/capital/evaluation.py:194-333 | the statement-by-statement sizing, checks and state give the decision of the specification |
| `Evaluation.CapitalEvaluationService.ListFailed` | botmoduleproject1/modules/pm4_risk_gate/capital/evaluation.py:229-231 | names of the blocking checks in report order |
| `Evaluation.CapitalEvaluationService.Finish` | botmoduleproject1/modules/pm4_risk_gate/capital/evaluation.py:377-412 | latch, store and memo after a decision, for live passes and replays |
| `Evaluation.CapitalEvaluationService.CommitResult` | botmoduleproject1/modules/pm4_risk_gate/capital/persistence.py:41-99 | journal, key table and answer for every storage outcome, known key and late fault |
| `Admission.BlocksIffViolated` | botmoduleproject1/modules/pm4_risk_gate/capital/checks.py:45-280 | each of the forty checks blocks iff the request violates it, stated in the request's own figures with every ratio written as a product |
| `Admission.StatusMeans` | botmoduleproject1/modules/pm4_risk_gate/capital/checks.py:45-280 | each outcome is blocked, failed, skipped or passed exactly when the request is barred, violates the check, waives it or none of these |
| `Admission.NamedIffViolated` | botmoduleproject1/modules/pm4_risk_gate/capital/checks.py:282-286 | the report names a check as blocking iff the request violates it |
| `Admission.StateIsVerdict` | botmoduleproject1/modules/pm4_risk_gate/capital/evaluation.py:491-504 | the state of any set of blocking checks and any size: the eleven blocked states in order of precedence, DEFERRED iff cooldown is the only one, REJECTED, reduced or full approval |
| `Admission.DecisionIsVerdict` | botmoduleproject1/modules/pm4_risk_gate/capital/evaluation.py:220-242 | the decision of the gate is that verdict on exactly what the request violates |
| `Admission.ApprovedIff` | botmoduleproject1/modules/pm4_risk_gate/capital/evaluation.py:229-242 | a request is approved iff it violates nothing and is sized above zero |
| `Admission.ApprovedInMoney` | botmoduleproject1/modules/pm4_risk_gate/capital/evaluation.py:194-333 | every fresh approval: heat and the six exposures with the reported risk within their share of the equity, spread, slippage, costs, stop distance and reward within limits, all figures known and fresh, session, symbol, regime and model allowed, no duplicate, cooldown, open reconciliation or halt |
| `Admission.FailedIffViolated` | botmoduleproject1/modules/pm4_risk_gate/capital/evaluation.py:229-231 | the failed checks of a decision are what the request violates |
| `Admission.DecisionCarries` | botmoduleproject1/modules/pm4_risk_gate/capital/evaluation.py:283-333 | quantity, hash, heat before and after in money, and no quantity or risk unless approved |
| `Admission.ApprovedRiskIsLossAtStop` | botmoduleproject1/modules/pm4_risk_gate/capital/evaluation.py:194-217 | the risk of a sized request is what its quantity loses at the stop, fees included, within the per-trade cap |
| `Admission.GateSpendsWhatIsAllowed` | botmoduleproject1/modules/pm4_risk_gate/capital/evaluation.py:194-217 | the theoretical size loses at the stop exactly the per-trade cap, or the money of the heat that is left when exposure is known and that is less |
| `Admission.BodyCommits` | botmoduleproject1/modules/pm4_risk_gate/capital/evaluation.py:270-279 | equal hashed bodies mean equal input, state, failed checks and check statuses, and equal quantity and risk to eight decimals |
| `Sizing.SizePosition` | botmoduleproject1/modules/pm4_risk_gate/capital/sizing.py:28-123 | equals the guarded closed form on which the bounds are proved, never reports a budget breach, and reports as risk what its lots lose in account currency at the stop, fees included, within the per-trade cap |
| `Sizing.RiskBudgetFor` | botmoduleproject1/modules/pm4_risk_gate/capital/sizing.py:55-63 | per-trade cap, heat cap only for positive headroom, less commission |
| `Sizing.RoundLots` | botmoduleproject1/modules/pm4_risk_gate/capital/sizing.py:71-95 | rounding, final risk and constraints, given a budget that covers the rounded risk |
| `Sizing.ListConstraints` | botmoduleproject1/modules/pm4_risk_gate/capital/sizing.py:89-95 | which limits are reported as binding, in order |
| `Sizing.RoundedIsGreatestWithinLimits` | botmoduleproject1/modules/pm4_risk_gate/capital/sizing.py:69-81 | a nonzero size is the greatest multiple of the step's power of ten within theoretical size, lot cap and request, and at least the minimum lot |
| `Sizing.BudgetGuardUnreachable` | botmoduleproject1/modules/pm4_risk_gate/capital/sizing.py:82-86 | risk of the rounded size is within the net budget, so the last guard cannot fire |
| `Sizing.FinalRiskWithinCaps` | botmoduleproject1/modules/pm4_risk_gate/capital/sizing.py:55-88 | final risk is within the per-trade cap for any commission, and within the heat budget for any positive headroom |
| `Sizing.SizerKeepsHeat` | botmoduleproject1/modules/pm4_risk_gate/capital/portfolio.py:13-31 | from heat below the cap, heat after the sized trade stays within the cap |
| `Sizing.SizerRefinesChecks` | botmoduleproject1/modules/pm4_risk_gate/capital/sizing.py:35-95 | fed the gate's own headroom, the sizer implies the single-trade bound and, below the cap, the heat bound |
| `Sizing.AtHeatLimitOnlyTheCheckStands` | botmoduleproject1/modules/pm4_risk_gate/capital/sizing.py:59-61 | headroom is zero, which disables the sizer's heat cap, iff heat is at or above the cap; the heat check refuses exactly the risks above the money left under the cap |
| `Sizing.FinalRiskIsLossAtStop` | botmoduleproject1/modules/pm4_risk_gate/capital/sizing.py:66-88 | a sized trade reports what it would lose in account currency when its stop is hit (units, price gap with costs, conversion rate, fees), within the per-trade cap and any positive headroom |
| `Sizing.TheoreticalSpendsTheLimit` | botmoduleproject1/modules/pm4_risk_gate/capital/sizing.py:55-70 | the theoretical size loses exactly the least of the loss limits at its stop; the constrained size is the least of it, the lot cap and the request |
| `Sizing.ZeroSizeIff` | botmoduleproject1/modules/pm4_risk_gate/capital/sizing.py:71-80 | nothing is traded iff no multiple of the quantum fits between the minimum lot and the constrained size |
| `Sizing.SizedIff` | botmoduleproject1/modules/pm4_risk_gate/capital/sizing.py:35-68 | a trade is sized iff stop, exit price, step, rate and equity are known and on the right side and fees leave part of the loss limit |
| `Sizing.StopsMean` | botmoduleproject1/modules/pm4_risk_gate/capital/sizing.py:20-40 | the reported stop distances, to the stop and to where the position is left |
| `Sizing.ConstraintsMean` | botmoduleproject1/modules/pm4_risk_gate/capital/sizing.py:71-95 | which limits are reported as binding |
| `Sizing.SellMirrorsBuy` | botmoduleproject1/modules/pm4_risk_gate/capital/sizing.py:20-25 | a sell is sized as the buy with its prices reflected |
| `Sizing.SizeInverseToRate` | botmoduleproject1/modules/pm4_risk_gate/capital/sizing.py:66-69 | the theoretical size is inversely proportional to the conversion rate |
| `Decimals.RoundHalfEven` | botmoduleproject1/modules/pm8_persistence/money.py:46-63 | the result is within one half, and even on ties |
| `Decimals.HalfEvenMonotone` | botmoduleproject1/modules/pm3_forecasting/inference/envelope.py:70-72 | half-even rounding never reverses two values |
| `Decimals.HalfEvenOnIntegers` | botmoduleproject1/modules/pm8_persistence/money.py:46-59 | values already on the grid are fixed points |
| `Decimals.ParsedIsOnGrid` | botmoduleproject1/modules/pm8_persistence/money.py:46-63 | canonical text and parsing are inverse on the eight-decimal grid |
| `Decimals.NormalizeKeepsValue` | botmoduleproject1/modules/pm4_risk_gate/capital/sizing.py:44-45 | normalising a lot step keeps its value and leaves no trailing zero |
| `Decimals.RoundDownIsGreatestMultiple` | botmoduleproject1/modules/pm4_risk_gate/capital/sizing.py:76-76 | truncation yields the greatest multiple not above a non-negative value |
| `Decimals.RoundDownIsOdd` | botmoduleproject1/modules/pm4_risk_gate/capital/sizing.py:76-76 | truncation treats both signs alike |
| `Decimals.RoundsToStepIffPowerOfTen` | botmoduleproject1/modules/pm4_risk_gate/capital/sizing.py:44-76 | rounding yields multiples of the step for every size iff the normalised step is a power of ten |
| `Decimals.FiveCentStepIsNotRespected` | botmoduleproject1/modules/pm4_risk_gate/capital/sizing.py:44-76 | a concrete size that a 0.05 step rounds to a non-multiple of 0.05 |
| `Checks.RunChecks` | botmoduleproject1/modules/pm4_risk_gate/capital/checks.py:45-286 | the report holds every catalogue check once, in catalogue order, with the outcome its rule gives; `Admission.BlocksIffViolated` says in raw figures when each one blocks |
| `Checks.FillThenOrder` | botmoduleproject1/modules/pm4_risk_gate/capital/checks.py:282-286 | listing a filled dictionary in catalogue order misses no name, so the not-executed filler is dead |
| `Checks.OutcomeShape` | botmoduleproject1/modules/pm4_risk_gate/capital/checks.py:22-42 | every outcome carries its own name and is blocking iff it failed or blocked |
| `Checks.LowerMeans` | botmoduleproject1/modules/pm4_risk_gate/capital/checks.py:89-89 | lower-casing moves ASCII capitals to their small letters and nothing else |
| `Ledger.LedgerIsFold` | botmoduleproject1/modules/pm4_risk_gate/capital/drawdown_ledger.py:50-92 | under a non-decreasing clock: peak is the maximum of all peaks and equities, streak of all streaks, daily loss the worst of the current UTC date |
| `Ledger.FoldPeakAndStreak` | botmoduleproject1/modules/pm4_risk_gate/capital/drawdown_ledger.py:67-77 | peak and streak are attained maxima of the whole history, in any order of arrival |
| `Ledger.FoldDailyLoss` | botmoduleproject1/modules/pm4_risk_gate/capital/drawdown_ledger.py:60-75 | daily loss is the attained worst loss of the last date when that date is uninterrupted |
| `Ledger.DailyLossIsWorstIffContiguous` | botmoduleproject1/modules/pm4_risk_gate/capital/drawdown_ledger.py:60-75 | on given instants the daily loss is the worst of the last date for every history iff that date is uninterrupted |
| `Ledger.DayMeans` | botmoduleproject1/modules/pm4_risk_gate/capital/drawdown_ledger.py:25-27 | the date of an instant is the day of 86,400 seconds it falls in, also before the epoch |
| `Ledger.LossIsShortfall` | botmoduleproject1/modules/pm4_risk_gate/capital/drawdown_ledger.py:73-75 | only a negative realised result is a loss |
| `Ledger.MonotoneIsContiguous` | botmoduleproject1/modules/pm4_risk_gate/capital/drawdown_ledger.py:60-66 | a non-decreasing clock never interrupts a date |
| `Ledger.DetourForgetsLoss` | botmoduleproject1/modules/pm4_risk_gate/capital/drawdown_ledger.py:60-66 | the failing case: an observation on another date erases the carried loss, so a clock that leaves a date and returns starts it again |
| `Ledger.ObserveIdempotent` | botmoduleproject1/modules/pm4_risk_gate/capital/drawdown_ledger.py:60-77 | a second look at the same observation changes nothing |
| `Ledger.ObserveKeepsGrid` | botmoduleproject1/modules/pm4_risk_gate/capital/drawdown_ledger.py:60-84 | observing grid amounts keeps the ledger on the grid, so its snapshot loses nothing |
| `Ledger.DrawdownLedger.constructor` | botmoduleproject1/modules/pm4_risk_gate/capital/drawdown_ledger.py:15-23 | a new ledger without persistence is fresh |
| `Ledger.DrawdownLedger.ObserveOnce` | botmoduleproject1/modules/pm4_risk_gate/capital/drawdown_ledger.py:50-92 | the field-by-field update equals the closed form, and the snapshot is that of the new state |
| `Ledger.DrawdownLedger.Reload` | botmoduleproject1/modules/pm4_risk_gate/capital/drawdown_ledger.py:29-48 | restores the newest snapshot among the oldest 10,000 events, or leaves the state alone |
| `Ledger.SnapshotTracksSaved` | botmoduleproject1/modules/pm4_risk_gate/capital/drawdown_ledger.py:78-91 | in every history of persisted, unpersisted and foreign events the newest snapshot restores to the last persisted state |
| `Ledger.ReloadRestoresSavedState` | botmoduleproject1/modules/pm4_risk_gate/capital/drawdown_ledger.py:29-48 | a restart restores exactly the last persisted state while the journal has at most 10,000 events |
| `Ledger.ReloadFaithfulIffWithinWindow` | botmoduleproject1/modules/pm4_risk_gate/capital/drawdown_ledger.py:32-36 | every journal of length n reloads to the last persisted state iff n is at most 10,000 |
| `Ledger.RestartLosesNothingIff` | botmoduleproject1/modules/pm4_risk_gate/capital/drawdown_ledger.py:29-92 | for a sequence of persisted, unpersisted and foreign steps, a restart restores the state the ledger held whatever was observed iff the last observation was persisted among the first 10,000 events, or there was none |
| `Ledger.LateSnapshotIsMissed` | botmoduleproject1/modules/pm8_persistence/store.py:139-141 | a first snapshot written after 10,000 other events is not found: the reload starts from nothing |
| `Journal.RunKeepsChain` | botmoduleproject1/modules/pm8_persistence/store.py:109-132 | every run of appends keeps the hash links and the uniqueness of ids |
| `Journal.SameTipSameContent` | botmoduleproject1/modules/pm8_persistence/store.py:28-29 | for a 64-digit digest without collisions on the hashed texts, equal tips mean the same ordered payloads, ids and hashes, for serialised-object payloads under any ids, or any payloads under ids of one length |
| `Journal.RowHashDetermines` | botmoduleproject1/modules/pm8_persistence/store.py:110-112 | equal row hashes mean equal predecessor, payload and id, when the end of the payload can be told |
| `Payloads.ObjectTextsSplit` | botmoduleproject1/modules/pm8_persistence/api/v1.py:205-216 | a serialised object is never continued by another one, so what follows it is determined |
| `Payloads.DumpedDictIsObjectText` | botmoduleproject1/modules/pm8_persistence/api/v1.py:205-216 | what the serialiser makes of any dictionary, nested and with any text in it, is such an object: it closes for the first time at its end |
| `Payloads.EscapedReadsBack` | botmoduleproject1/modules/pm8_persistence/api/v1.py:215-215 | escaping loses nothing: every text is read back code point by code point, surrogate pairs included |
| `Journal.LengthsSeparateIffEqual` | botmoduleproject1/modules/pm8_persistence/store.py:112-112 | for arbitrary payload texts the hashed text determines payload and id, for ids of lengths m and n, iff m equals n |
| `Journal.ReappendReproduces` | botmoduleproject1/modules/pm8_persistence/store.py:109-146 | re-appending a dump in order into an empty store reproduces every stored hash; a limited dump reproduces that prefix |
| `Journal.BuiltJournalsAreLinked` | botmoduleproject1/modules/pm8_persistence/api/v1.py:884-907 | a journal built by appends passes the link check |
| `Journal.LinksIgnoreContent` | botmoduleproject1/modules/pm8_persistence/api/v1.py:884-899 | the link check reads hashes alone: replacing the content of a row changes no link, and breaks the chain iff the row no longer hashes to what it stores |
| `Journal.ChainedIsLinkedAndRecomputes` | botmoduleproject1/modules/pm8_persistence/store.py:109-132 | a journal is chained iff it is linked and every stored row hash recomputes |
| `Journal.IntegrityCheckDecidesIffWithinWindow` | botmoduleproject1/modules/pm8_persistence/api/v1.py:884-889 | the link check decides every journal of length n with distinct ids iff n is at most 1,000,000 |
| `Journal.EventStore.AppendEvent` | botmoduleproject1/modules/pm8_persistence/store.py:109-132 | appends one chained row under the next sequence number, or refuses a known id and changes nothing |
| `Journal.EventStore.LastHash` | botmoduleproject1/modules/pm8_persistence/store.py:143-146 | the newest row hash, or the genesis text |
| `Journal.EventStore.CheckIntegrity` | botmoduleproject1/modules/pm8_persistence/api/v1.py:884-907 | valid iff the window is linked; a mismatch is the first broken link |
| `Journal.EventStore.SaveCheckpoint` | botmoduleproject1/modules/pm8_persistence/store.py:361-373 | accepted iff the cursor is not behind the greatest one; saved cursors stay monotone |
| `Journal.EventStore.LatestCheckpoint` | botmoduleproject1/modules/pm8_persistence/store.py:375-380 | a greatest row in (cursor, time) order, whose cursor is that of the last accepted save |
| `Outbox.LeasesAreExclusive` | botmoduleproject1/modules/pm8_persistence/store.py:282-291 | over every interleaving under a non-decreasing clock, two successful claims of one row without a mark between them have the first lease over before the second claim |
| `Outbox.LeaseOutlastsRun` | botmoduleproject1/modules/pm8_persistence/store.py:282-303 | a held lease survives every run that does not mark the row; any later successful claim comes after it ran out |
| `Outbox.SelectionMeans` | botmoduleproject1/modules/pm8_persistence/store.py:272-280 | the selection holds claimable rows only, without duplicates, in creation order, as many as the limit allows |
| `Outbox.SelectionTakesOldest` | botmoduleproject1/modules/pm8_persistence/store.py:272-280 | a claimable row left out is no older than any row taken |
| `Outbox.TiesKeepTableOrder` | botmoduleproject1/modules/pm8_persistence/store.py:272-280 | rows created at the same time are taken in table order |
| `Outbox.TerminalRowsStay` | botmoduleproject1/modules/pm8_persistence/store.py:272-303 | published and dead-letter rows stay so and cannot be claimed in any run that does not mark them |
| `Outbox.FailureReportReopens` | botmoduleproject1/modules/pm8_persistence/store.py:311-317 | a failure report makes any existing row claimable at once, published ones included, iff it is not the last attempt |
| `Outbox.OutboxTable.EnqueueRow` | botmoduleproject1/modules/pm8_persistence/store.py:238-263 | adds a row, or refuses a known id |
| `Outbox.OutboxTable.ClaimOutbox` | botmoduleproject1/modules/pm8_persistence/store.py:282-291 | leases the row and reports success exactly when it was claimable |
| `Outbox.OutboxTable.ClaimOutboxBatch` | botmoduleproject1/modules/pm8_persistence/store.py:293-303 | claims every selected row, in creation order, with the lease filled in: no selected row is lost between selection and claim |
| `Outbox.OutboxTable.MarkOutbox` | botmoduleproject1/modules/pm8_persistence/store.py:305-309 | per row: the marked one takes state, one more attempt and a given publication time and keeps its lease; every other row is unchanged; ids stay unique |
| `Outbox.OutboxTable.MarkOutboxFailed` | botmoduleproject1/modules/pm8_persistence/store.py:311-317 | per row: the reported one is failed or dead, with reason, next attempt and one more attempt, and no owner or lease; every other row is unchanged; ids stay unique |
| `Envelope.EnvelopeIsTotalAndOrdered` | botmoduleproject1/modules/pm3_forecasting/inference/envelope.py:78-100 | an envelope exists iff the sample is non-empty and the close positive; it is ordered and bracketed by the prices of the extreme returns |
| `Envelope.QuantilesAreAtTheirLevels` | botmoduleproject1/modules/pm3_forecasting/inference/envelope.py:51-98 | the five quantiles are the prices of the percentiles at 5, 25, 50, 75 and 95 per cent |
| `Envelope.PriceIsNearest` | botmoduleproject1/modules/pm3_forecasting/inference/envelope.py:70-72 | a price is the multiple of the quantum nearest to the close moved by the return |
| `Envelope.EnvelopeIgnoresOrder` | botmoduleproject1/modules/pm3_forecasting/inference/envelope.py:51-58 | the envelope depends on the multiset of returns only |
| `Envelope.PercentileMonotone` | botmoduleproject1/modules/pm3_forecasting/inference/envelope.py:30-48 | type 7 percentiles are monotone in the level and within the sample range |
| `Envelope.PercentileIsAtIndex` | botmoduleproject1/modules/pm3_forecasting/inference/envelope.py:40-48 | the index clamps are idle and the ceiling is the next index |
| `Envelope.PercentileReflects` | botmoduleproject1/modules/pm3_forecasting/inference/envelope.py:30-48 | reflecting the sample mirrors the percentile: p on the sample is 1 - p on the reflection, negated |
| `Envelope.ReturnGuardIdle` | botmoduleproject1/modules/pm3_forecasting/inference/envelope.py:51-58 | the return-order guard never rejects a non-empty sample |
| `Envelope.PriceMonotone` | botmoduleproject1/modules/pm3_forecasting/inference/envelope.py:61-75 | price mapping with half-even rounding preserves the order of returns |
| `WalkForward.ConfirmBars` | botmoduleproject1/modules/pm3_forecasting/features/returns.py:42-72 | returns all bars iff none has a fault, else the first fault in bar and check order |
| `WalkForward.ConfirmableIff` | botmoduleproject1/modules/pm3_forecasting/features/returns.py:42-72 | bars are accepted iff there are some, of one symbol and time frame, strictly increasing, positive, ended by and opened before the inference time |
| `WalkForward.WalkForwardSamples` | botmoduleproject1/modules/pm3_forecasting/research/splitter.py:41-72 | the loop equals the split specification; on confirmed bars each sample's return takes its first close to its last, outside the embargo; the embargo guard inside the loop is dead |
| `WalkForward.SplitOnConfirmed` | botmoduleproject1/modules/pm3_forecasting/research/splitter.py:41-72 | on confirmed bars the splitter never raises and yields max(0, n - horizon - embargo) samples, none ending inside the embargo, each with the indices and times of its bars and the return that takes its first close to its last |
| `WalkForward.RaisesIffLookingAhead` | botmoduleproject1/modules/pm3_forecasting/research/splitter.py:41-61 | on any bars the splitter raises iff the embargo is missing or some start has an end bar that opens at or ends after the inference time |
| `WalkForward.EmbargoIsBlind` | botmoduleproject1/modules/pm3_forecasting/research/splitter.py:45-72 | no edit to the last embargo bars changes the outcome, on any bars |
| `WalkForward.ForecastTotal` | botmoduleproject1/modules/pm3_forecasting/application/enrichment.py:72-91 | on confirmed bars a forecast is made iff enough samples remain, and is then ordered |
| `WalkForward.SteadyGrowthForecast` | botmoduleproject1/modules/pm3_forecasting/application/enrichment.py:72-91 | on bars that grow by a factor per horizon every quantile is the last close times that factor, on the price grid |
| `WalkForward.ForecastReadsOnlyLastClose` | botmoduleproject1/modules/pm3_forecasting/application/enrichment.py:85-91 | embargoed bars influence the forecast through the last close alone |
| `Conformal.TrackerRunConserves` | botmoduleproject1/modules/pm3_forecasting/inference/conformal.py:54-104 | in every run each id was registered as often as it is pending plus scored; nested forecasts give nested scores |
| `Conformal.RealizeConserves` | botmoduleproject1/modules/pm3_forecasting/inference/conformal.py:76-104 | realising moves forecasts from pending to scored, none lost and none doubled |
| `Conformal.OwnBarsDoNotDecide` | botmoduleproject1/modules/pm3_forecasting/application/enrichment.py:128-129 | a forecast registered on the last confirmed bar stays pending when those bars are realised |
| `Conformal.DecidedAfterHorizon` | botmoduleproject1/modules/pm3_forecasting/inference/conformal.py:80-90 | on evenly spaced bars the deciding bar is the one horizon bars after the last bar of the forecast |
| `Conformal.RealizedMeans` | botmoduleproject1/modules/pm3_forecasting/inference/conformal.py:83-103 | exactly the decided forecasts are scored, each by its deciding bar and its two bands, and exactly the others stay |
| `Conformal.CoverageIsShare` | botmoduleproject1/modules/pm3_forecasting/inference/conformal.py:110-120 | coverage times the number of scores is the number inside the band |
| `Conformal.CoverageNested` | botmoduleproject1/modules/pm3_forecasting/inference/conformal.py:110-120 | 0 <= coverage_50 <= coverage_90 <= 1 |
| `Conformal.ConformalTracker.constructor` | botmoduleproject1/modules/pm3_forecasting/inference/conformal.py:48-52 | an empty tracker |
| `Conformal.ConformalTracker.Register` | botmoduleproject1/modules/pm3_forecasting/inference/conformal.py:54-74 | appends the forecast, scores untouched |
| `Conformal.ConformalTracker.Realize` | botmoduleproject1/modules/pm3_forecasting/inference/conformal.py:76-104 | scores exactly the forecasts whose horizon bar is present, keeps the others in order, conserves every id |
| `Conformal.ConformalTracker.Sweep` | botmoduleproject1/modules/pm3_forecasting/inference/conformal.py:80-104 | the loop leaves exactly the undecided forecasts pending and counts the scored ones |
| `Confluence.ScoreNeverAbove83` | botmoduleproject1/modules/pm2_market_context/scoring/confluence_engine.py:41-65 | for every weight and input the final score is in [0, 83], so TOP is never assigned, and a veto forces SUPPRESS |
| `Confluence.Score83IsReached` | botmoduleproject1/modules/pm2_market_context/scoring/confluence_engine.py:41-65 | 83 is attained with weights inside [0, 2] |
| `Confluence.DefaultScoreNeverAbove6781` | botmoduleproject1/modules/pm2_market_context/scoring/confluence_engine.py:41-65 | with default weights, whatever the features, the score is at most 67.81, so HIGH is never assigned |
| `Confluence.DefaultScore6781IsReached` | botmoduleproject1/modules/pm2_market_context/scoring/confluence_engine.py:41-65 | 67.81 is attained by features in range, so the bound is exact |
| `Confluence.RegimeAndVolatilityTogether` | botmoduleproject1/modules/pm2_market_context/regime/baseline_rules.py:9-27 | outside the vetoed volatility range, regime and volatility parts together stay at or below 23.16 |
| `Confluence.BiasesComplement` | botmoduleproject1/modules/pm2_market_context/engines/bias_engine.py:18-39 | the long and short bias of any weighted time frames are complementary percentages |
| `Confluence.TrioAfterPenalty` | botmoduleproject1/modules/pm2_market_context/features/governance.py:13-24 | bias, structure and momentum less their redundancy penalty stay at or below 43 |
| `Confluence.ScoreMirrors` | botmoduleproject1/modules/pm2_market_context/scoring/confluence_engine.py:41-65 | swapping long and short evidence leaves the score unchanged |
| `Confluence.DefaultPoints` | botmoduleproject1/modules/pm2_market_context/scoring/confluence_engine.py:43-58 | with default weights and evidence in range the six families earn 0.2, 0.2, 0.15, 0.1275, 0.07 and 0.06 points per percent |
| `Confluence.PartsAreShares` | botmoduleproject1/modules/pm2_market_context/scoring/confluence_engine.py:43-58 | each family earns in proportion to its weight, up to its cap |
| `Confluence.ScoreIsPointsLessPenalties` | botmoduleproject1/modules/pm2_market_context/scoring/confluence_engine.py:59-65 | the score is the points less the crowding, indecision and regime penalties, never negative, at most 39 under a veto |
| `Confluence.TierBands` | botmoduleproject1/contracts/v1/pm2.py:177-187 | the five tiers are the score bands below 40, 60, 75, 90 and above |
| `Confluence.VolatilityBands` | botmoduleproject1/modules/pm2_market_context/engines/volatility_engine.py:19-37 | the range of each volatility phase and the straight line the score follows on each range |
| `Confluence.RegimeBands` | botmoduleproject1/modules/pm2_market_context/regime/baseline_rules.py:9-27 | the range of each regime and its confidence there |
| `Confluence.SessionBands` | botmoduleproject1/modules/pm2_market_context/engines/session_liquidity_engine.py:21-49 | the session score of each hour: 85 in the overlap, 30 at rollover, 10 on weekends, 55 otherwise, never the off-session one |
| `Confluence.StructureBands` | botmoduleproject1/modules/pm2_market_context/engines/structure_engine.py:35-63 | the quality of each combination of swings |
| `Qualification.Transition` | botmoduleproject1/modules/pm2_market_context/qualification/state_machine.py:61-116 | the branch-by-branch update equals the specification step |
| `Qualification.EveryMoveIsWalkableAndLegal` | botmoduleproject1/modules/pm2_market_context/qualification/state_machine.py:61-104 | every step stays or follows both the declared table and the smaller walkable graph |
| `Qualification.WalkableIsExact` | botmoduleproject1/modules/pm2_market_context/qualification/state_machine.py:16-58 | a move occurs in some series of scanner readings from initial iff it is in the walkable graph and its origin is not INVALIDATED; readings carry engine features with the hour and weekday of their time, the held regime and the stale flag follow the scanner, thresholds and weights are admissible |
| `Qualification.NeverInvalidated` | botmoduleproject1/modules/pm2_market_context/module.py:167-210 | no series of readings leads the scanner to INVALIDATED |
| `Qualification.RunInvariant` | botmoduleproject1/modules/pm2_market_context/qualification/state_machine.py:69-125 | in every run from initial: never INVALIDATED, QUALIFIED has count at least max(2, persistence_bars), FORMING counts its streak of unsuppressed scans |
| `Qualification.QualifiedEntry` | botmoduleproject1/modules/pm2_market_context/qualification/state_machine.py:81-89 | QUALIFIED is entered only from FORMING after at least max(2, persistence_bars) consecutive unsuppressed scans, all but the first at or above the watch score |
| `Qualification.ConfirmedIsBrief` | botmoduleproject1/modules/pm2_market_context/qualification/state_machine.py:96-97 | CONFIRMED never lasts two scans |
| `Qualification.TimesMean` | botmoduleproject1/modules/pm2_market_context/qualification/state_machine.py:105-116 | entry, cooldown and staleness times after every step |
| `Qualification.PersistMeans` | botmoduleproject1/modules/pm2_market_context/regime/persistence.py:8-22 | the held regime changes iff the incoming one is untradeable, has been awaited for two scans or has three quarters confidence; the count restarts with every change |
| `Qualification.WeekendMeans` | botmoduleproject1/modules/pm2_market_context/module.py:184-184 | the weekend is days two and three of the epoch's weeks |
| `Qualification.HourMeans` | botmoduleproject1/modules/pm2_market_context/engines/session_liquidity_engine.py:22-22 | the hour of a time counts from its own midnight |
| `Qualification.StaleAndCooldownAreTraps` | botmoduleproject1/modules/pm2_market_context/qualification/state_machine.py:69-104 | in every run STALE is absorbing and COOLDOWN leaves only to STALE |
| `Qualification.DefaultRunsNeverConfirm` | botmoduleproject1/modules/pm2_market_context/qualification/state_machine.py:92-93 | with engine scores and default weights no run enters CONFIRMED, whatever the thresholds |
| `Suppression.SuppressRanked` | botmoduleproject1/modules/pm2_market_context/suppression/conflict_suppressor.py:35-98 | the loop yields the walk about which the guarantees below are proved |
| `Suppression.VisitOne` | botmoduleproject1/modules/pm2_market_context/suppression/conflict_suppressor.py:45-96 | one candidate: reasons, penalty, record or survival, clusters and symbols in use |
| `Suppression.CollectReasons` | botmoduleproject1/modules/pm2_market_context/suppression/conflict_suppressor.py:46-57 | all reasons in source order |
| `Suppression.CollectConflicts` | botmoduleproject1/modules/pm2_market_context/suppression/conflict_suppressor.py:54-57 | one conflict reason per opposing earlier candidate on a shared currency |
| `Suppression.ReasonsMean` | botmoduleproject1/modules/pm2_market_context/suppression/conflict_suppressor.py:46-57 | exactly what brings each reason: vetoes, the suppress tier, low confidence, a cluster in use, a penalised score below 40, an opposing earlier candidate on a shared currency |
| `Suppression.PenaltyMeans` | botmoduleproject1/modules/pm2_market_context/suppression/conflict_suppressor.py:19-32 | each surviving symbol on a shared currency costs six points, at most eighteen; the score stays a percentage and the tier follows it |
| `Suppression.PairsShareIff` | botmoduleproject1/modules/pm2_market_context/engines/correlation_engine.py:18-32 | two currency pairs, with or without a slash and in letters of any case, share a currency iff one of the four matches of base and quote holds |
| `Suppression.SuppressedState` | botmoduleproject1/modules/pm2_market_context/suppression/conflict_suppressor.py:59-73 | the forced or walked state is always SUPPRESSED |
| `Suppression.SuppressedStateMeans` | botmoduleproject1/modules/pm2_market_context/suppression/conflict_suppressor.py:59-73 | reason, count and entry time by how a candidate comes to be suppressed: through the state machine, by holding a suppression, or by force |
| `Suppression.OutputKeepsOrder` | botmoduleproject1/modules/pm2_market_context/suppression/conflict_suppressor.py:83-98 | every candidate stays at its position; survivors keep their state, the others end SUPPRESSED with their reasons and no handoff; no score rises |
| `Suppression.SurvivorsHaveOwnClusters` | botmoduleproject1/modules/pm2_market_context/suppression/conflict_suppressor.py:48-49 | no two survivors share a named cluster when one per cluster is asked for |
| `Suppression.SurvivorsDoNotConflict` | botmoduleproject1/modules/pm2_market_context/suppression/conflict_suppressor.py:54-57 | a survivor opposes no earlier candidate on a shared currency, suppressed ones included |
| `Suppression.OneRecordEach` | botmoduleproject1/modules/pm2_market_context/suppression/conflict_suppressor.py:74-82 | as many records as suppressed candidates; every other symbol is in use |
| `Suppression.BuildShortlist` | botmoduleproject1/modules/pm2_market_context/ranking/shortlist_builder.py:19-31 | the first worthy candidates in rank order, up to the size |
| `Suppression.BuildWatchlist` | botmoduleproject1/modules/pm2_market_context/ranking/shortlist_builder.py:34-50 | the first watchable candidates not shortlisted, up to the size |
| `Suppression.ListsAreSound` | botmoduleproject1/modules/pm2_market_context/ranking/shortlist_builder.py:19-50 | both lists are within size, share no candidate, and hold nothing suppressed, stale or invalidated |
| `Suppression.ListsAreComplete` | botmoduleproject1/modules/pm2_market_context/ranking/shortlist_builder.py:19-50 | the shortlist holds live eligible, high and top candidates, the watchlist live watched or forming ones; a fit candidate is missing only when the list is full |
| `Suppression.SelectKeepsOrder` | botmoduleproject1/modules/pm2_market_context/ranking/shortlist_builder.py:23-31 | the lists keep the order of the ranking |
| `Suppression.SuppressedNeverListed` | botmoduleproject1/modules/pm2_market_context/ranking/shortlist_builder.py:24-26 | a candidate the suppressor rejected reaches neither list, however its output is reordered |
| `Ensemble.DecideVotes` | botmoduleproject1/modules/pm3_strategy_engine/consensus/weighted_ensemble.py:32-118 | the loops give the consensus of the specification sums, with the averages, figures and verdict conditions of `Ensemble.ConsensusMeans` |
| `Ensemble.SelectVotes` | botmoduleproject1/modules/pm3_strategy_engine/consensus/weighted_ensemble.py:35-44 | keeps exactly the votes that neither abstain nor are flat, with every sum unchanged |
| `Ensemble.Accumulate` | botmoduleproject1/modules/pm3_strategy_engine/consensus/weighted_ensemble.py:62-80 | per-side mass and weight of the selected votes |
| `Ensemble.ConsensusMeans` | botmoduleproject1/modules/pm3_strategy_engine/consensus/weighted_ensemble.py:46-103 | with too few votes the consensus waits with zero figures; otherwise the two probabilities are the averages by standing of the votes for each side, conflict, agreement and confidence follow from them, and each of the four verdicts has its exact condition |
| `Ensemble.DecisionIgnoresOrder` | botmoduleproject1/modules/pm3_strategy_engine/consensus/weighted_ensemble.py:32-118 | the consensus is the same for every permutation of the votes |
| `Ensemble.SideMeanBetweenVotes` | botmoduleproject1/modules/pm3_strategy_engine/consensus/weighted_ensemble.py:82-83 | a side with weight has a probability between the least and greatest calibrated probability voted on it; a side without weight has zero |
| `Ensemble.FiguresAreProportions` | botmoduleproject1/modules/pm3_strategy_engine/consensus/weighted_ensemble.py:82-88 | all five figures are in [0, 1] |
| `Ensemble.SymmetricIffTiesAreSafe` | botmoduleproject1/modules/pm3_strategy_engine/consensus/weighted_ensemble.py:82-103 | swapping BUY and SELL mirrors every consensus iff edge_margin > 0, or go_threshold > 0 with conflict_no_trade <= 0.5 |
| `Ensemble.UnsafeTieBreaks` | botmoduleproject1/modules/pm3_strategy_engine/consensus/weighted_ensemble.py:92-100 | otherwise a concrete vote list goes long both as given and swapped |
| `ExitPlan.RunKeepsInvariant` | botmoduleproject1/modules/mt5_execution_engine/exit_engine.py:66-100 | under any price stream from a valid arming: the stop tightens and never passes entry, the lock occurs at most once, exactly one closing event is recorded, last, iff CLOSED |
| `ExitPlan.StopNeverLoosens` | botmoduleproject1/modules/mt5_execution_engine/exit_engine.py:66-100 | a longer stream never loosens the stop or drops an event, and never changes a closed plan |
| `ExitPlan.LockIffReached` | botmoduleproject1/modules/mt5_execution_engine/exit_engine.py:75-81 | the stop is at entry iff some in-time tick on an open plan reached one risk unit of gain |
| `ExitPlan.ClosedByItsCause` | botmoduleproject1/modules/mt5_execution_engine/exit_engine.py:66-100 | in raw prices per side: a plan is closed iff some tick came after the hour, touched the stop then in force or reached the target, and its last event is the cause of the first such tick, time before stop before target |
| `ExitPlan.RunReflects` | botmoduleproject1/modules/mt5_execution_engine/exit_engine.py:66-100 | a sell run is the reflection of a buy run about entry |
| `ExitPlan.UnknownSideIsReadAsSell` | botmoduleproject1/modules/mt5_execution_engine/exit_engine.py:51-56 | a plan armed under any other side text survives a first in-time tick at entry iff its levels are ordered as a sell |
| `ExitPlan.ArmPlan` | botmoduleproject1/modules/mt5_execution_engine/exit_engine.py:41-64 | refuses levels at entry or in the wrong order for a known side, else a fresh armed plan |
| `ExitPlan.ExitPlanLive.constructor` | botmoduleproject1/modules/mt5_execution_engine/exit_engine.py:57-64 | an armed plan with no events, one hour of time stop and a lock at one risk unit |
| `ExitPlan.ExitPlanLive.Price` | botmoduleproject1/modules/mt5_execution_engine/exit_engine.py:66-100 | the in-place update equals the specification tick on every field; an open plan closes iff the tick is late, at the stop or at the target in raw prices per side, and records which |
| `ExitPlan.ExitPlanLive.LockIfReached` | botmoduleproject1/modules/mt5_execution_engine/exit_engine.py:75-81 | locks at entry exactly when an armed plan gained one risk unit |
| `ExitPlan.ExitPlanLive.Settle` | botmoduleproject1/modules/mt5_execution_engine/exit_engine.py:82-99 | stop before target, per side in raw prices, and which of the two is recorded |

## Left out

- The ingest internals of the persistence API, its inbox, projections and idempotency tables, and the PostgreSQL store: `ingest_event` is an abstract append whose outcome is a parameter.
- The gate's journal of snapshots and decisions is not tied row by row to the hash-chained one: it keeps only what the gate reads back.
- The other PM4 engines, and PM5 to PM9: separate components with state of their own.
- Settings, feature flags, command line, reports, metrics and the lock: input and output, or flat condition lists; an evaluation is atomic.
- The 28-digit context rounding of `Decimal`, floating-point rounding and NaN.
- What only travels to the output of a decision (reasons, severities, measured values, policy names), and the risk, exposure and concentration figures that are copied beside the decision.
- The ids of selected and dropped votes, and the diagnostics of a consensus.
- The ranker and the handoff stamping between suppressor and lists: `SuppressedNeverListed` holds for any reordering in between.
- The indicators behind the PM2 features (moving averages, true range, rate of change, pivots) and the synthetic feed: features are free within the ranges above.
- The forecast cache by idempotency key, the model registry and the publisher of the enrichment service: they store or pass on a finished forecast and decide nothing about it.
