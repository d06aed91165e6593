/** The forty capital checks. Each check is one conditional expression; `RunChecks` fills the
    result dictionary and lists it in catalogue order. */
module Checks {
  import opened Wrappers
  import opened Decimals
  import opened CapitalContracts
  import opened Sizing

  /** Everything a check may look at besides the effective request and the configuration. */
  datatype Context = Context(
    now: int, halt: bool, persistenceOk: bool, projected: Option<real>, sizingError: Option<SizingError>)

  /** Only a failed or blocked outcome can be blocking. */
  function Out(name: CheckName, status: Status, measured: Measure, blocking: bool): CheckOutcome
  {
    CheckOutcome(name, status, measured, blocking && Bad(status))
  }

  function Passed(name: CheckName, measured: Measure): CheckOutcome { Out(name, Pass, measured, false) }

  function Failed(name: CheckName, measured: Measure): CheckOutcome { Out(name, Fail, measured, true) }

  function Blocked(name: CheckName): CheckOutcome { Out(name, Block, NoMeasure, true) }

  function Skipped(name: CheckName): CheckOutcome { Out(name, Skip, NoMeasure, false) }

  function Unless(bad: bool, name: CheckName, measured: Measure): CheckOutcome
  {
    if bad then Failed(name, measured) else Passed(name, measured)
  }

  function Amount(x: real): Measure { Money(x) }

  function Lower(s: string): string
  {
    seq(|s|, i requires 0 <= i < |s| => if 'A' <= s[i] <= 'Z' then (s[i] as int + 32) as char else s[i])
  }

  /** Capitals become small letters, everything else stays. */
  lemma {:induction false} LowerMeans(s: string, i: nat)
    requires i < |s|
    ensures |Lower(s)| == |s|
    ensures if 'A' <= s[i] <= 'Z' then Lower(s)[i] as int - 'a' as int == s[i] as int - 'A' as int
            else Lower(s)[i] == s[i]
  {
  }

  function CheckAccount(r: Request, c: Config): CheckOutcome
  {
    if r.accountUnknown || r.accountEquity <= 0.0 then Blocked(AccountFreshness)
    else if r.accountAge > c.accountStale then Failed(AccountFreshness, Count(r.accountAge))
    else if r.freeMargin < c.freeMarginFloor then Failed(AccountFreshness, Amount(r.freeMargin))
    else Passed(AccountFreshness, NoMeasure)
  }

  function CheckPortfolio(r: Request, c: Config): CheckOutcome
  {
    if r.exposureUnknown then Blocked(PortfolioFreshness)
    else if r.portfolioAge > c.accountStale then Failed(PortfolioFreshness, Count(r.portfolioAge))
    else Passed(PortfolioFreshness, NoMeasure)
  }

  function CheckRegime(r: Request): CheckOutcome
  {
    Unless(Lower(r.regime) in {"unknown", "invalid", ""}, RegimeEligibility, Text(r.regime))
  }

  function CheckStrategyProfile(r: Request): CheckOutcome
  {
    Unless(r.strategyId == "" || r.profileId == "" || r.strategyVersion == "" || r.profileVersion == "",
           StrategyProfileEligibility, NoMeasure)
  }

  function CheckModelFreshness(r: Request, c: Config): CheckOutcome
  {
    if c.requireModel && r.modelAge > c.modelStale then Failed(ModelFreshness, Count(r.modelAge))
    else Passed(ModelFreshness, NoMeasure)
  }

  function CheckModelQuality(r: Request, c: Config): CheckOutcome
  {
    Unless(c.requireModel && r.modelQualityStatus !in {"ok", "pass", "valid", "good"},
           ModelQuality, Text(r.modelQualityStatus))
  }

  function CheckUncertainty(r: Request, c: Config): CheckOutcome
  {
    if !c.requireModel then Skipped(ModelUncertainty)
    else if r.predictedQuantiles.None? then Failed(ModelUncertainty, NoMeasure)
    else
      var span := r.predictedQuantiles.value.q95 - r.predictedQuantiles.value.q05;
      Unless(span > c.maxUncertaintySpan, ModelUncertainty, Amount(span))
  }

  function CheckCommission(r: Request, c: Config): CheckOutcome
  {
    var cost := r.estimatedCommission + r.estimatedSwap;
    if r.estimatedCommission > c.maxCommission then Failed(CommissionCostLimit, Amount(r.estimatedCommission))
    else if r.expectedReturn.Some? && r.expectedReturn.value > 0.0
            && cost / r.expectedReturn.value > c.maxCostToEdge then
      Failed(CommissionCostLimit, Amount(cost / r.expectedReturn.value))
    else Passed(CommissionCostLimit, NoMeasure)
  }

  function CheckStopDistance(r: Request, c: Config): CheckOutcome
  {
    var stop := StopDistance(r);
    Unless(stop < c.minStopDistance || stop > c.maxStopDistance, StopLossDistance, Amount(stop))
  }

  function CheckRewardRisk(r: Request, c: Config): CheckOutcome
  {
    var stop := StopDistance(r);
    if r.takeProfitPrice.None? || stop <= 0.0 then Skipped(MinRewardRisk)
    else
      var reward := if r.side == Buy then r.takeProfitPrice.value - r.entryPrice
                    else r.entryPrice - r.takeProfitPrice.value;
      Unless(reward / stop < c.minRewardRisk, MinRewardRisk, Amount(reward / stop))
  }

  function CheckPositionSize(r: Request, x: Context): CheckOutcome
  {
    if r.requestedQuantity <= 0.0 then Failed(PositionSizeValidity, Amount(r.requestedQuantity))
    else Unless(x.sizingError.Some?, PositionSizeValidity, NoMeasure)
  }

  function Risk(x: Context): real { if x.projected.Some? then x.projected.value else 0.0 }

  function CheckSingleTrade(r: Request, c: Config, x: Context): CheckOutcome
  {
    Unless(x.projected.Some? && r.accountEquity > 0.0 && Risk(x) > r.accountEquity * c.maxPerTradeRiskPct,
           MaxSingleTradeRisk, Amount(Risk(x)))
  }

  function CheckDailyLoss(r: Request, c: Config): CheckOutcome
  {
    var loss := Abs(Min(r.realizedPnlDay, 0.0));
    Unless(r.accountEquity > 0.0 && loss >= r.accountEquity * c.maxDailyLossPct, DailyLossLimit, Amount(loss))
  }

  function CheckDrawdown(r: Request, c: Config): CheckOutcome
  {
    if r.accountEquity <= 0.0 || r.peakEquity <= 0.0 then Blocked(EquityDrawdownLimit)
    else
      var dd := (r.peakEquity - r.accountEquity) / r.peakEquity;
      if r.accountEquity < c.equityFloor then Failed(EquityDrawdownLimit, Amount(r.accountEquity))
      else Unless(dd >= c.ddFreeze, EquityDrawdownLimit, Amount(dd))
  }

  function CheckStreak(r: Request, c: Config): CheckOutcome
  {
    Unless(r.losingStreak >= c.consecutiveLossLimit, ConsecutiveLoss, Count(r.losingStreak))
  }

  function CheckHeat(r: Request, c: Config, x: Context): CheckOutcome
  {
    match HeatAfter(r, Risk(x))
    case None => Blocked(PortfolioHeat)
    case Some(after) => Unless(after > c.maxEffectiveHeat, PortfolioHeat, Amount(after))
  }

  function CheckShare(name: CheckName, exposure: real, limit: real, r: Request, x: Context): CheckOutcome
  {
    if r.accountEquity <= 0.0 then Blocked(name)
    else
      var share := (exposure + Risk(x)) / r.accountEquity;
      Unless(share > limit, name, Amount(share))
  }

  function CheckOrders(name: CheckName, r: Request, count: int): CheckOutcome
  {
    if r.openOrdersUnknown then Blocked(name) else Passed(name, Count(count))
  }

  function SideName(s: Side): string { if s == Buy then "buy" else "sell" }

  function CheckDuplicate(r: Request): CheckOutcome
  {
    if r.existingSymbolSide != "" && Lower(r.existingSymbolSide) == SideName(r.side) then
      Failed(DuplicatePosition, Text(r.existingSymbolSide))
    else Passed(DuplicatePosition, NoMeasure)
  }

  function CheckCooldown(r: Request, x: Context): CheckOutcome
  {
    if r.cooldownUntil.Some? && r.cooldownUntil.value > x.now then Failed(Cooldown, Count(r.cooldownUntil.value))
    else Passed(Cooldown, NoMeasure)
  }

  function CheckPositionCount(r: Request, c: Config): CheckOutcome
  {
    Unless(r.openPositionCount >= c.maxSimultaneousPositions, MaxSimultaneousPositions, Count(r.openPositionCount))
  }

  function CheckReconciliation(r: Request): CheckOutcome
  {
    if r.reconciliationCritical || Lower(r.reconciliationStatus) in {"unknown", "mismatch", "critical"} then
      Out(ReconciliationStatus, Block, Text(r.reconciliationStatus), true)
    else Passed(ReconciliationStatus, Text(r.reconciliationStatus))
  }

  function CheckControlState(r: Request): CheckOutcome
  {
    if r.controlState !in {"active", "armed", "normal"} then
      Out(SystemControlState, Block, Text(r.controlState), true)
    else Passed(SystemControlState, Text(r.controlState))
  }

  function CheckHalt(r: Request, x: Context): CheckOutcome
  {
    if x.halt || r.safeHalt then Blocked(GlobalSafeHalt) else Passed(GlobalSafeHalt, NoMeasure)
  }

  function CheckPersistence(x: Context): CheckOutcome
  {
    if x.persistenceOk then Passed(PersistenceAvailability, NoMeasure) else Blocked(PersistenceAvailability)
  }

  /** The outcome the catalogue entry `n` must carry. */
  function CheckOf(n: CheckName, r: Request, c: Config, x: Context): CheckOutcome
  {
    match n
    case InputSchema => Passed(InputSchema, NoMeasure)
    case Idempotency => Passed(Idempotency, Text(r.idempotencyKey))
    case MarketFreshness => Unless(r.marketAge > c.marketStale, MarketFreshness, Count(r.marketAge))
    case AccountFreshness => CheckAccount(r, c)
    case PortfolioFreshness => CheckPortfolio(r, c)
    case SessionEligibility => Unless(r.session !in c.sessionAllow, SessionEligibility, Text(r.session))
    case RegimeEligibility => CheckRegime(r)
    case SymbolEligibility => Unless(r.symbol !in c.allowedSymbols, SymbolEligibility, Text(r.symbol))
    case StrategyProfileEligibility => CheckStrategyProfile(r)
    case ModelAvailability => Unless(c.requireModel && r.modelSnapshotId == "", ModelAvailability, NoMeasure)
    case ModelFreshness => CheckModelFreshness(r, c)
    case ModelQuality => CheckModelQuality(r, c)
    case ModelUncertainty => CheckUncertainty(r, c)
    case SpreadLimit => Unless(r.spread > c.maxSpread, SpreadLimit, Amount(r.spread))
    case SlippageLimit => Unless(r.estimatedSlippage > c.maxSlippage, SlippageLimit, Amount(r.estimatedSlippage))
    case CommissionCostLimit => CheckCommission(r, c)
    case StopLossExistence => Passed(StopLossExistence, Amount(StopDistance(r)))
    case StopLossDistance => CheckStopDistance(r, c)
    case MinRewardRisk => CheckRewardRisk(r, c)
    case PositionSizeValidity => CheckPositionSize(r, x)
    case MaxSingleTradeRisk => CheckSingleTrade(r, c, x)
    case DailyLossLimit => CheckDailyLoss(r, c)
    case EquityDrawdownLimit => CheckDrawdown(r, c)
    case ConsecutiveLoss => CheckStreak(r, c)
    case PortfolioHeat => CheckHeat(r, c, x)
    case SymbolExposure => CheckShare(SymbolExposure, r.symbolExposure, c.maxSymbolExposurePct, r, x)
    case CurrencyExposure => CheckShare(CurrencyExposure, r.currencyExposure, c.maxCurrencyExposurePct, r, x)
    case DirectionalExposure =>
      CheckShare(DirectionalExposure, Abs(r.directionalExposure), c.maxCurrencyExposurePct, r, x)
    case CorrelationConcentration =>
      CheckShare(CorrelationConcentration, r.correlatedExposure, c.maxCorrelationPct, r, x)
    case StrategyConcentration => CheckShare(StrategyConcentration, r.strategyExposure, c.maxStrategyPct, r, x)
    case ProfileAllocation => CheckShare(ProfileAllocation, r.profileExposure, c.maxProfilePct, r, x)
    case OpenOrderExposure => CheckOrders(OpenOrderExposure, r, r.openPositionCount)
    case PendingOrderExposure => CheckOrders(PendingOrderExposure, r, r.pendingOrderCount)
    case DuplicatePosition => CheckDuplicate(r)
    case Cooldown => CheckCooldown(r, x)
    case MaxSimultaneousPositions => CheckPositionCount(r, c)
    case ReconciliationStatus => CheckReconciliation(r)
    case PersistenceAvailability => CheckPersistence(x)
    case SystemControlState => CheckControlState(r)
    case GlobalSafeHalt => CheckHalt(r, x)
  }

  /** The whole report, in catalogue order. */
  function Report(r: Request, c: Config, x: Context): (report: seq<CheckOutcome>)
    ensures |report| == 40
  {
    seq(40, i requires 0 <= i < 40 => CheckOf(CATALOG[i], r, c, x))
  }

  /** The checks on money: costs, stops, sizes, losses and exposures. */
  predicate OnMoney(n: CheckName)
  {
    n in {SpreadLimit, SlippageLimit, CommissionCostLimit, StopLossExistence, StopLossDistance, MinRewardRisk,
          PositionSizeValidity, MaxSingleTradeRisk, DailyLossLimit, EquityDrawdownLimit, ConsecutiveLoss,
          PortfolioHeat, SymbolExposure, CurrencyExposure, DirectionalExposure, CorrelationConcentration,
          StrategyConcentration, ProfileAllocation}
  }

  lemma {:induction false} MoneyName(n: CheckName, r: Request, c: Config, x: Context)
    requires OnMoney(n)
    ensures CheckOf(n, r, c, x).name == n
  {
  }

  lemma {:induction false} OtherName(n: CheckName, r: Request, c: Config, x: Context)
    requires !OnMoney(n)
    ensures CheckOf(n, r, c, x).name == n
  {
  }

  lemma {:induction false} OutcomeName(n: CheckName, r: Request, c: Config, x: Context)
    ensures CheckOf(n, r, c, x).name == n
  {
    if OnMoney(n) { MoneyName(n, r, c, x); } else { OtherName(n, r, c, x); }
  }

  lemma {:induction false} MoneyBlocking(n: CheckName, r: Request, c: Config, x: Context)
    requires OnMoney(n)
    ensures CheckOf(n, r, c, x).blocking <==> Bad(CheckOf(n, r, c, x).status)
  {
  }

  lemma {:induction false} OtherBlocking(n: CheckName, r: Request, c: Config, x: Context)
    requires !OnMoney(n)
    ensures CheckOf(n, r, c, x).blocking <==> Bad(CheckOf(n, r, c, x).status)
  {
  }

  /** Each entry is named after its catalogue slot, and is blocking exactly when it failed or blocked:
      no bad outcome can be let through as a warning. */
  lemma {:induction false} OutcomeShape(n: CheckName, r: Request, c: Config, x: Context)
    ensures CheckOf(n, r, c, x).name == n
    ensures CheckOf(n, r, c, x).blocking <==> Bad(CheckOf(n, r, c, x).status)
  {
    OutcomeName(n, r, c, x);
    if OnMoney(n) { MoneyBlocking(n, r, c, x); } else { OtherBlocking(n, r, c, x); }
  }

  /** Fill a dictionary under each outcome's own name, then list it in the order of `names`. Every
      name is present, so the "check not executed" filler for missing names is never used. */
  method FillThenOrder(names: seq<CheckName>, outcome: CheckName -> CheckOutcome)
    returns (ordered: seq<CheckOutcome>)
    requires forall n :: outcome(n).name == n
    ensures |ordered| == |names| && forall i :: 0 <= i < |names| ==> ordered[i] == outcome(names[i])
  {
    var results: map<CheckName, CheckOutcome> := map[];
    for i := 0 to |names|
      invariant forall j :: 0 <= j < i ==> names[j] in results && results[names[j]] == outcome(names[j])
    {
      var item := outcome(names[i]);
      results := results[item.name := item];
    }
    ordered := [];
    for i := 0 to |names|
      invariant |ordered| == i
      invariant forall j :: 0 <= j < i ==> ordered[j] == outcome(names[j])
    {
      if names[i] in results {
        ordered := ordered + [results[names[i]]];
      }
    }
    for i := 0 to |names| {
      if names[i] !in results { assert false; }
    }
  }

  /** The forty `put` statements as one pass over the catalogue, since each writes its own name. */
  method RunChecks(r: Request, c: Config, x: Context) returns (ordered: seq<CheckOutcome>)
    ensures ordered == Report(r, c, x)
  {
    forall n
      ensures CheckOf(n, r, c, x).name == n
    {
      OutcomeShape(n, r, c, x);
    }
    ordered := FillThenOrder(CATALOG, n => CheckOf(n, r, c, x));
  }
}
