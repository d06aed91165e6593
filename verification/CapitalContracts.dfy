/** Request, configuration and decision vocabulary of the PM4 capital gate. */
module CapitalContracts {
  import opened Wrappers
  import opened Decimals

  datatype Side = Buy | Sell

  datatype Band = Band(q05: real, q95: real)

  /** The intake. Fields that only travel to the output text are left out. */
  datatype Request = Request(
    idempotencyKey: string,
    strategyId: string, strategyVersion: string, profileId: string, profileVersion: string,
    symbol: string, side: Side,
    requestedQuantity: real, entryPrice: real, stopLossPrice: real, takeProfitPrice: Option<real>,
    modelSnapshotId: string, modelQualityStatus: string, predictedQuantiles: Option<Band>,
    expectedReturn: Option<real>,
    spread: real, estimatedSlippage: real, estimatedCommission: real, estimatedSwap: real,
    accountEquity: real, peakEquity: real, freeMargin: real, realizedPnlDay: real,
    openPositionRisk: real, pendingOrderRisk: real, openPositionCount: int, pendingOrderCount: int,
    symbolExposure: real, currencyExposure: real, directionalExposure: real,
    strategyExposure: real, profileExposure: real, correlatedExposure: real,
    conversionRate: Option<real>, contractSize: Option<real>, volumeStep: Option<Dec>,
    losingStreak: int, session: string, regime: string,
    marketAge: int, accountAge: int, portfolioAge: int, modelAge: int,
    accountUnknown: bool, exposureUnknown: bool, openOrdersUnknown: bool,
    reconciliationStatus: string, reconciliationCritical: bool,
    safeHalt: bool, controlState: string, cooldownUntil: Option<int>,
    existingSymbolSide: string, persistenceAvailable: bool)

  /** The policy knobs the capital gate reads. */
  datatype Config = Config(
    contractSize: real, lotStep: Dec, minLots: real, maxLots: real,
    maxPerTradeRiskPct: real, maxDailyLossPct: real, maxEffectiveHeat: real, ddFreeze: real,
    includeTransactionCosts: bool, requireModel: bool,
    maxSpread: real, maxSlippage: real, maxCommission: real, maxCostToEdge: real,
    minRewardRisk: real, maxUncertaintySpan: real, minStopDistance: real, maxStopDistance: real,
    marketStale: int, accountStale: int, modelStale: int, maxSimultaneousPositions: int,
    maxSymbolExposurePct: real, maxCurrencyExposurePct: real, maxCorrelationPct: real,
    maxStrategyPct: real, maxProfilePct: real,
    consecutiveLossLimit: int, equityFloor: real, freeMarginFloor: real,
    sessionAllow: seq<string>, allowedSymbols: seq<string>)
  {
    /** The bounds the configuration schema enforces and the proofs rely on. */
    predicate Valid()
    {
      && contractSize > 0.0 && lotStep.coef > 0 && 0.0 < minLots <= maxLots
      && 0.0 <= maxPerTradeRiskPct <= 1.0
      && 0.0 <= maxDailyLossPct <= 1.0
      && 0.0 <= maxEffectiveHeat <= 1.0
      && 0.0 <= ddFreeze <= 1.0
      && consecutiveLossLimit >= 1
    }
  }

  datatype DecisionState =
    | Approved | ApprovedReducedSize | Rejected | Deferred
    | BlockedSystem | BlockedData | BlockedModel | BlockedAccount | BlockedDrawdown
    | BlockedPortfolioHeat | BlockedExposure | BlockedConcentration
    | BlockedSpread | BlockedSlippage | BlockedReconciliation
    | ErrorFailClosed | ReplayDivergence

  predicate IsApproved(s: DecisionState) { s == Approved || s == ApprovedReducedSize }

  datatype Status = Pass | Fail | Block | Skip

  predicate Bad(s: Status) { s == Fail || s == Block }

  /** The measurement of a check. Amounts are printed canonically when they enter the output hash. */
  datatype Measure = NoMeasure | Money(amount: real) | Count(n: int) | Text(text: string)

  datatype CheckName =
    | InputSchema | Idempotency | MarketFreshness | AccountFreshness | PortfolioFreshness
    | SessionEligibility | RegimeEligibility | SymbolEligibility | StrategyProfileEligibility
    | ModelAvailability | ModelFreshness | ModelQuality | ModelUncertainty
    | SpreadLimit | SlippageLimit | CommissionCostLimit
    | StopLossExistence | StopLossDistance | MinRewardRisk | PositionSizeValidity
    | MaxSingleTradeRisk | DailyLossLimit | EquityDrawdownLimit | ConsecutiveLoss
    | PortfolioHeat | SymbolExposure | CurrencyExposure | DirectionalExposure
    | CorrelationConcentration | StrategyConcentration | ProfileAllocation
    | OpenOrderExposure | PendingOrderExposure | DuplicatePosition | Cooldown
    | MaxSimultaneousPositions | ReconciliationStatus | PersistenceAvailability
    | SystemControlState | GlobalSafeHalt

  /** The forty names in the order every decision lists them. */
  const CATALOG: seq<CheckName> := [
    InputSchema, Idempotency, MarketFreshness, AccountFreshness, PortfolioFreshness,
    SessionEligibility, RegimeEligibility, SymbolEligibility, StrategyProfileEligibility,
    ModelAvailability, ModelFreshness, ModelQuality, ModelUncertainty,
    SpreadLimit, SlippageLimit, CommissionCostLimit,
    StopLossExistence, StopLossDistance, MinRewardRisk, PositionSizeValidity,
    MaxSingleTradeRisk, DailyLossLimit, EquityDrawdownLimit, ConsecutiveLoss,
    PortfolioHeat, SymbolExposure, CurrencyExposure, DirectionalExposure,
    CorrelationConcentration, StrategyConcentration, ProfileAllocation,
    OpenOrderExposure, PendingOrderExposure, DuplicatePosition, Cooldown,
    MaxSimultaneousPositions, ReconciliationStatus, PersistenceAvailability,
    SystemControlState, GlobalSafeHalt]

  datatype CheckOutcome = CheckOutcome(name: CheckName, status: Status, measured: Measure, blocking: bool)

  datatype SizingError =
    | StopNotPositive | EffectiveStopNotPositive | StepNotPositive | RateMissing | RateNotPositive
    | EquityUnknown | NoBudget | RiskPerLotNotPositive | BudgetBreach | HeatWithoutEquity

  datatype Constraint = BelowMinLots | QuantizeBelowMin | RequestedQuantity | RiskBudget | MaxLots

  datatype SizingTrace = SizingTrace(
    theoretical: real, constrained: real, rounded: real, finalRisk: real,
    stop: real, effectiveStop: real, constraints: seq<Constraint>)

  datatype SizingResult = Sized(trace: SizingTrace) | Unsized(error: SizingError)

  // ---------- results ----------

  datatype Reference = NoReference | AuditRef(id: nat) | MemoryRef(id: nat) | StoredRef(text: string)

  datatype Decision = Decision(
    id: nat, status: DecisionState, final: DecisionState, at: int,
    requested: real, approved: real, monetaryRisk: real, heatBefore: real, heatAfter: real,
    failed: seq<CheckName>, checks: seq<CheckOutcome>, sizing: Option<SizingTrace>,
    inputHash: string, outputHash: string, reference: Reference)

  datatype Intent = Intent(decisionId: nat, quantity: real, reference: Reference)

  datatype Rejection = Rejection(code: DecisionState, reference: Reference)

  datatype Result = Result(
    decision: Decision, intent: Option<Intent>, rejection: Option<Rejection>, replayMatch: Option<bool>)
}
