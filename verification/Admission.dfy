/** What makes a request inadmissible, in its own figures, and which answer that brings. */
module Admission {
  import opened Wrappers
  import opened Decimals
  import opened CapitalContracts
  import opened Sizing
  import opened Checks
  import opened Ledger
  import opened Evaluation
  import Runs = EvaluationRuns

  // ---------- one check at a time ----------

  /** An exposure together with the new risk is above its share of the equity, in money. */
  predicate Overexposed(exposure: real, risk: real, share: real, equity: real)
  {
    equity <= 0.0 || exposure + risk > equity * share
  }

  /** The distance a price moves against the position until the stop. */
  function AdverseMove(r: Request): real
  {
    match r.side
    case Buy => r.entryPrice - r.stopLossPrice
    case Sell => r.stopLossPrice - r.entryPrice
  }

  /** The distance a price moves in favour of the position until a target. */
  function FavourableMove(r: Request, target: real): real
  {
    match r.side
    case Buy => target - r.entryPrice
    case Sell => r.entryPrice - target
  }

  predicate WiderThan(band: Band, span: real) { band.q95 > band.q05 + span }

  /** Costs eat more than their share of a positive expected return. */
  predicate Overpriced(cost: real, share: real, edge: real) { edge > 0.0 && cost > edge * share }

  predicate Reads(text: string, words: set<string>) { Lower(text) in words }

  /** What each check refuses. Ratios are written as products: no division, no measured value. */
  predicate Violated(n: CheckName, r: Request, c: Config, x: Context)
  {
    match n
    case InputSchema => false
    case Idempotency => false
    case StopLossExistence => false
    case MarketFreshness => r.marketAge > c.marketStale
    case AccountFreshness =>
      r.accountUnknown || r.accountEquity <= 0.0 || r.accountAge > c.accountStale || r.freeMargin < c.freeMarginFloor
    case PortfolioFreshness => r.exposureUnknown || r.portfolioAge > c.accountStale
    case SessionEligibility => r.session !in c.sessionAllow
    case RegimeEligibility => Reads(r.regime, {"unknown", "invalid", ""})
    case SymbolEligibility => r.symbol !in c.allowedSymbols
    case StrategyProfileEligibility =>
      "" in {r.strategyId, r.strategyVersion, r.profileId, r.profileVersion}
    case ModelAvailability => c.requireModel && r.modelSnapshotId == ""
    case ModelFreshness => c.requireModel && r.modelAge > c.modelStale
    case ModelQuality => c.requireModel && r.modelQualityStatus !in {"ok", "pass", "valid", "good"}
    case ModelUncertainty =>
      c.requireModel && (r.predictedQuantiles.None? || WiderThan(r.predictedQuantiles.value, c.maxUncertaintySpan))
    case SpreadLimit => r.spread > c.maxSpread
    case SlippageLimit => r.estimatedSlippage > c.maxSlippage
    case CommissionCostLimit =>
      || r.estimatedCommission > c.maxCommission
      || (r.expectedReturn.Some? && Overpriced(r.estimatedCommission + r.estimatedSwap, c.maxCostToEdge,
                                               r.expectedReturn.value))
    case StopLossDistance => !(c.minStopDistance <= AdverseMove(r) <= c.maxStopDistance)
    case MinRewardRisk =>
      && AdverseMove(r) > 0.0 && r.takeProfitPrice.Some?
      && FavourableMove(r, r.takeProfitPrice.value) < AdverseMove(r) * c.minRewardRisk
    case PositionSizeValidity => r.requestedQuantity <= 0.0 || x.sizingError.Some?
    case MaxSingleTradeRisk =>
      x.projected.Some? && r.accountEquity > 0.0 && Projection(x) > r.accountEquity * c.maxPerTradeRiskPct
    case DailyLossLimit =>
      r.accountEquity > 0.0 && Max(0.0, -r.realizedPnlDay) >= r.accountEquity * c.maxDailyLossPct
    case EquityDrawdownLimit =>
      || r.accountEquity <= 0.0 || r.peakEquity <= 0.0 || r.accountEquity < c.equityFloor
      || r.peakEquity - r.accountEquity >= r.peakEquity * c.ddFreeze
    case ConsecutiveLoss => r.losingStreak >= c.consecutiveLossLimit
    case PortfolioHeat =>
      Overexposed(r.openPositionRisk + r.pendingOrderRisk, Projection(x), c.maxEffectiveHeat, r.accountEquity)
    case SymbolExposure => Overexposed(r.symbolExposure, Projection(x), c.maxSymbolExposurePct, r.accountEquity)
    case CurrencyExposure => Overexposed(r.currencyExposure, Projection(x), c.maxCurrencyExposurePct, r.accountEquity)
    case DirectionalExposure =>
      Overexposed(Max(r.directionalExposure, -r.directionalExposure), Projection(x), c.maxCurrencyExposurePct,
                  r.accountEquity)
    case CorrelationConcentration =>
      Overexposed(r.correlatedExposure, Projection(x), c.maxCorrelationPct, r.accountEquity)
    case StrategyConcentration => Overexposed(r.strategyExposure, Projection(x), c.maxStrategyPct, r.accountEquity)
    case ProfileAllocation => Overexposed(r.profileExposure, Projection(x), c.maxProfilePct, r.accountEquity)
    case OpenOrderExposure => r.openOrdersUnknown
    case PendingOrderExposure => r.openOrdersUnknown
    case DuplicatePosition => Reads(r.existingSymbolSide, {if r.side == Buy then "buy" else "sell"})
    case Cooldown => r.cooldownUntil.Some? && r.cooldownUntil.value > x.now
    case MaxSimultaneousPositions => r.openPositionCount >= c.maxSimultaneousPositions
    case ReconciliationStatus =>
      r.reconciliationCritical || Reads(r.reconciliationStatus, {"unknown", "mismatch", "critical"})
    case PersistenceAvailability => !x.persistenceOk
    case SystemControlState => r.controlState !in {"active", "armed", "normal"}
    case GlobalSafeHalt => x.halt || r.safeHalt
  }

  /** The risk the trade would add; none when it could not be sized. */
  function Projection(x: Context): real { match x.projected case None => 0.0 case Some(risk) => risk }

  lemma {:induction false} RatioAbove(part: real, whole: real, limit: real)
    requires whole > 0.0
    ensures part / whole > limit <==> part > whole * limit
    ensures part / whole >= limit <==> part >= whole * limit
    ensures part / whole < limit <==> part < whole * limit
  {
    DivMul(part, whole);
    if part / whole > limit { MulStrict(limit, part / whole, whole); }
    if part / whole < limit { MulStrict(part / whole, limit, whole); }
  }

  lemma {:induction false} SharesMean(name: CheckName, exposure: real, limit: real, r: Request, x: Context)
    ensures CheckShare(name, exposure, limit, r, x).blocking <==>
            Overexposed(exposure, Projection(x), limit, r.accountEquity)
  {
    if r.accountEquity > 0.0 { RatioAbove(exposure + Projection(x), r.accountEquity, limit); }
  }

  lemma {:induction false} HeatMeans(r: Request, c: Config, x: Context)
    ensures CheckHeat(r, c, x).blocking <==>
            Overexposed(r.openPositionRisk + r.pendingOrderRisk, Projection(x), c.maxEffectiveHeat, r.accountEquity)
  {
    if r.accountEquity > 0.0 {
      RatioAbove(r.openPositionRisk + r.pendingOrderRisk + Projection(x), r.accountEquity, c.maxEffectiveHeat);
    }
  }

  lemma {:induction false} CostMeans(r: Request, c: Config, x: Context)
    ensures CheckCommission(r, c).blocking <==> Violated(CommissionCostLimit, r, c, x)
  {
    if r.expectedReturn.Some? && r.expectedReturn.value > 0.0 {
      RatioAbove(r.estimatedCommission + r.estimatedSwap, r.expectedReturn.value, c.maxCostToEdge);
    }
  }

  lemma {:induction false} RewardMeans(r: Request, c: Config, x: Context)
    ensures CheckRewardRisk(r, c).blocking <==> Violated(MinRewardRisk, r, c, x)
  {
    if r.takeProfitPrice.Some? && AdverseMove(r) > 0.0 {
      RatioAbove(FavourableMove(r, r.takeProfitPrice.value), AdverseMove(r), c.minRewardRisk);
    }
  }

  lemma {:induction false} DrawdownMeans(r: Request, c: Config, x: Context)
    ensures CheckDrawdown(r, c).blocking <==> Violated(EquityDrawdownLimit, r, c, x)
  {
    if r.accountEquity > 0.0 && r.peakEquity > 0.0 {
      RatioAbove(r.peakEquity - r.accountEquity, r.peakEquity, c.ddFreeze);
    }
  }

  predicate IsRatio(n: CheckName)
  {
    n in {CommissionCostLimit, MinRewardRisk, EquityDrawdownLimit, PortfolioHeat, SymbolExposure, CurrencyExposure,
          DirectionalExposure, CorrelationConcentration, StrategyConcentration, ProfileAllocation}
  }

  lemma {:induction false} RatioCheckMeans(n: CheckName, r: Request, c: Config, x: Context)
    requires IsRatio(n)
    ensures CheckOf(n, r, c, x).blocking <==> Violated(n, r, c, x)
  {
    match n
    case CommissionCostLimit => CostMeans(r, c, x);
    case MinRewardRisk => RewardMeans(r, c, x);
    case EquityDrawdownLimit => DrawdownMeans(r, c, x);
    case PortfolioHeat => HeatMeans(r, c, x);
    case SymbolExposure => SharesMean(n, r.symbolExposure, c.maxSymbolExposurePct, r, x);
    case CurrencyExposure => SharesMean(n, r.currencyExposure, c.maxCurrencyExposurePct, r, x);
    case DirectionalExposure => SharesMean(n, Abs(r.directionalExposure), c.maxCurrencyExposurePct, r, x);
    case CorrelationConcentration => SharesMean(n, r.correlatedExposure, c.maxCorrelationPct, r, x);
    case StrategyConcentration => SharesMean(n, r.strategyExposure, c.maxStrategyPct, r, x);
    case ProfileAllocation => SharesMean(n, r.profileExposure, c.maxProfilePct, r, x);
  }

  lemma {:induction false} PlainCheckMeans(n: CheckName, r: Request, c: Config, x: Context)
    requires !IsRatio(n)
    ensures CheckOf(n, r, c, x).blocking <==> Violated(n, r, c, x)
  {
  }

  /** A check blocks exactly when the request violates it. */
  lemma {:induction false} BlocksIffViolated(n: CheckName, r: Request, c: Config, x: Context)
    ensures CheckOf(n, r, c, x).blocking <==> Violated(n, r, c, x)
  {
    if IsRatio(n) { RatioCheckMeans(n, r, c, x); } else { PlainCheckMeans(n, r, c, x); }
  }

  // ---------- what the sizer is allowed ----------

  /** What one trade may lose: the per-trade cap and, when exposure is known and heat is left, no more than that. */
  function LossAllowed(e: Request, c: Config): real
  {
    var cap := e.accountEquity * c.maxPerTradeRiskPct;
    var room := e.accountEquity * c.maxEffectiveHeat - (e.openPositionRisk + e.pendingOrderRisk);
    if e.exposureUnknown || room <= 0.0 || cap <= room then cap else room
  }

  lemma {:induction false} HeadroomInMoney(e: Request, c: Config)
    requires e.accountEquity > 0.0
    ensures var room := e.accountEquity * c.maxEffectiveHeat - (e.openPositionRisk + e.pendingOrderRisk);
            if e.exposureUnknown || room <= 0.0 then HeadroomFor(e, c) == 0.0
            else HeadroomFor(e, c) > 0.0 && HeadroomFor(e, c) * e.accountEquity == room
  {
    var heat, before := e.openPositionRisk + e.pendingOrderRisk, HeatBefore(e).value;
    RatioAbove(heat, e.accountEquity, c.maxEffectiveHeat);
    DivMul(heat, e.accountEquity);
    assert (c.maxEffectiveHeat - before) * e.accountEquity == e.accountEquity * c.maxEffectiveHeat - heat;
  }

  lemma {:induction false} LimitIsAllowed(e: Request, c: Config, headroom: real, budget: real)
    requires e.accountEquity > 0.0 && IsLossLimit(budget, e, c, headroom, TradeBudgetFor(e, c))
    requires var room := e.accountEquity * c.maxEffectiveHeat - (e.openPositionRisk + e.pendingOrderRisk);
             if e.exposureUnknown || room <= 0.0 then headroom == 0.0
             else headroom > 0.0 && headroom * e.accountEquity == room
    ensures budget == LossAllowed(e, c)
  {
  }

  lemma {:induction false} TheoreticalAtGate(e: Request, c: Config)
    requires SizeFor(e, c).Sized?
    ensures e.accountEquity > 0.0 && e.conversionRate.Some?
    ensures IsLossLimit(LossAtStop(e, c, SizeFor(e, c).trace.theoretical), e, c, HeadroomFor(e, c),
                        TradeBudgetFor(e, c))
  {
    TheoreticalSpendsTheLimit(e, c, HeadroomFor(e, c), TradeBudgetFor(e, c));
  }

  /** The theoretical size of a request at the gate loses exactly what is allowed. */
  lemma {:induction false} GateSpendsWhatIsAllowed(e: Request, c: Config)
    requires SizeFor(e, c).Sized?
    ensures e.conversionRate.Some? && LossAtStop(e, c, SizeFor(e, c).trace.theoretical) == LossAllowed(e, c)
  {
    var headroom := HeadroomFor(e, c);
    TheoreticalAtGate(e, c);
    HeadroomInMoney(e, c);
    LimitIsAllowed(e, c, headroom, LossAtStop(e, c, SizeFor(e, c).trace.theoretical));
  }

  // ---------- one status at a time ----------

  /** What a check cannot judge, or must not let pass in any case: it blocks instead of failing. */
  predicate Barred(n: CheckName, r: Request, x: Context)
  {
    match n
    case AccountFreshness => r.accountUnknown || r.accountEquity <= 0.0
    case PortfolioFreshness => r.exposureUnknown
    case EquityDrawdownLimit => r.accountEquity <= 0.0 || r.peakEquity <= 0.0
    case PortfolioHeat | SymbolExposure | CurrencyExposure | DirectionalExposure => r.accountEquity <= 0.0
    case CorrelationConcentration | StrategyConcentration | ProfileAllocation => r.accountEquity <= 0.0
    case OpenOrderExposure | PendingOrderExposure => r.openOrdersUnknown
    case ReconciliationStatus =>
      r.reconciliationCritical || Reads(r.reconciliationStatus, {"unknown", "mismatch", "critical"})
    case PersistenceAvailability => !x.persistenceOk
    case SystemControlState => r.controlState !in {"active", "armed", "normal"}
    case GlobalSafeHalt => x.halt || r.safeHalt
    case _ => false
  }

  /** What a check has nothing to say about. */
  predicate Waived(n: CheckName, r: Request, c: Config)
  {
    match n
    case ModelUncertainty => !c.requireModel
    case MinRewardRisk => r.takeProfitPrice.None? || AdverseMove(r) <= 0.0
    case _ => false
  }

  lemma {:induction false} MoneyBarred(n: CheckName, r: Request, c: Config, x: Context)
    requires OnMoney(n)
    ensures CheckOf(n, r, c, x).status == Block <==> Barred(n, r, x)
  {
  }

  lemma {:induction false} OtherBarred(n: CheckName, r: Request, c: Config, x: Context)
    requires !OnMoney(n)
    ensures CheckOf(n, r, c, x).status == Block <==> Barred(n, r, x)
  {
  }

  lemma {:induction false} WaivedIffSkip(n: CheckName, r: Request, c: Config, x: Context)
    ensures CheckOf(n, r, c, x).status == Skip <==> Waived(n, r, c)
  {
  }

  /** The four statuses: blocked when barred, else failed when violated, skipped when waived, passed otherwise. */
  lemma {:induction false} StatusMeans(n: CheckName, r: Request, c: Config, x: Context)
    ensures CheckOf(n, r, c, x).status ==
            if Barred(n, r, x) then Block
            else if Violated(n, r, c, x) then Fail
            else if Waived(n, r, c) then Skip else Pass
  {
    if OnMoney(n) { MoneyBarred(n, r, c, x); } else { OtherBarred(n, r, c, x); }
    WaivedIffSkip(n, r, c, x);
    BlocksIffViolated(n, r, c, x);
    OutcomeShape(n, r, c, x);
  }

  // ---------- the whole report ----------

  /** Where the catalogue lists a check. */
  function Place(n: CheckName): (i: nat)
    ensures i < 40
  {
    match n
    case InputSchema => 0 case Idempotency => 1 case MarketFreshness => 2 case AccountFreshness => 3
    case PortfolioFreshness => 4 case SessionEligibility => 5 case RegimeEligibility => 6
    case SymbolEligibility => 7 case StrategyProfileEligibility => 8 case ModelAvailability => 9
    case ModelFreshness => 10 case ModelQuality => 11 case ModelUncertainty => 12 case SpreadLimit => 13
    case SlippageLimit => 14 case CommissionCostLimit => 15 case StopLossExistence => 16
    case StopLossDistance => 17 case MinRewardRisk => 18 case PositionSizeValidity => 19
    case MaxSingleTradeRisk => 20 case DailyLossLimit => 21 case EquityDrawdownLimit => 22
    case ConsecutiveLoss => 23 case PortfolioHeat => 24 case SymbolExposure => 25 case CurrencyExposure => 26
    case DirectionalExposure => 27 case CorrelationConcentration => 28 case StrategyConcentration => 29
    case ProfileAllocation => 30 case OpenOrderExposure => 31 case PendingOrderExposure => 32
    case DuplicatePosition => 33 case Cooldown => 34 case MaxSimultaneousPositions => 35
    case ReconciliationStatus => 36 case PersistenceAvailability => 37 case SystemControlState => 38
    case GlobalSafeHalt => 39
  }

  lemma {:induction false} CatalogFirst(n: CheckName)
    requires Place(n) < 10
    ensures CATALOG[Place(n)] == n
  {
  }

  lemma {:induction false} CatalogSecond(n: CheckName)
    requires 10 <= Place(n) < 20
    ensures CATALOG[Place(n)] == n
  {
  }

  lemma {:induction false} CatalogThird(n: CheckName)
    requires 20 <= Place(n) < 30
    ensures CATALOG[Place(n)] == n
  {
  }

  lemma {:induction false} CatalogFourth(n: CheckName)
    requires Place(n) >= 30
    ensures CATALOG[Place(n)] == n
  {
  }

  lemma {:induction false} CatalogIsComplete(n: CheckName)
    ensures CATALOG[Place(n)] == n
  {
    if Place(n) < 10 { CatalogFirst(n); }
    else if Place(n) < 20 { CatalogSecond(n); }
    else if Place(n) < 30 { CatalogThird(n); }
    else { CatalogFourth(n); }
  }

  /** The report names a check as blocking exactly when the request violates it. */
  lemma {:induction false} NamedIffViolated(n: CheckName, r: Request, c: Config, x: Context)
    ensures n in BlockingNames(Report(r, c, x)) <==> Violated(n, r, c, x)
  {
    var report := Report(r, c, x);
    BlocksIffViolated(n, r, c, x);
    CatalogIsComplete(n);
    assert report[Place(n)] in report;
    OutcomeShape(n, r, c, x);
    forall i | 0 <= i < 40
      ensures report[i].name == CATALOG[i]
    {
      OutcomeShape(CATALOG[i], r, c, x);
    }
  }

  // ---------- the answer ----------

  /** The state that violations of system, data, model and drawdown checks bring about, else what the others
      do. */
  function BlockedBy(bad: set<CheckName>): Option<DecisionState>
  {
    if GlobalSafeHalt in bad || SystemControlState in bad || PersistenceAvailability in bad then Some(BlockedSystem)
    else if ReconciliationStatus in bad then Some(BlockedReconciliation)
    else if AccountFreshness in bad then Some(BlockedAccount)
    else if PortfolioFreshness in bad || MarketFreshness in bad then Some(BlockedData)
    else if ModelAvailability in bad || ModelFreshness in bad || ModelQuality in bad || ModelUncertainty in bad then
      Some(BlockedModel)
    else if EquityDrawdownLimit in bad || DailyLossLimit in bad || ConsecutiveLoss in bad then Some(BlockedDrawdown)
    else LimitedBy(bad)
  }

  /** Heat, exposure, concentration and cost of entry. */
  function LimitedBy(bad: set<CheckName>): Option<DecisionState>
  {
    if PortfolioHeat in bad then Some(BlockedPortfolioHeat)
    else if SymbolExposure in bad || CurrencyExposure in bad || DirectionalExposure in bad
            || OpenOrderExposure in bad || PendingOrderExposure in bad then Some(BlockedExposure)
    else if CorrelationConcentration in bad || StrategyConcentration in bad || ProfileAllocation in bad then
      Some(BlockedConcentration)
    else if SpreadLimit in bad then Some(BlockedSpread)
    else if SlippageLimit in bad then Some(BlockedSlippage)
    else None
  }

  /** The state that a set of violated checks and a size bring about. */
  function Verdict(bad: set<CheckName>, lots: Option<real>, requested: real): DecisionState
  {
    match BlockedBy(bad)
    case Some(state) => state
    case None =>
      if bad == {Cooldown} then Deferred
      else if bad != {} || lots.None? || lots.value <= 0.0 then Rejected
      else if lots.value < requested then ApprovedReducedSize
      else Approved
  }

  function LotsOf(sizing: SizingResult): Option<real>
  {
    match sizing
    case Unsized(_) => None
    case Sized(trace) => Some(trace.rounded)
  }

  /** The states of the table by entry. */
  lemma {:induction false} TableEntries(k: nat)
    requires k < 25
    ensures |BLOCK_MAP| == 25
    ensures BLOCK_MAP[k].1 == StateOfRank(k)
  {
  }

  /** Where a check stands in the table, 25 when nowhere. */
  function Rank(n: CheckName): nat
  {
    match n
    case GlobalSafeHalt => 0 case SystemControlState => 1 case PersistenceAvailability => 2
    case ReconciliationStatus => 3 case AccountFreshness => 4 case PortfolioFreshness => 5 case MarketFreshness => 6
    case ModelAvailability => 7 case ModelFreshness => 8 case ModelQuality => 9 case ModelUncertainty => 10
    case EquityDrawdownLimit => 11 case DailyLossLimit => 12 case ConsecutiveLoss => 13 case PortfolioHeat => 14
    case SymbolExposure => 15 case CurrencyExposure => 16 case DirectionalExposure => 17
    case OpenOrderExposure => 18 case PendingOrderExposure => 19 case CorrelationConcentration => 20
    case StrategyConcentration => 21 case ProfileAllocation => 22 case SpreadLimit => 23 case SlippageLimit => 24
    case _ => 25
  }

  lemma {:induction false} RankIsPlace(n: CheckName)
    ensures Rank(n) < 25 ==> |BLOCK_MAP| == 25 && BLOCK_MAP[Rank(n)].0 == n
  {
  }

  lemma {:induction false} EntryRankStart(k: nat)
    requires k < 9
    ensures |BLOCK_MAP| == 25 && Rank(BLOCK_MAP[k].0) == k
  {
  }

  lemma {:induction false} EntryRankMiddle(k: nat)
    requires 9 <= k < 17
    ensures |BLOCK_MAP| == 25 && Rank(BLOCK_MAP[k].0) == k
  {
  }

  lemma {:induction false} EntryRankEnd(k: nat)
    requires 17 <= k < 25
    ensures |BLOCK_MAP| == 25 && Rank(BLOCK_MAP[k].0) == k
  {
  }

  lemma {:induction false} EntryRank(k: nat)
    requires k < 25
    ensures |BLOCK_MAP| == 25 && Rank(BLOCK_MAP[k].0) == k
  {
    if k < 9 { EntryRankStart(k); } else if k < 17 { EntryRankMiddle(k); } else { EntryRankEnd(k); }
  }

  /** The least rank among the violated checks. */
  ghost predicate IsLeast(bad: set<CheckName>, n: CheckName)
  {
    n in bad && forall m :: m in bad ==> Rank(n) <= Rank(m)
  }

  function StateOfRank(k: nat): DecisionState
  {
    if k < 3 then BlockedSystem else if k < 4 then BlockedReconciliation else if k < 5 then BlockedAccount
    else if k < 7 then BlockedData else if k < 11 then BlockedModel else if k < 14 then BlockedDrawdown
    else if k < 15 then BlockedPortfolioHeat else if k < 20 then BlockedExposure
    else if k < 23 then BlockedConcentration else if k < 24 then BlockedSpread else BlockedSlippage
  }

  lemma {:induction false} EarlyByRank(bad: set<CheckName>, n: CheckName)
    requires IsLeast(bad, n) && Rank(n) < 14
    ensures BlockedBy(bad) == Some(StateOfRank(Rank(n)))
  {
  }

  lemma {:induction false} NoneEarly(bad: set<CheckName>)
    requires forall m :: m in bad ==> Rank(m) >= 14
    ensures BlockedBy(bad) == LimitedBy(bad)
  {
  }

  lemma {:induction false} LateByRank(bad: set<CheckName>, n: CheckName)
    requires IsLeast(bad, n) && 14 <= Rank(n) < 25
    ensures LimitedBy(bad) == Some(StateOfRank(Rank(n)))
  {
  }

  lemma {:induction false} NoneLate(bad: set<CheckName>)
    requires forall m :: m in bad ==> Rank(m) == 25
    ensures LimitedBy(bad) == None
  {
  }

  lemma {:induction false} BlockedByRank(bad: set<CheckName>, n: CheckName)
    requires IsLeast(bad, n) && Rank(n) < 25
    ensures BlockedBy(bad) == Some(StateOfRank(Rank(n)))
  {
    if Rank(n) < 14 {
      EarlyByRank(bad, n);
    } else {
      NoneEarly(bad);
      LateByRank(bad, n);
    }
  }

  lemma {:induction false} ScanByRank(bad: set<CheckName>)
    ensures match FirstBlocked(bad, BLOCK_MAP)
            case Some(state) => exists n :: IsLeast(bad, n) && Rank(n) < 25 && state == StateOfRank(Rank(n))
            case None => forall n :: n in bad ==> Rank(n) == 25
  {
    FirstBlockedIsInTable(bad, BLOCK_MAP);
    if FirstBlocked(bad, BLOCK_MAP).Some? {
      var i :| IsFirstBlocked(bad, BLOCK_MAP, i) && BLOCK_MAP[i].1 == FirstBlocked(bad, BLOCK_MAP).value;
      TableEntries(i);
      EntryRank(i);
      var n := BLOCK_MAP[i].0;
      forall m | m in bad
        ensures Rank(n) <= Rank(m)
      {
        RankIsPlace(m);
      }
      assert IsLeast(bad, n);
    } else {
      forall m | m in bad
        ensures Rank(m) == 25
      {
        RankIsPlace(m);
      }
    }
  }

  /** The decision state is the verdict on the blocking checks and the size. */
  lemma {:induction false} StateIsVerdict(bad: set<CheckName>, sizing: SizingResult, requested: real)
    ensures StateFrom(bad, sizing, requested) == Verdict(bad, LotsOf(sizing), requested)
  {
    ScanByRank(bad);
    match FirstBlocked(bad, BLOCK_MAP)
    case Some(state) =>
      var n :| IsLeast(bad, n) && Rank(n) < 25 && state == StateOfRank(Rank(n));
      BlockedByRank(bad, n);
    case None =>
      NoneEarly(bad);
      NoneLate(bad);
  }

  /** Everything a request violates. */
  function Violations(r: Request, c: Config, x: Context): set<CheckName> { set n: CheckName | Violated(n, r, c, x) }

  lemma {:induction false} BlockingIsViolations(r: Request, c: Config, x: Context)
    ensures BlockingNames(Report(r, c, x)) == Violations(r, c, x)
  {
    forall n
      ensures n in BlockingNames(Report(r, c, x)) <==> n in Violations(r, c, x)
    {
      NamedIffViolated(n, r, c, x);
    }
  }

  /** The decision of the gate, from the figures of the request alone: the verdict on what it violates. */
  lemma {:induction false} DecisionIsVerdict(svc: Service, e: Request, halted: bool, env: Env)
    ensures var x := ContextFor(svc, e, halted, env);
            StateFor(svc, e, halted, env) ==
            Verdict(Violations(e, svc.config, x), LotsOf(SizeFor(e, svc.config)), e.requestedQuantity)
  {
    BlockingIsViolations(e, svc.config, ContextFor(svc, e, halted, env));
    StateIsVerdict(BlockingNames(ReportFor(svc, e, halted, env)), SizeFor(e, svc.config), e.requestedQuantity);
  }

  // ---------- what an approval says about its request ----------

  lemma {:induction false} VerdictApproves(bad: set<CheckName>, lots: Option<real>, requested: real)
    ensures IsApproved(Verdict(bad, lots, requested)) <==> bad == {} && lots.Some? && lots.value > 0.0
  {
    if BlockedBy(bad).Some? { BlockedNeverApproves(bad); }
  }

  lemma {:induction false} BlockedNeverApproves(bad: set<CheckName>)
    requires BlockedBy(bad).Some?
    ensures bad != {} && !IsApproved(BlockedBy(bad).value)
  {
  }

  /** A request is approved exactly when it violates nothing and can be sized above zero. */
  lemma {:induction false} ApprovedIff(svc: Service, e: Request, halted: bool, env: Env)
    ensures IsApproved(StateFor(svc, e, halted, env)) <==>
            && Violations(e, svc.config, ContextFor(svc, e, halted, env)) == {}
            && SizeFor(e, svc.config).Sized? && SizeFor(e, svc.config).trace.rounded > 0.0
  {
    DecisionIsVerdict(svc, e, halted, env);
    VerdictApproves(Violations(e, svc.config, ContextFor(svc, e, halted, env)), LotsOf(SizeFor(e, svc.config)),
                    e.requestedQuantity);
  }

  lemma {:induction false} NotViolated(r: Request, c: Config, x: Context, n: CheckName)
    requires Violations(r, c, x) == {}
    ensures !Violated(n, r, c, x)
  {
    assert n !in Violations(r, c, x);
  }

  /** An exposure and the new risk stay within their share of the equity. */
  predicate Fits(exposure: real, risk: real, share: real, equity: real) { exposure + risk <= equity * share }

  /** Heat and the six exposures, each with the new risk, in money. */
  predicate WithinExposures(r: Request, c: Config, risk: real)
  {
    && r.accountEquity > 0.0
    && Fits(r.openPositionRisk + r.pendingOrderRisk, risk, c.maxEffectiveHeat, r.accountEquity)
    && Fits(r.symbolExposure, risk, c.maxSymbolExposurePct, r.accountEquity)
    && Fits(r.currencyExposure, risk, c.maxCurrencyExposurePct, r.accountEquity)
    && Fits(r.directionalExposure, risk, c.maxCurrencyExposurePct, r.accountEquity)
    && Fits(-r.directionalExposure, risk, c.maxCurrencyExposurePct, r.accountEquity)
    && Fits(r.correlatedExposure, risk, c.maxCorrelationPct, r.accountEquity)
    && Fits(r.strategyExposure, risk, c.maxStrategyPct, r.accountEquity)
    && Fits(r.profileExposure, risk, c.maxProfilePct, r.accountEquity)
  }

  /** Entry, stop, target and costs. */
  predicate WithinTradeLimits(r: Request, c: Config)
  {
    && r.spread <= c.maxSpread && r.estimatedSlippage <= c.maxSlippage && r.estimatedCommission <= c.maxCommission
    && (r.expectedReturn.Some? && r.expectedReturn.value > 0.0 ==>
          r.estimatedCommission + r.estimatedSwap <= r.expectedReturn.value * c.maxCostToEdge)
    && c.minStopDistance <= AdverseMove(r) <= c.maxStopDistance
    && (r.takeProfitPrice.Some? && AdverseMove(r) > 0.0 ==>
          FavourableMove(r, r.takeProfitPrice.value) >= AdverseMove(r) * c.minRewardRisk)
  }

  /** Known and fresh figures from an allowed source. */
  predicate Known(r: Request, c: Config)
  {
    && r.marketAge <= c.marketStale && r.accountAge <= c.accountStale && r.portfolioAge <= c.accountStale
    && !r.accountUnknown && !r.exposureUnknown && !r.openOrdersUnknown && r.freeMargin >= c.freeMarginFloor
    && r.session in c.sessionAllow && r.symbol in c.allowedSymbols && !Reads(r.regime, {"unknown", "invalid", ""})
    && r.strategyId != "" && r.strategyVersion != "" && r.profileId != "" && r.profileVersion != ""
  }

  /** Not already running, cooling down, unreconciled or halted. */
  predicate Ready(r: Request, c: Config, now: int)
  {
    && r.openPositionCount < c.maxSimultaneousPositions
    && !Reads(r.existingSymbolSide, {if r.side == Buy then "buy" else "sell"})
    && (r.cooldownUntil.Some? ==> r.cooldownUntil.value <= now)
    && !r.reconciliationCritical && !Reads(r.reconciliationStatus, {"unknown", "mismatch", "critical"})
    && r.controlState in {"active", "armed", "normal"} && !r.safeHalt
  }

  predicate ModelFit(r: Request, c: Config)
  {
    c.requireModel ==>
      && r.modelSnapshotId != "" && r.modelAge <= c.modelStale
      && r.modelQualityStatus in {"ok", "pass", "valid", "good"}
      && r.predictedQuantiles.Some?
      && r.predictedQuantiles.value.q95 - r.predictedQuantiles.value.q05 <= c.maxUncertaintySpan
  }

  lemma {:induction false} NoneViolatedExposures(r: Request, c: Config, x: Context)
    requires Violations(r, c, x) == {}
    ensures WithinExposures(r, c, Projection(x))
  {
    NotViolated(r, c, x, PortfolioHeat);
    NotViolated(r, c, x, SymbolExposure);
    NotViolated(r, c, x, CurrencyExposure);
    NotViolated(r, c, x, DirectionalExposure);
    NotViolated(r, c, x, CorrelationConcentration);
    NotViolated(r, c, x, StrategyConcentration);
    NotViolated(r, c, x, ProfileAllocation);
  }

  lemma {:induction false} NoneViolatedTrade(r: Request, c: Config, x: Context)
    requires Violations(r, c, x) == {}
    ensures WithinTradeLimits(r, c)
  {
    NotViolated(r, c, x, SpreadLimit);
    NotViolated(r, c, x, SlippageLimit);
    NotViolated(r, c, x, CommissionCostLimit);
    NotViolated(r, c, x, StopLossDistance);
    NotViolated(r, c, x, MinRewardRisk);
  }

  lemma {:induction false} NoneViolatedKnown(r: Request, c: Config, x: Context)
    requires Violations(r, c, x) == {}
    ensures Known(r, c)
  {
    NotViolated(r, c, x, MarketFreshness);
    NotViolated(r, c, x, AccountFreshness);
    NotViolated(r, c, x, PortfolioFreshness);
    NotViolated(r, c, x, SessionEligibility);
    NotViolated(r, c, x, SymbolEligibility);
    NotViolated(r, c, x, RegimeEligibility);
    NotViolated(r, c, x, StrategyProfileEligibility);
    NotViolated(r, c, x, OpenOrderExposure);
  }

  lemma {:induction false} NoneViolatedOpen(r: Request, c: Config, x: Context)
    requires Violations(r, c, x) == {}
    ensures r.openPositionCount < c.maxSimultaneousPositions
    ensures !Reads(r.existingSymbolSide, {if r.side == Buy then "buy" else "sell"})
    ensures r.cooldownUntil.Some? ==> r.cooldownUntil.value <= x.now
  {
    NotViolated(r, c, x, MaxSimultaneousPositions);
    NotViolated(r, c, x, DuplicatePosition);
    NotViolated(r, c, x, Cooldown);
  }

  lemma {:induction false} NoneViolatedReady(r: Request, c: Config, x: Context)
    requires Violations(r, c, x) == {}
    ensures Ready(r, c, x.now)
  {
    NoneViolatedOpen(r, c, x);
    NotViolated(r, c, x, ReconciliationStatus);
    NotViolated(r, c, x, SystemControlState);
    NotViolated(r, c, x, GlobalSafeHalt);
  }

  lemma {:induction false} NoneViolatedModel(r: Request, c: Config, x: Context)
    requires Violations(r, c, x) == {}
    ensures ModelFit(r, c)
  {
    NotViolated(r, c, x, ModelAvailability);
    NotViolated(r, c, x, ModelFreshness);
    NotViolated(r, c, x, ModelQuality);
    NotViolated(r, c, x, ModelUncertainty);
  }

  /** The effective request differs from the request in three ledger figures only. */
  lemma {:induction false} EffectiveKeeps(r: Request, ledger: LedgerState, c: Config, risk: real, now: int)
    ensures var e := Effective(r, ledger);
            && (WithinExposures(e, c, risk) <==> WithinExposures(r, c, risk))
            && (WithinTradeLimits(e, c) <==> WithinTradeLimits(r, c))
            && (Known(e, c) <==> Known(r, c)) && (Ready(e, c, now) <==> Ready(r, c, now))
            && (ModelFit(e, c) <==> ModelFit(r, c))
  {
  }

  lemma {:induction false} ConcludedDecision(svc: Service, s: State, r: Request, result: Result, env: Env)
    ensures var outcome := Conclude(svc, s, r, result, env, true).1;
            outcome.Returned? && IsApproved(outcome.result.decision.final) ==>
              outcome.result.decision == result.decision.(reference := outcome.result.decision.reference)
  {
  }

  /** The decision a fresh approval answers with, apart from its storage reference. */
  lemma {:induction false} ApprovalIsDecision(svc: Service, s: State, r: Request, env: Env)
    requires Runs.FreshApproval(svc, s, r, env)
    ensures var d := Evaluate(svc, s, r, env).1.result.decision;
            var e := Effective(r, Observed(s, r, env).ledger);
            && ReachesLedger(env)
            && d == MakeDecision(svc, r, e, s.halt.halted, env).(reference := d.reference)
            && IsApproved(StateFor(svc, e, s.halt.halted, env))
  {
    var seen := Recorded(svc, s, r, env, true);
    Runs.LivePassOfFresh(svc, s, r, env);
    Runs.FreshApprovalDecided(svc, s, r, env);
    ConcludedDecision(svc, seen, r, Decide(svc, seen, r, env), env);
  }

  /** Everything an approval says about the figures of its request. */
  predicate Admissible(r: Request, c: Config, risk: real, now: int)
  {
    && WithinExposures(r, c, risk) && WithinTradeLimits(r, c)
    && Known(r, c) && Ready(r, c, now) && ModelFit(r, c)
  }

  lemma {:induction false} NoneViolatedAdmissible(r: Request, c: Config, x: Context)
    requires Violations(r, c, x) == {}
    ensures Admissible(r, c, Projection(x), x.now)
  {
    NoneViolatedExposures(r, c, x);
    NoneViolatedTrade(r, c, x);
    NoneViolatedKnown(r, c, x);
    NoneViolatedReady(r, c, x);
    NoneViolatedModel(r, c, x);
  }

  lemma {:induction false} ContextMeans(svc: Service, e: Request, halted: bool, env: Env)
    ensures var x := ContextFor(svc, e, halted, env);
            && x.now == env.now && x.halt == halted && x.persistenceOk == PersistenceOk(svc, e, env)
            && x.projected.Some? == SizeFor(e, svc.config).Sized? == x.sizingError.None?
  {
  }

  lemma {:induction false} ApprovedEffective(svc: Service, e: Request, halted: bool, env: Env)
    requires IsApproved(StateFor(svc, e, halted, env))
    ensures Admissible(e, svc.config, Projection(ContextFor(svc, e, halted, env)), env.now)
  {
    ApprovedIff(svc, e, halted, env);
    ContextMeans(svc, e, halted, env);
    NoneViolatedAdmissible(e, svc.config, ContextFor(svc, e, halted, env));
  }

  lemma {:induction false} ApprovedPersistence(svc: Service, e: Request, halted: bool, env: Env)
    requires IsApproved(StateFor(svc, e, halted, env))
    ensures PersistenceOk(svc, e, env) && SizeFor(e, svc.config).Sized?
  {
    ApprovedIff(svc, e, halted, env);
    ContextMeans(svc, e, halted, env);
    NoneViolatedPersistence(e, svc.config, ContextFor(svc, e, halted, env));
  }

  lemma {:induction false} NoneViolatedPersistence(r: Request, c: Config, x: Context)
    requires Violations(r, c, x) == {}
    ensures x.persistenceOk
  {
    SystemViolations(r, c, x);
  }

  /** What the three system checks refuse. */
  lemma {:induction false} SystemViolations(r: Request, c: Config, x: Context)
    ensures GlobalSafeHalt in Violations(r, c, x) <==> x.halt || r.safeHalt
    ensures SystemControlState in Violations(r, c, x) <==> r.controlState !in {"active", "armed", "normal"}
    ensures PersistenceAvailability in Violations(r, c, x) <==> !x.persistenceOk
  {
  }

  lemma {:induction false} VerdictOfSystem(bad: set<CheckName>, lots: Option<real>, requested: real)
    ensures Verdict(bad, lots, requested) == BlockedSystem <==>
            GlobalSafeHalt in bad || SystemControlState in bad || PersistenceAvailability in bad
  {
  }

  /** What every fresh approval says about its request, in the request's own figures: known, ready, within the
      limits of trade and model, and with the risk it reports inside heat and every exposure. */
  lemma {:induction false} ApprovedInMoney(svc: Service, s: State, r: Request, env: Env)
    requires Runs.FreshApproval(svc, s, r, env)
    ensures var d := Evaluate(svc, s, r, env).1.result.decision;
            && Admissible(r, svc.config, d.monetaryRisk, env.now)
            && r.persistenceAvailable && (svc.hasApi || !svc.requirePersistence) && (svc.hasApi ==> env.healthy)
  {
    var ledger := Observed(s, r, env).ledger;
    var e := Effective(r, ledger);
    ApprovalIsDecision(svc, s, r, env);
    ApprovedEffective(svc, e, s.halt.halted, env);
    ApprovedPersistence(svc, e, s.halt.halted, env);
    ApprovedRisk(svc, r, e, s.halt.halted, env);
    EffectiveKeeps(r, ledger, svc.config, Projection(ContextFor(svc, e, s.halt.halted, env)), env.now);
  }

  lemma {:induction false} ApprovedRisk(svc: Service, r: Request, e: Request, halted: bool, env: Env)
    requires IsApproved(StateFor(svc, e, halted, env)) && SizeFor(e, svc.config).Sized?
    ensures MakeDecision(svc, r, e, halted, env).monetaryRisk == Projection(ContextFor(svc, e, halted, env))
  {
  }

  // ---------- what a decision carries ----------

  lemma {:induction false} FailedAreBlocking(report: seq<CheckOutcome>)
    ensures forall n :: n in FailedNames(report) <==> n in BlockingNames(report)
  {
    if report != [] {
      var k := |report| - 1;
      FailedAreBlocking(report[..k]);
      assert report == report[..k] + [report[k]];
    }
  }

  /** The failed checks of a decision are exactly what the request violates. */
  lemma {:induction false} FailedIffViolated(svc: Service, r: Request, e: Request, halted: bool, env: Env, n: CheckName)
    ensures n in MakeDecision(svc, r, e, halted, env).failed <==>
            Violated(n, e, svc.config, ContextFor(svc, e, halted, env))
  {
    FailedAreBlocking(ReportFor(svc, e, halted, env));
    NamedIffViolated(n, e, svc.config, ContextFor(svc, e, halted, env));
  }

  lemma {:induction false} HeatsMean(r: Request, risk: real)
    requires r.accountEquity > 0.0
    ensures Heat(HeatBefore(r)) * r.accountEquity == r.openPositionRisk + r.pendingOrderRisk
    ensures Heat(HeatAfter(r, risk)) * r.accountEquity == r.openPositionRisk + r.pendingOrderRisk + risk
  {
    DivMul(r.openPositionRisk + r.pendingOrderRisk, r.accountEquity);
    DivMul(r.openPositionRisk + r.pendingOrderRisk + risk, r.accountEquity);
  }

  /** The figures of a decision, however it was sized and judged: the request's quantity and hash, heat before
      and after in money, and nothing at risk unless approved. */
  lemma {:induction false} DecisionCarries(
    svc: Service, r: Request, e: Request, sizing: SizingResult, report: seq<CheckOutcome>, state: DecisionState,
    hash: string, env: Env)
    ensures var d := DecisionFrom(svc, r, e, sizing, report, state, hash, env);
            && d.id == env.id && d.at == env.now && d.requested == e.requestedQuantity
            && d.inputHash == svc.inputHash(r) && d.outputHash == hash && d.checks == report
            && d.status == d.final == state
            && (e.accountEquity > 0.0 ==>
                  && d.heatBefore * e.accountEquity == e.openPositionRisk + e.pendingOrderRisk
                  && d.heatAfter * e.accountEquity == e.openPositionRisk + e.pendingOrderRisk + d.monetaryRisk)
            && (e.accountEquity <= 0.0 ==> d.heatBefore == d.heatAfter == 0.0)
            && (!IsApproved(state) || sizing.Unsized? ==> d.approved == 0.0 && d.monetaryRisk == 0.0)
            && (IsApproved(state) && sizing.Sized? ==>
                  d.approved == sizing.trace.rounded && d.monetaryRisk == sizing.trace.finalRisk)
  {
    if e.accountEquity > 0.0 {
      HeatsMean(e, DecisionFrom(svc, r, e, sizing, report, state, hash, env).monetaryRisk);
    }
  }

  /** What a sized request would lose at its stop, fees included, is the risk it reports, within the cap. */
  lemma {:induction false} ApprovedRiskIsLossAtStop(e: Request, c: Config, sizing: SizingResult)
    requires c.Valid() && sizing == SizeFor(e, c) && sizing.Sized? && sizing.trace.rounded > 0.0
    ensures e.conversionRate.Some?
    ensures sizing.trace.finalRisk == LossAtStop(e, c, sizing.trace.rounded) <= e.accountEquity * c.maxPerTradeRiskPct
  {
    FinalRiskIsLossAtStop(e, c, HeadroomFor(e, c), TradeBudgetFor(e, c));
  }

  /** Two passes with the same hashed body agree on the request, the state, the failed checks, every check
      status, and on quantity and risk to eight decimals. */
  lemma {:induction false} BodyCommits(
    svc: Service, r: Request, e: Request, halted: bool, env: Env,
    r2: Request, e2: Request, halted2: bool, env2: Env)
    requires BodyFor(svc, r, e, halted, env) == BodyFor(svc, r2, e2, halted2, env2)
    ensures var a, b := MakeDecision(svc, r, e, halted, env), MakeDecision(svc, r2, e2, halted2, env2);
            && a.final == b.final && a.failed == b.failed && a.inputHash == b.inputHash
            && Canonical(a.approved) == Canonical(b.approved) && Canonical(a.monetaryRisk) == Canonical(b.monetaryRisk)
            && forall i :: 0 <= i < 40 ==> a.checks[i].status == b.checks[i].status
  {
    var a, b := ReportFor(svc, e, halted, env), ReportFor(svc, e2, halted2, env2);
    forall i | 0 <= i < 40
      ensures a[i].status == b[i].status
    {
      assert PrintReport(a)[i] == PrintReport(b)[i];
    }
  }
}
