/** Position sizing and portfolio heat. */
module Sizing {
  import opened Wrappers
  import opened Decimals
  import opened CapitalContracts

  /** Entry to stop in the losing direction; the eight-decimal grid makes the money rounding idle. */
  function StopDistance(r: Request): real
  {
    if r.side == Buy then r.entryPrice - r.stopLossPrice else r.stopLossPrice - r.entryPrice
  }

  function HeatBefore(r: Request): Option<real>
  {
    if r.accountEquity <= 0.0 then None
    else Some((r.openPositionRisk + r.pendingOrderRisk) / r.accountEquity)
  }

  function HeatAfter(r: Request, projected: real): Option<real>
  {
    if r.accountEquity <= 0.0 then None
    else Some((r.openPositionRisk + r.pendingOrderRisk + projected) / r.accountEquity)
  }

  function HeatHeadroom(r: Request, c: Config): Option<real>
  {
    match HeatBefore(r)
    case None => None
    case Some(before) => Some(Max(c.maxEffectiveHeat - before, 0.0))
  }

  /** An absent or zero contract size falls back to the configuration. */
  function ContractSize(r: Request, c: Config): real
  {
    if r.contractSize.Some? && r.contractSize.value != 0.0 then r.contractSize.value else c.contractSize
  }

  /** An absent or zero volume step falls back to the configuration. */
  function Step(r: Request, c: Config): Dec
  {
    if r.volumeStep.Some? && r.volumeStep.value.coef != 0 then r.volumeStep.value else c.lotStep
  }

  function Costs(c: Config, amount: real): real
  {
    if c.includeTransactionCosts then amount else 0.0
  }

  function EffectiveStop(r: Request, c: Config): real
  {
    StopDistance(r) + Costs(c, r.spread) + Costs(c, r.estimatedSlippage)
  }

  /** The money a trade may lose before costs: the per-trade cap, and the heat cap when there is
      any headroom. Zero headroom does not cap. */
  function GrossBudget(r: Request, c: Config, headroom: real, remaining: real): real
  {
    var cap := r.accountEquity * c.maxPerTradeRiskPct;
    var perTrade := Min(cap, if remaining > 0.0 then remaining else cap);
    if headroom > 0.0 then Min(perTrade, headroom * r.accountEquity) else perTrade
  }

  function NetBudget(r: Request, c: Config, headroom: real, remaining: real): real
  {
    GrossBudget(r, c, headroom, remaining) - Costs(c, r.estimatedCommission)
  }

  function RiskPerLot(r: Request, c: Config, rate: real): real
  {
    EffectiveStop(r, c) * ContractSize(r, c) * rate
  }

  /** The first guard that rejects a request, in source order. */
  function SizingGuard(r: Request, c: Config, headroom: real, remaining: real): Option<SizingError>
  {
    if StopDistance(r) <= 0.0 then Some(StopNotPositive)
    else if EffectiveStop(r, c) <= 0.0 then Some(EffectiveStopNotPositive)
    else if Step(r, c).coef <= 0 then Some(StepNotPositive)
    else if r.conversionRate.None? then Some(RateMissing)
    else if r.conversionRate.value <= 0.0 then Some(RateNotPositive)
    else if r.accountEquity <= 0.0 then Some(EquityUnknown)
    else if NetBudget(r, c, headroom, remaining) <= 0.0 then Some(NoBudget)
    else if RiskPerLot(r, c, r.conversionRate.value) <= 0.0 then Some(RiskPerLotNotPositive)
    else None
  }

  function Theoretical(r: Request, c: Config, headroom: real, remaining: real): real
    requires SizingGuard(r, c, headroom, remaining).None?
  {
    NetBudget(r, c, headroom, remaining) / RiskPerLot(r, c, r.conversionRate.value)
  }

  function Constrained(r: Request, c: Config, headroom: real, remaining: real): real
    requires SizingGuard(r, c, headroom, remaining).None?
  {
    Min(Min(Theoretical(r, c, headroom, remaining), c.maxLots), r.requestedQuantity)
  }

  /** Truncated onto the quantum, or zero when either form is below the minimum lot. */
  function Lots(constrained: real, minLots: real, q: real): real
    requires q > 0.0
  {
    var rounded := RoundDown(constrained, q);
    if constrained < minLots || rounded < minLots then 0.0 else rounded
  }

  function RoundedSize(r: Request, c: Config, headroom: real, remaining: real): real
    requires SizingGuard(r, c, headroom, remaining).None?
  {
    Lots(Constrained(r, c, headroom, remaining), c.minLots, Quantum(Step(r, c)))
  }

  function RiskOf(lots: real, perLot: real, commission: real): real
  {
    if lots == 0.0 then 0.0 else lots * perLot + commission
  }

  function FinalRisk(r: Request, c: Config, headroom: real, remaining: real): real
    requires SizingGuard(r, c, headroom, remaining).None?
  {
    RiskOf(RoundedSize(r, c, headroom, remaining), RiskPerLot(r, c, r.conversionRate.value),
           Costs(c, r.estimatedCommission))
  }

  function When(b: bool, c: Constraint): seq<Constraint> { if b then [c] else [] }

  function Limiting(constrained: real, lots: real, minLots: real, requested: real, theoretical: real, maxLots: real)
    : seq<Constraint>
  {
    if constrained < minLots then [BelowMinLots]
    else if lots == 0.0 then [QuantizeBelowMin]
    else
      When(lots < requested, RequestedQuantity)
      + When(lots < theoretical, RiskBudget)
      + When(lots == maxLots, MaxLots)
  }

  /** The sizer without its unreachable budget guard. */
  function Size(r: Request, c: Config, headroom: real, remaining: real): SizingResult
  {
    var guard := SizingGuard(r, c, headroom, remaining);
    if guard.Some? then Unsized(guard.value)
    else Sized(SizingTrace(
      Theoretical(r, c, headroom, remaining), Constrained(r, c, headroom, remaining),
      RoundedSize(r, c, headroom, remaining), FinalRisk(r, c, headroom, remaining),
      StopDistance(r), EffectiveStop(r, c),
      Limiting(Constrained(r, c, headroom, remaining), RoundedSize(r, c, headroom, remaining), c.minLots,
               r.requestedQuantity, Theoretical(r, c, headroom, remaining), c.maxLots)))
  }

  // ---------- arithmetic of the sizer ----------

  lemma {:induction false} DivisionBound(q: real, budget: real, perLot: real)
    requires perLot > 0.0 && q <= budget / perLot
    ensures q * perLot <= budget
  {
    DivMul(budget, perLot);
    MulMono(q, budget / perLot, perLot);
  }

  /** A nonzero size is the greatest multiple of the step's power of ten that is within the
      theoretical size, the lot cap and the request. */
  lemma {:induction false} RoundedIsGreatestWithinLimits(r: Request, c: Config, headroom: real, remaining: real, k: int)
    requires c.Valid() && SizingGuard(r, c, headroom, remaining).None?
    requires RoundedSize(r, c, headroom, remaining) != 0.0
    ensures var size, q := RoundedSize(r, c, headroom, remaining), Quantum(Step(r, c));
            && c.minLots <= size <= c.maxLots
            && size <= r.requestedQuantity
            && size <= Theoretical(r, c, headroom, remaining)
            && IsMultiple(size, q)
            && (Times(k, q) <= Constrained(r, c, headroom, remaining) ==> Times(k, q) <= size)
  {
    RoundDownIsGreatestMultiple(Constrained(r, c, headroom, remaining), Quantum(Step(r, c)), k);
  }

  lemma {:induction false} LotsWithinBudget(constrained: real, minLots: real, q: real, budget: real, perLot: real)
    requires minLots > 0.0 && q > 0.0 && perLot > 0.0 && budget > 0.0 && constrained <= budget / perLot
    ensures Lots(constrained, minLots, q) * perLot <= budget
  {
    var lots := Lots(constrained, minLots, q);
    if lots != 0.0 {
      RoundDownIsGreatestMultiple(constrained, q, 0);
      DivisionBound(lots, budget, perLot);
    }
  }

  /** Position risk stays within the net budget, so the source's last guard can never fire. */
  lemma {:induction false} BudgetGuardUnreachable(r: Request, c: Config, headroom: real, remaining: real)
    requires c.Valid() && SizingGuard(r, c, headroom, remaining).None?
    ensures RoundedSize(r, c, headroom, remaining) * RiskPerLot(r, c, r.conversionRate.value)
         <= NetBudget(r, c, headroom, remaining)
  {
    LotsWithinBudget(Constrained(r, c, headroom, remaining), c.minLots, Quantum(Step(r, c)),
                     NetBudget(r, c, headroom, remaining), RiskPerLot(r, c, r.conversionRate.value));
  }

  lemma {:induction false} CapNonNegative(e: real, p: real)
    requires e >= 0.0 && p >= 0.0
    ensures e * p >= 0.0
  {
  }

  lemma {:induction false} GrossBudgetWithinCaps(r: Request, c: Config, headroom: real, remaining: real)
    ensures GrossBudget(r, c, headroom, remaining) <= r.accountEquity * c.maxPerTradeRiskPct
    ensures headroom > 0.0 ==> GrossBudget(r, c, headroom, remaining) <= headroom * r.accountEquity
  {
  }

  lemma {:induction false} RiskOfWithin(lots: real, perLot: real, commission: real, net: real)
    requires lots * perLot <= net
    ensures RiskOf(lots, perLot, commission) <= Max(0.0, net + commission)
  {
  }

  lemma {:induction false} NetAndFees(r: Request, c: Config, headroom: real, remaining: real)
    ensures NetBudget(r, c, headroom, remaining) + Costs(c, r.estimatedCommission)
         == GrossBudget(r, c, headroom, remaining)
  {
  }

  lemma {:induction false} FinalRiskWithinGross(r: Request, c: Config, headroom: real, remaining: real)
    requires c.Valid() && SizingGuard(r, c, headroom, remaining).None?
    ensures FinalRisk(r, c, headroom, remaining) <= Max(0.0, GrossBudget(r, c, headroom, remaining))
  {
    BudgetGuardUnreachable(r, c, headroom, remaining);
    NetAndFees(r, c, headroom, remaining);
    RiskOfWithin(RoundedSize(r, c, headroom, remaining), RiskPerLot(r, c, r.conversionRate.value),
                 Costs(c, r.estimatedCommission), NetBudget(r, c, headroom, remaining));
  }

  /** Whatever the sign of the commission, the final risk respects the per-trade cap, and the heat
      budget whenever the sizer was given positive headroom. */
  lemma {:induction false} FinalRiskWithinCaps(r: Request, c: Config, headroom: real, remaining: real)
    requires c.Valid() && Size(r, c, headroom, remaining).Sized?
    ensures FinalRisk(r, c, headroom, remaining) <= r.accountEquity * c.maxPerTradeRiskPct
    ensures headroom > 0.0 ==> FinalRisk(r, c, headroom, remaining) <= headroom * r.accountEquity
  {
    FinalRiskWithinGross(r, c, headroom, remaining);
    GrossBudgetWithinCaps(r, c, headroom, remaining);
    CapNonNegative(r.accountEquity, c.maxPerTradeRiskPct);
    if headroom > 0.0 { CapNonNegative(headroom, r.accountEquity); }
  }

  lemma {:induction false} HeatArithmetic(load: real, risk: real, equity: real, cap: real)
    requires equity > 0.0 && risk <= (cap - load / equity) * equity
    ensures (load + risk) / equity <= cap
  {
    DivMul(load, equity);
    assert (cap - load / equity) * equity == cap * equity - load / equity * equity;
    DivMul(load + risk, equity);
    MulCancel((load + risk) / equity, cap, equity);
  }

  lemma {:induction false} RiskWithinHeadroomKeepsHeat(r: Request, c: Config, headroom: real, risk: real)
    requires r.accountEquity > 0.0 && HeatHeadroom(r, c) == Some(headroom) && HeatBefore(r).value < c.maxEffectiveHeat
    requires risk <= headroom * r.accountEquity
    ensures headroom > 0.0 && HeatAfter(r, risk).value <= c.maxEffectiveHeat
  {
    HeatArithmetic(r.openPositionRisk + r.pendingOrderRisk, risk, r.accountEquity, c.maxEffectiveHeat);
  }

  lemma {:induction false} PositiveHeadroom(r: Request, c: Config)
    requires r.accountEquity > 0.0 && HeatBefore(r).value < c.maxEffectiveHeat
    ensures HeatHeadroom(r, c).value > 0.0
  {
  }

  lemma {:induction false} SizerKeepsHeat(r: Request, c: Config, headroom: real, remaining: real)
    requires c.Valid() && r.accountEquity > 0.0 && HeatHeadroom(r, c) == Some(headroom)
    requires Size(r, c, headroom, remaining).Sized?
    requires HeatBefore(r).value < c.maxEffectiveHeat
    ensures HeatAfter(r, FinalRisk(r, c, headroom, remaining)).value <= c.maxEffectiveHeat
  {
    PositiveHeadroom(r, c);
    FinalRiskWithinCaps(r, c, headroom, remaining);
    var risk := FinalRisk(r, c, headroom, remaining);
    assert risk <= headroom * r.accountEquity;
    RiskWithinHeadroomKeepsHeat(r, c, headroom, risk);
  }

  /** The sizer refines the checks: fed the gate's own headroom, its risk passes the single-trade
      check, and passes the heat check whenever heat was below the cap beforehand. */
  lemma {:induction false} SizerRefinesChecks(r: Request, c: Config, headroom: real, remaining: real)
    requires c.Valid() && r.accountEquity > 0.0 && HeatHeadroom(r, c) == Some(headroom)
    requires Size(r, c, headroom, remaining).Sized?
    ensures FinalRisk(r, c, headroom, remaining) <= r.accountEquity * c.maxPerTradeRiskPct
    ensures HeatBefore(r).value < c.maxEffectiveHeat ==>
              HeatAfter(r, FinalRisk(r, c, headroom, remaining)).value <= c.maxEffectiveHeat
  {
    FinalRiskWithinCaps(r, c, headroom, remaining);
    if HeatBefore(r).value < c.maxEffectiveHeat { SizerKeepsHeat(r, c, headroom, remaining); }
  }

  /** Headroom is zero exactly from the heat cap upwards, which switches the sizer's heat cap off. Then, as
      everywhere, the heat check refuses exactly the risks above the money left under the cap. */
  lemma {:induction false} AtHeatLimitOnlyTheCheckStands(r: Request, c: Config, risk: real)
    requires r.accountEquity > 0.0
    ensures HeatHeadroom(r, c) == Some(0.0) <==> HeatBefore(r).value >= c.maxEffectiveHeat
    ensures HeatAfter(r, risk).value > c.maxEffectiveHeat
       <==> risk > (c.maxEffectiveHeat - HeatBefore(r).value) * r.accountEquity
  {
    if risk <= (c.maxEffectiveHeat - HeatBefore(r).value) * r.accountEquity {
      HeatArithmetic(r.openPositionRisk + r.pendingOrderRisk, risk, r.accountEquity, c.maxEffectiveHeat);
    } else {
      HeatExceeded(r.openPositionRisk + r.pendingOrderRisk, risk, r.accountEquity, c.maxEffectiveHeat);
    }
  }

  lemma {:induction false} HeatExceeded(load: real, risk: real, equity: real, cap: real)
    requires equity > 0.0 && risk > (cap - load / equity) * equity
    ensures (load + risk) / equity > cap
  {
    DivMul(load, equity);
    assert (cap - load / equity) * equity == cap * equity - load / equity * equity;
    DivMul(load + risk, equity);
    if (load + risk) / equity <= cap { MulMono((load + risk) / equity, cap, equity); }
  }

  // ---------- what the size means in money ----------

  /** Spread and slippage, as far as the configuration counts them. */
  function PriceCosts(r: Request, c: Config): real
  {
    if c.includeTransactionCosts then r.spread + r.estimatedSlippage else 0.0
  }

  function Fees(r: Request, c: Config): real { if c.includeTransactionCosts then r.estimatedCommission else 0.0 }

  /** Where the position is left when its stop is hit, with the costs against it. */
  function ExitPrice(r: Request, c: Config): real
  {
    match r.side
    case Buy => r.stopLossPrice - PriceCosts(r, c)
    case Sell => r.stopLossPrice + PriceCosts(r, c)
  }

  /** The units behind a number of lots; a request without its own contract size uses the configured one. */
  function Units(r: Request, c: Config, lots: real): real
  {
    match r.contractSize
    case None => lots * c.contractSize
    case Some(size) => if size == 0.0 then lots * c.contractSize else lots * size
  }

  /** What a position of that many lots loses in account currency when its stop is hit, fees included. */
  function LossAtStop(r: Request, c: Config, lots: real): real
    requires r.conversionRate.Some?
  {
    var gap := match r.side case Buy => r.entryPrice - ExitPrice(r, c) case Sell => ExitPrice(r, c) - r.entryPrice;
    Units(r, c, lots) * gap * r.conversionRate.value + Fees(r, c)
  }

  lemma {:induction false} LossPerLot(r: Request, c: Config, lots: real)
    requires r.conversionRate.Some?
    ensures LossAtStop(r, c, lots) == lots * RiskPerLot(r, c, r.conversionRate.value) + Costs(c, r.estimatedCommission)
  {
    var gap, size, rate := EffectiveStop(r, c), ContractSize(r, c), r.conversionRate.value;
    assert (lots * size) * gap * rate == lots * (gap * size * rate) by { Regroup(lots, size, gap, rate); }
    assert Units(r, c, lots) == lots * size;
  }

  lemma {:induction false} Regroup(lots: real, size: real, gap: real, rate: real)
    ensures (lots * size) * gap * rate == lots * (gap * size * rate)
  {
    assert (lots * size) * gap == lots * (gap * size);
    assert lots * (gap * size) * rate == lots * (gap * size * rate);
  }

  lemma {:induction false} RiskOfValue(lots: real, perLot: real, fees: real)
    ensures RiskOf(lots, perLot, fees) == if lots == 0.0 then 0.0 else lots * perLot + fees
  {
  }

  lemma {:induction false} FinalRiskOfLots(r: Request, c: Config, headroom: real, remaining: real)
    requires SizingGuard(r, c, headroom, remaining).None?
    ensures var lots := RoundedSize(r, c, headroom, remaining);
            FinalRisk(r, c, headroom, remaining) == if lots == 0.0 then 0.0 else LossAtStop(r, c, lots)
  {
    var lots := RoundedSize(r, c, headroom, remaining);
    LossPerLot(r, c, lots);
    RiskOfValue(lots, RiskPerLot(r, c, r.conversionRate.value), Costs(c, r.estimatedCommission));
  }

  /** A sized trade reports exactly what it would lose at its stop, and that is within the per-trade cap and
      within any positive heat headroom. */
  lemma {:induction false} FinalRiskIsLossAtStop(r: Request, c: Config, headroom: real, remaining: real)
    requires c.Valid() && Size(r, c, headroom, remaining).Sized?
    ensures var t := Size(r, c, headroom, remaining).trace;
            && r.conversionRate.Some?
            && t.finalRisk == (if t.rounded == 0.0 then 0.0 else LossAtStop(r, c, t.rounded))
            && t.finalRisk <= r.accountEquity * c.maxPerTradeRiskPct
            && (headroom > 0.0 ==> t.finalRisk <= headroom * r.accountEquity)
  {
    FinalRiskOfLots(r, c, headroom, remaining);
    FinalRiskWithinCaps(r, c, headroom, remaining);
  }

  /** The two stop distances a sized trade reports: to the stop, and to where the position is really left. */
  lemma {:induction false} StopsMean(r: Request, c: Config, headroom: real, remaining: real)
    requires Size(r, c, headroom, remaining).Sized?
    ensures var t := Size(r, c, headroom, remaining).trace;
            match r.side
            case Buy => t.stop == r.entryPrice - r.stopLossPrice && t.effectiveStop == r.entryPrice - ExitPrice(r, c)
            case Sell => t.stop == r.stopLossPrice - r.entryPrice && t.effectiveStop == ExitPrice(r, c) - r.entryPrice
  {
  }

  /** `budget` is the least of the limits on the loss of one trade: the per-trade cap, a positive remaining
      budget, and the money of a positive heat headroom. */
  predicate IsLossLimit(budget: real, r: Request, c: Config, headroom: real, remaining: real)
  {
    var cap, heat := r.accountEquity * c.maxPerTradeRiskPct, headroom * r.accountEquity;
    && budget <= cap && (remaining > 0.0 ==> budget <= remaining) && (headroom > 0.0 ==> budget <= heat)
    && (budget == cap || (remaining > 0.0 && budget == remaining) || (headroom > 0.0 && budget == heat))
  }

  lemma {:induction false} GrossIsLossLimit(r: Request, c: Config, headroom: real, remaining: real)
    ensures IsLossLimit(GrossBudget(r, c, headroom, remaining), r, c, headroom, remaining)
  {
  }

  lemma {:induction false} Spent(net: real, perLot: real, lots: real)
    requires perLot > 0.0 && lots == net / perLot
    ensures lots * perLot == net
  {
    DivMul(net, perLot);
  }

  lemma {:induction false} TheoreticalLoss(r: Request, c: Config, headroom: real, remaining: real)
    requires SizingGuard(r, c, headroom, remaining).None?
    ensures LossAtStop(r, c, Theoretical(r, c, headroom, remaining)) == GrossBudget(r, c, headroom, remaining)
  {
    var lots, perLot := Theoretical(r, c, headroom, remaining), RiskPerLot(r, c, r.conversionRate.value);
    LossPerLot(r, c, lots);
    Spent(NetBudget(r, c, headroom, remaining), perLot, lots);
  }

  lemma {:induction false} ConstrainedIsLeast(r: Request, c: Config, headroom: real, remaining: real)
    requires SizingGuard(r, c, headroom, remaining).None?
    ensures var size, lots := Constrained(r, c, headroom, remaining), Theoretical(r, c, headroom, remaining);
            && size <= lots && size <= c.maxLots && size <= r.requestedQuantity
            && (size == lots || size == c.maxLots || size == r.requestedQuantity)
  {
  }

  /** The theoretical size is the one whose loss at the stop is exactly the loss limit; the constrained size is
      the least of it, the lot cap and the request. */
  lemma {:induction false} TheoreticalSpendsTheLimit(r: Request, c: Config, headroom: real, remaining: real)
    requires Size(r, c, headroom, remaining).Sized?
    ensures var t := Size(r, c, headroom, remaining).trace;
            && r.conversionRate.Some?
            && IsLossLimit(LossAtStop(r, c, t.theoretical), r, c, headroom, remaining)
            && t.constrained <= t.theoretical && t.constrained <= c.maxLots && t.constrained <= r.requestedQuantity
            && (t.constrained == t.theoretical || t.constrained == c.maxLots || t.constrained == r.requestedQuantity)
  {
    TheoreticalLoss(r, c, headroom, remaining);
    GrossIsLossLimit(r, c, headroom, remaining);
    ConstrainedIsLeast(r, c, headroom, remaining);
  }

  /** Nothing is traded exactly when no multiple of the quantum fits between the minimum lot and the
      constrained size. */
  lemma {:induction false} ZeroSizeIff(r: Request, c: Config, headroom: real, remaining: real)
    requires c.Valid() && SizingGuard(r, c, headroom, remaining).None?
    ensures RoundedSize(r, c, headroom, remaining) == 0.0 <==>
            forall k: int :: !(c.minLots <= Times(k, Quantum(Step(r, c))) <= Constrained(r, c, headroom, remaining))
  {
    var size, q := RoundedSize(r, c, headroom, remaining), Quantum(Step(r, c));
    var constrained := Constrained(r, c, headroom, remaining);
    if size != 0.0 {
      RoundedIsGreatestWithinLimits(r, c, headroom, remaining, 0);
      var k :| size == Times(k, q);
    } else {
      forall k: int
        ensures !(c.minLots <= Times(k, q) <= constrained)
      {
        if c.minLots <= constrained { RoundDownIsGreatestMultiple(constrained, q, k); }
      }
    }
  }

  /** A trade is sized exactly when it can lose something to its stop, its figures are known and positive, and
      fees leave part of the loss limit. */
  lemma {:induction false} SizedIff(r: Request, c: Config, headroom: real, remaining: real)
    ensures Size(r, c, headroom, remaining).Sized? <==>
            && (if r.side == Buy then r.stopLossPrice < r.entryPrice else r.stopLossPrice > r.entryPrice)
            && (if r.side == Buy then ExitPrice(r, c) < r.entryPrice else ExitPrice(r, c) > r.entryPrice)
            && (if r.volumeStep.Some? && r.volumeStep.value.coef != 0 then r.volumeStep.value else c.lotStep).coef > 0
            && r.conversionRate.Some? && r.conversionRate.value > 0.0 && r.accountEquity > 0.0
            && LossAtStop(r, c, 1.0) > Fees(r, c)
            && forall budget :: IsLossLimit(budget, r, c, headroom, remaining) ==> budget > Fees(r, c)
  {
    if r.conversionRate.Some? { LossPerLot(r, c, 1.0); }
    assert IsLossLimit(GrossBudget(r, c, headroom, remaining), r, c, headroom, remaining);
  }

  /** Which limits a sized trade reports as binding. */
  lemma {:induction false} ConstraintsMean(r: Request, c: Config, headroom: real, remaining: real)
    requires c.Valid() && Size(r, c, headroom, remaining).Sized?
    ensures var t := Size(r, c, headroom, remaining).trace;
            && (BelowMinLots in t.constraints <==> t.constrained < c.minLots)
            && (QuantizeBelowMin in t.constraints <==> t.rounded == 0.0 && t.constrained >= c.minLots)
            && (RequestedQuantity in t.constraints <==> 0.0 != t.rounded < r.requestedQuantity)
            && (RiskBudget in t.constraints <==> 0.0 != t.rounded < t.theoretical)
            && (MaxLots in t.constraints <==> 0.0 != t.rounded == c.maxLots)
  {
  }

  /** The same trade on the other side of the market: prices reflected about a point. */
  function Reflected(r: Request, about: real): Request
  {
    r.(side := if r.side == Buy then Sell else Buy,
       entryPrice := about - r.entryPrice, stopLossPrice := about - r.stopLossPrice)
  }

  lemma {:induction false} ReflectedParts(r: Request, c: Config, about: real, headroom: real, remaining: real)
    ensures var m := Reflected(r, about);
            && StopDistance(m) == StopDistance(r) && EffectiveStop(m, c) == EffectiveStop(r, c)
            && Step(m, c) == Step(r, c) && ContractSize(m, c) == ContractSize(r, c)
            && NetBudget(m, c, headroom, remaining) == NetBudget(r, c, headroom, remaining)
  {
  }

  lemma {:induction false} ReflectedRisk(r: Request, c: Config, about: real, rate: real)
    ensures RiskPerLot(Reflected(r, about), c, rate) == RiskPerLot(r, c, rate)
  {
    ReflectedParts(r, c, about, 0.0, 0.0);
  }

  lemma {:induction false} ReflectedGuard(r: Request, c: Config, about: real, headroom: real, remaining: real)
    ensures SizingGuard(Reflected(r, about), c, headroom, remaining) == SizingGuard(r, c, headroom, remaining)
  {
    ReflectedParts(r, c, about, headroom, remaining);
    if r.conversionRate.Some? { ReflectedRisk(r, c, about, r.conversionRate.value); }
  }

  /** A sell is sized as the reflected buy. */
  lemma {:induction false} SellMirrorsBuy(r: Request, c: Config, about: real, headroom: real, remaining: real)
    ensures Size(Reflected(r, about), c, headroom, remaining) == Size(r, c, headroom, remaining)
  {
    ReflectedGuard(r, c, about, headroom, remaining);
    ReflectedParts(r, c, about, headroom, remaining);
    if SizingGuard(r, c, headroom, remaining).None? {
      ReflectedRisk(r, c, about, r.conversionRate.value);
      assert Theoretical(Reflected(r, about), c, headroom, remaining) == Theoretical(r, c, headroom, remaining);
    }
  }

  function Scaled(r: Request, factor: real): Request
    requires r.conversionRate.Some?
  {
    r.(conversionRate := Some(r.conversionRate.value * factor))
  }

  lemma {:induction false} ScaledRisk(r: Request, c: Config, factor: real)
    requires r.conversionRate.Some?
    ensures RiskPerLot(Scaled(r, factor), c, r.conversionRate.value * factor)
         == RiskPerLot(r, c, r.conversionRate.value) * factor
  {
    ScaleLast(EffectiveStop(r, c) * ContractSize(r, c), r.conversionRate.value, factor);
  }

  lemma {:induction false} ScaledParts(r: Request, c: Config, factor: real, headroom: real, remaining: real)
    requires r.conversionRate.Some?
    ensures var m := Scaled(r, factor);
            && StopDistance(m) == StopDistance(r) && EffectiveStop(m, c) == EffectiveStop(r, c)
            && Step(m, c) == Step(r, c) && NetBudget(m, c, headroom, remaining) == NetBudget(r, c, headroom, remaining)
  {
  }

  lemma {:induction false} ScaledSigns(rate: real, perLot: real, factor: real)
    requires rate > 0.0 && perLot > 0.0 && factor > 0.0
    ensures rate * factor > 0.0 && perLot * factor > 0.0
  {
    MulStrict(0.0, rate, factor);
    MulStrict(0.0, perLot, factor);
  }

  /** The guards ask for nothing but signs. */
  lemma {:induction false} GuardBySigns(r: Request, c: Config, headroom: real, remaining: real)
    ensures SizingGuard(r, c, headroom, remaining).None? <==>
            && StopDistance(r) > 0.0 && EffectiveStop(r, c) > 0.0 && Step(r, c).coef > 0
            && r.conversionRate.Some? && r.conversionRate.value > 0.0 && r.accountEquity > 0.0
            && NetBudget(r, c, headroom, remaining) > 0.0 && RiskPerLot(r, c, r.conversionRate.value) > 0.0
  {
  }

  lemma {:induction false} ScaledGuard(r: Request, c: Config, factor: real, headroom: real, remaining: real)
    requires factor > 0.0 && SizingGuard(r, c, headroom, remaining).None?
    ensures SizingGuard(Scaled(r, factor), c, headroom, remaining).None?
    ensures NetBudget(Scaled(r, factor), c, headroom, remaining) == NetBudget(r, c, headroom, remaining)
  {
    GuardBySigns(r, c, headroom, remaining);
    ScaledParts(r, c, factor, headroom, remaining);
    ScaledRisk(r, c, factor);
    ScaledSigns(r.conversionRate.value, RiskPerLot(r, c, r.conversionRate.value), factor);
    GuardBySigns(Scaled(r, factor), c, headroom, remaining);
  }

  /** The theoretical size is inversely proportional to the conversion rate. */
  lemma {:induction false} SizeInverseToRate(r: Request, c: Config, factor: real, headroom: real, remaining: real)
    requires factor > 0.0 && SizingGuard(r, c, headroom, remaining).None?
    ensures SizingGuard(Scaled(r, factor), c, headroom, remaining).None?
    ensures Theoretical(Scaled(r, factor), c, headroom, remaining) * factor == Theoretical(r, c, headroom, remaining)
  {
    ScaledGuard(r, c, factor, headroom, remaining);
    ScaledRisk(r, c, factor);
    QuotientScales(NetBudget(r, c, headroom, remaining), RiskPerLot(r, c, r.conversionRate.value), factor);
  }

  lemma {:induction false} ScaleLast(a: real, rate: real, factor: real)
    ensures a * (rate * factor) == a * rate * factor
  {
  }

  lemma {:induction false} QuotientScales(x: real, y: real, factor: real)
    requires y > 0.0 && factor > 0.0
    ensures y * factor > 0.0 && x / (y * factor) * factor == x / y
  {
    MulStrict(0.0, y, factor);
    var q := x / (y * factor);
    DivMul(x, y * factor);
    assert q * factor * y == x by { ScaleLast(q, factor, y); ScaleLast(q, y, factor); }
    DivMul(x, y);
    MulCancel(q * factor, x / y, y);
    MulCancel(x / y, q * factor, y);
  }

  // ---------- the statements ----------

  /** The budget, lowered in place by the heat cap and the commission. */
  method RiskBudgetFor(r: Request, c: Config, headroom: real, remaining: real) returns (budget: real)
    ensures budget == NetBudget(r, c, headroom, remaining)
  {
    var cap := r.accountEquity * c.maxPerTradeRiskPct;
    budget := Min(cap, if remaining > 0.0 then remaining else cap);
    if headroom > 0.0 {
      budget := Min(budget, headroom * r.accountEquity);
    }
    if c.includeTransactionCosts {
      budget := budget - r.estimatedCommission;
    }
  }

  method ListConstraints(rounded: real, requested: real, theoretical: real, maxLots: real)
    returns (constraints: seq<Constraint>)
    ensures constraints == When(rounded < requested, RequestedQuantity)
                         + When(rounded < theoretical, RiskBudget) + When(rounded == maxLots, MaxLots)
  {
    constraints := [];
    if rounded < requested { constraints := constraints + [RequestedQuantity]; }
    if rounded < theoretical { constraints := constraints + [RiskBudget]; }
    if rounded == maxLots { constraints := constraints + [MaxLots]; }
  }

  /** Rounding and final risk, with the guard that the budget bound shows to be dead. */
  method RoundLots(constrained: real, minLots: real, q: real, budget: real, perLot: real, commission: real,
                   requested: real, theoretical: real, maxLots: real)
    returns (rounded: real, finalRisk: real, constraints: seq<Constraint>)
    requires minLots > 0.0 && q > 0.0
    requires Lots(constrained, minLots, q) * perLot <= budget
    ensures rounded == Lots(constrained, minLots, q)
    ensures finalRisk == RiskOf(rounded, perLot, commission)
    ensures constraints == Limiting(constrained, rounded, minLots, requested, theoretical, maxLots)
  {
    rounded, finalRisk, constraints := 0.0, 0.0, [];
    if constrained < minLots {
      constraints := [BelowMinLots];
    } else {
      rounded := RoundDown(constrained, q);
      if rounded < minLots {
        rounded, constraints := 0.0, [QuantizeBelowMin];
      } else {
        var positionRisk := rounded * perLot;
        if positionRisk > budget { assert false; }
        finalRisk := positionRisk + commission;
        constraints := ListConstraints(rounded, requested, theoretical, maxLots);
      }
    }
  }

  /** The statement-by-statement sizer. */
  method SizePosition(r: Request, c: Config, headroom: real, remaining: real) returns (result: SizingResult)
    requires c.Valid()
    ensures result == Size(r, c, headroom, remaining)
    ensures result != Unsized(BudgetBreach)
    ensures result.Sized? ==>
              && r.conversionRate.Some?
              && result.trace.finalRisk ==
                 (if result.trace.rounded == 0.0 then 0.0 else LossAtStop(r, c, result.trace.rounded))
              && result.trace.finalRisk <= r.accountEquity * c.maxPerTradeRiskPct
  {
    if StopDistance(r) <= 0.0 { return Unsized(StopNotPositive); }
    if EffectiveStop(r, c) <= 0.0 { return Unsized(EffectiveStopNotPositive); }
    if Step(r, c).coef <= 0 { return Unsized(StepNotPositive); }
    if r.conversionRate.None? { return Unsized(RateMissing); }
    if r.conversionRate.value <= 0.0 { return Unsized(RateNotPositive); }
    if r.accountEquity <= 0.0 { return Unsized(EquityUnknown); }
    var budget := RiskBudgetFor(r, c, headroom, remaining);
    if budget <= 0.0 { return Unsized(NoBudget); }
    var perLot := RiskPerLot(r, c, r.conversionRate.value);
    if perLot <= 0.0 { return Unsized(RiskPerLotNotPositive); }
    var theoretical := Theoretical(r, c, headroom, remaining);
    var constrained := Constrained(r, c, headroom, remaining);
    BudgetGuardUnreachable(r, c, headroom, remaining);
    var rounded, finalRisk, constraints :=
      RoundLots(constrained, c.minLots, Quantum(Step(r, c)), budget, perLot, Costs(c, r.estimatedCommission),
                r.requestedQuantity, theoretical, c.maxLots);
    result := Sized(SizingTrace(theoretical, constrained, rounded, finalRisk,
                           StopDistance(r), EffectiveStop(r, c), constraints));
    FinalRiskIsLossAtStop(r, c, headroom, remaining);
  }
}
