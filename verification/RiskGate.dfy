/**
 The deterministic gate between strategy signals and broker orders, as a pure
 transition on (kill switch, order, account), together with the stateful manager
 that implements it and the laws every decision obeys.
 */
module RiskGate {
  import opened Models

  datatype Group = Group(name: string, members: set<string>)

  datatype RiskConfig = RiskConfig(maxRiskPerTrade: LossPercent, maxPortfolioRisk: LossPercent,
                                   maxConcurrentPositions: PositiveCount,
                                   maxExposurePerPair: PositiveDecimal, maxCorrelatedExposure: PositiveDecimal,
                                   groups: seq<Group>,
                                   dailyLossLimit: LossPercent, maxDrawdown: LossPercent)

  datatype Reason =
    | KillSwitchEngaged
    | PerTradeCap
    | MaxConcurrentPositions
    | PortfolioRiskCap
    | PerPairExposureCap
    | CorrelatedExposureCap
    | DailyLossLimit
    | DrawdownCap
    | StopDistanceNonpositive
    | NonpositiveEquity

  datatype Kind = Approve | Resize | Reject

  datatype Decision = Decision(kind: Kind, sizedOrder: Option<Order>, rejectedBy: seq<Reason>,
                               limitingRule: Option<Reason>, asOf: int) {
    predicate Accepted() {
      kind != Reject
    }
  }

  datatype TripReason =
    | BreachedDrawdown(pct: real, cap: real)
    | BreachedDailyLoss(pct: real, cap: real)
    | BrokerFailed(operation: string)
    | ByOperator(text: string)

  /** The latch: who engaged it, why and when, until an operator releases it. */
  datatype KillSwitch = Released | Engaged(reason: TripReason, trippedBy: string, trippedAt: int)

  const RESET_TOKEN := "I_UNDERSTAND_RESET"

  // ---------------------------------------------------------------- the gate

  function Tripped(ks: KillSwitch, reason: TripReason, trippedBy: string, now: int): KillSwitch {
    if ks.Engaged? then ks else Engaged(reason, trippedBy, now)
  }

  function AfterReset(ks: KillSwitch, confirmation: string): KillSwitch {
    if confirmation == RESET_TOKEN then Released else ks
  }

  function RejectFor(rejectedBy: seq<Reason>, now: int): Decision
    requires rejectedBy != []
  {
    Decision(Reject, None, rejectedBy, Some(rejectedBy[0]), now)
  }

  /** The caps of a configuration in quote currency, at a given equity. */
  datatype Limits = Limits(trade: real, perPair: real, correlated: real, portfolio: real,
                           concurrent: nat, groups: seq<Group>)

  function LimitsAt(cfg: RiskConfig, equity: real): Limits {
    Limits(cfg.maxRiskPerTrade * equity, cfg.maxExposurePerPair * equity,
           cfg.maxCorrelatedExposure * equity, cfg.maxPortfolioRisk * equity,
           cfg.maxConcurrentPositions, cfg.groups)
  }

  /** The order with its size clipped so that the loss at the stop fits the per-trade limit. */
  function Sized(tradeLimit: real, order: Order): Order
    requires order.StopDistance() > 0.0 && tradeLimit > 0.0
  {
    if order.RiskAtStop() > tradeLimit then
      QuotientPositive(tradeLimit, order.StopDistance());
      order.WithSize(tradeLimit / order.StopDistance())
    else order
  }

  ghost predicate BreaksSomeGroup(limits: Limits, order: Order, positions: seq<Position>) {
    exists g :: g in limits.groups && order.pair in g.members
                && NotionalIn(positions, g.members) + order.Notional() > limits.correlated
  }

  /** The aggregate checks on an already clipped order, in their order. */
  ghost function BrokenAggregateCap(limits: Limits, sized: Order, positions: seq<Position>): Option<Reason> {
    if NotionalIn(positions, {sized.pair}) + sized.Notional() > limits.perPair then Some(PerPairExposureCap)
    else if BreaksSomeGroup(limits, sized, positions) then Some(CorrelatedExposureCap)
    else if RiskAtStopOf(positions) + sized.RiskAtStop() > limits.portfolio then Some(PortfolioRiskCap)
    else None
  }

  /** One evaluation: the checks in their order, and what each does to the kill switch. */
  ghost function Gate(cfg: RiskConfig, ks: KillSwitch, order: Order, account: Account): (Decision, KillSwitch) {
    var now := account.asOf;
    if ks.Engaged? then (RejectFor([KillSwitchEngaged], now), ks)
    else if order.StopDistance() <= 0.0 then (RejectFor([StopDistanceNonpositive], now), ks)
    else if account.equity <= 0.0 then (RejectFor([NonpositiveEquity], now), ks)
    else if account.DrawdownPct() >= cfg.maxDrawdown then
      (RejectFor([DrawdownCap, KillSwitchEngaged], now),
       Tripped(ks, BreachedDrawdown(account.DrawdownPct(), cfg.maxDrawdown), "drawdown", now))
    else if account.DailyLossPct() >= cfg.dailyLossLimit then
      (RejectFor([DailyLossLimit, KillSwitchEngaged], now),
       Tripped(ks, BreachedDailyLoss(account.DailyLossPct(), cfg.dailyLossLimit), "daily_loss", now))
    else if |account.positions| >= cfg.maxConcurrentPositions then (RejectFor([MaxConcurrentPositions], now), ks)
    else
      LimitsPositive(cfg, account.equity);
      (GateOnCaps(LimitsAt(cfg, account.equity), order, account.positions, now), ks)
  }

  ghost function GateOnCaps(limits: Limits, order: Order, positions: seq<Position>, now: int): Decision
    requires order.StopDistance() > 0.0 && limits.trade > 0.0
  {
    var sized := Sized(limits.trade, order);
    match BrokenAggregateCap(limits, sized, positions)
    case Some(cap) => RejectFor([cap], now)
    case None =>
      if sized == order then Decision(Approve, Some(sized), [], None, now)
      else Decision(Resize, Some(sized), [], Some(PerTradeCap), now)
  }

  // ------------------------------------------------------------- the manager

  /** The stateful manager; its only state is the latch. */
  class RiskManager {
    const config: RiskConfig
    var killSwitch: KillSwitch

    constructor (config: RiskConfig)
      ensures this.config == config && killSwitch == Released
    {
      this.config := config;
      killSwitch := Released;
    }

    /** Engages the latch. Re-tripping keeps the first cause. */
    method Trip(reason: TripReason, trippedBy: string, now: int)
      modifies this
      ensures killSwitch == Tripped(old(killSwitch), reason, trippedBy, now)
      ensures old(killSwitch).Engaged? ==> killSwitch == old(killSwitch)
      ensures old(killSwitch).Released? ==> killSwitch == Engaged(reason, trippedBy, now)
    {
      if killSwitch.Engaged? {
        return;
      }
      killSwitch := Engaged(reason, trippedBy, now);
    }

    /** Releases the latch when the operator types the exact token, and fails otherwise. */
    method Reset(confirmation: string) returns (r: Result<(), string>)
      modifies this
      ensures killSwitch == AfterReset(old(killSwitch), confirmation)
      ensures r.Ok? <==> confirmation == "I_UNDERSTAND_RESET"
      ensures r.Ok? ==> killSwitch == Released
      ensures r.Err? ==> killSwitch == old(killSwitch)
    {
      if confirmation != RESET_TOKEN {
        return Err("invalid kill-switch reset confirmation");
      }
      killSwitch := Released;
      return Ok(());
    }

    method Evaluate(order: Order, account: Account) returns (decision: Decision)
      modifies this
      ensures (decision, killSwitch) == Gate(config, old(killSwitch), order, account)
    {
      var now := account.asOf;
      if killSwitch.Engaged? {
        return RejectFor([KillSwitchEngaged], now);
      }
      if order.StopDistance() <= 0.0 {
        return RejectFor([StopDistanceNonpositive], now);
      }
      if account.equity <= 0.0 {
        return RejectFor([NonpositiveEquity], now);
      }
      if account.DrawdownPct() >= config.maxDrawdown {
        Trip(BreachedDrawdown(account.DrawdownPct(), config.maxDrawdown), "drawdown", now);
        return RejectFor([DrawdownCap, KillSwitchEngaged], now);
      }
      if account.DailyLossPct() >= config.dailyLossLimit {
        Trip(BreachedDailyLoss(account.DailyLossPct(), config.dailyLossLimit), "daily_loss", now);
        return RejectFor([DailyLossLimit, KillSwitchEngaged], now);
      }
      if |account.positions| >= config.maxConcurrentPositions {
        return RejectFor([MaxConcurrentPositions], now);
      }

      LimitsPositive(config, account.equity);
      decision := EvaluateCaps(LimitsAt(config, account.equity), order, account.positions, now);
    }

    /** Steps 6 to 10 of an evaluation: clip to the per-trade cap, then check every aggregate cap. */
    method EvaluateCaps(limits: Limits, order: Order, positions: seq<Position>, now: int) returns (decision: Decision)
      requires order.StopDistance() > 0.0 && limits.trade > 0.0
      ensures decision == GateOnCaps(limits, order, positions, now)
    {
      var sizedOrder := order;
      var resized := false;
      if order.RiskAtStop() > limits.trade {
        ResizeShrinks(order.size, order.StopDistance(), limits.trade);
        sizedOrder := order.WithSize(limits.trade / order.StopDistance());
        resized := true;
      }
      if NotionalIn(positions, {sizedOrder.pair}) + sizedOrder.Notional() > limits.perPair {
        return RejectFor([PerPairExposureCap], now);
      }
      for i := 0 to |limits.groups|
        invariant forall g :: g in limits.groups[..i] && sizedOrder.pair in g.members ==>
                    NotionalIn(positions, g.members) + sizedOrder.Notional() <= limits.correlated
      {
        var group := limits.groups[i];
        if sizedOrder.pair in group.members {
          var projected := NotionalIn(positions, group.members) + sizedOrder.Notional();
          if projected > limits.correlated {
            return RejectFor([CorrelatedExposureCap], now);
          }
        }
      }
      if RiskAtStopOf(positions) + sizedOrder.RiskAtStop() > limits.portfolio {
        return RejectFor([PortfolioRiskCap], now);
      }
      decision := if resized then Decision(Resize, Some(sizedOrder), [], Some(PerTradeCap), now)
                  else Decision(Approve, Some(sizedOrder), [], None, now);
    }
  }

  // ------------------------------------------------------------- arithmetic

  lemma QuotientPositive(x: real, y: real)
    requires x > 0.0 && y > 0.0
    ensures x / y > 0.0
    ensures x / y * y == x
  {
  }

  lemma LimitsPositive(cfg: RiskConfig, equity: real)
    requires equity > 0.0
    ensures LimitsAt(cfg, equity).trade > 0.0
  {
  }

  /** The limits of a loose configuration at an equity of one thousand. */
  lemma LooseLimits(cfg: RiskConfig)
    requires cfg.maxRiskPerTrade == cfg.maxPortfolioRisk == 1.0
    requires cfg.maxExposurePerPair == cfg.maxCorrelatedExposure == 10.0
    ensures LimitsAt(cfg, 1000.0) == Limits(1000.0, 10000.0, 10000.0, 1000.0, cfg.maxConcurrentPositions, cfg.groups)
  {
  }

  lemma ScaleLess(x: real, y: real, k: real)
    requires x <= y && 0.0 <= k
    ensures x * k <= y * k
  {
  }

  lemma ScaleStrictlyLess(x: real, y: real, k: real)
    requires x < y && 0.0 < k
    ensures x * k < y * k
  {
  }

  /** The size that exactly meets a cap is smaller than any size over it. */
  lemma ResizeShrinks(size: real, stop: real, cap: real)
    requires size * stop > cap > 0.0 && stop > 0.0
    ensures 0.0 < cap / stop < size
  {
    QuotientPositive(cap, stop);
    SizeForCap(size, cap, stop);
  }

  /** A size is within a cap exactly when it is at most the quotient. */
  lemma SizeForCap(size: real, cap: real, stop: real)
    requires stop > 0.0
    ensures size * stop <= cap <==> size <= cap / stop
  {
    assert cap / stop * stop == cap;
    if size <= cap / stop {
      ScaleLess(size, cap / stop, stop);
    } else {
      ScaleStrictlyLess(cap / stop, size, stop);
    }
  }
}
