/**
 The laws of one gate decision: what an acceptance guarantees, when exactly it is
 given, and how it responds to smaller orders, more positions and looser caps.
 */
module GateLaws {
  import opened Models
  import opened RiskGate

  /** Nothing about the account or the latch stands in the way of an order. */
  ghost predicate AccountClear(cfg: RiskConfig, ks: KillSwitch, account: Account) {
    && ks.Released?
    && account.equity > 0.0
    && account.peak - account.equity < cfg.maxDrawdown * account.peak
    && account.dayStart - account.equity < cfg.dailyLossLimit * account.dayStart
  }

  /** A loss fraction reaches a limit exactly when the money lost reaches that fraction of the reference. */
  lemma LossesInMoney(account: Account, limit: LossPercent)
    ensures account.DrawdownPct() >= limit <==> account.peak - account.equity >= limit * account.peak
    ensures account.DailyLossPct() >= limit <==> account.dayStart - account.equity >= limit * account.dayStart
  {
    FractionInMoney(account.peak, account.equity, limit);
    FractionInMoney(account.dayStart, account.equity, limit);
  }

  lemma ClearInFractions(cfg: RiskConfig, ks: KillSwitch, account: Account)
    ensures AccountClear(cfg, ks, account) <==>
              && ks.Released? && account.equity > 0.0
              && account.DrawdownPct() < cfg.maxDrawdown && account.DailyLossPct() < cfg.dailyLossLimit
  {
    LossesInMoney(account, cfg.maxDrawdown);
    LossesInMoney(account, cfg.dailyLossLimit);
    hide Account.DrawdownPct, Account.DailyLossPct;
  }

  lemma FractionInMoney(reference: PositiveDecimal, equity: real, limit: LossPercent)
    ensures 0.0 < limit * reference <= reference
    ensures (reference - equity) / reference >= limit <==> reference - equity >= limit * reference
  {
    ScaleLess(limit, 1.0, reference);
    QuotientReaches(reference - equity, reference, limit);
  }

  lemma QuotientReaches(x: real, y: real, q: real)
    requires y > 0.0
    ensures x / y >= q <==> x >= q * y
  {
    SizeForCap(q, x, y);
  }

  // ------------------------------------------------- the caps, written out

  function AsPosition(order: Order): Position {
    Position(order.pair, order.direction, order.size, order.entryPrice, order.stopPrice)
  }

  /** What the positions in some pairs are worth at entry. */
  function Exposure(book: seq<Position>, members: set<string>): real {
    if book == [] then 0.0
    else
      var last := book[|book| - 1];
      Exposure(book[..|book| - 1], members) + (if last.pair in members then last.size * last.entryPrice else 0.0)
  }

  function Distance(entry: real, stop: real): real {
    if entry >= stop then entry - stop else stop - entry
  }

  /** What the positions lose if every stop fills at its price. */
  function LossAtStops(book: seq<Position>): real {
    if book == [] then 0.0
    else
      var last := book[|book| - 1];
      LossAtStops(book[..|book| - 1]) + last.size * Distance(last.entryPrice, last.stopPrice)
  }

  lemma {:induction false} BookIsWorth(book: seq<Position>, members: set<string>)
    ensures NotionalIn(book, members) == Exposure(book, members) && RiskAtStopOf(book) == LossAtStops(book)
  {
    hide NotionalIn, RiskAtStopOf, Position.Notional, Position.RiskAtStop, Distance;
    NothingIsWorthNothing(members);
    if book != [] {
      var earlier, last := book[..|book| - 1], book[|book| - 1];
      BookIsWorth(earlier, members);
      PositionIsWorth(last);
      NotionalOfInsert(earlier, |earlier|, last, members);
      RiskOfInsert(earlier, |earlier|, last);
      assert earlier[..|earlier|] + [last] + earlier[|earlier|..] == book;
    }
  }

  lemma PositionIsWorth(p: Position)
    ensures p.Notional() == p.size * p.entryPrice
    ensures p.RiskAtStop() == p.size * Distance(p.entryPrice, p.stopPrice)
  {
  }

  lemma NothingIsWorthNothing(members: set<string>)
    ensures NotionalIn([], members) == 0.0 && RiskAtStopOf([]) == 0.0
  {
  }

  /** At that size, the loss at the order's stop is within the per-trade cap. */
  predicate Affordable(cfg: RiskConfig, equity: real, order: Order, size: real) {
    size * Distance(order.entryPrice, order.stopPrice) <= cfg.maxRiskPerTrade * equity
  }

  /** The largest size within the request whose loss at the stop is within the per-trade cap. */
  ghost predicate IsClipped(cfg: RiskConfig, equity: real, order: Order, size: PositiveDecimal) {
    && size <= order.size && Affordable(cfg, equity, order, size)
    && forall s: real :: size < s <= order.size ==> !Affordable(cfg, equity, order, s)
  }

  /** The book with the order added meets every cap of the configuration at some equity. */
  ghost predicate WithinConfig(cfg: RiskConfig, equity: real, order: Order, positions: seq<Position>) {
    var book := positions + [AsPosition(order)];
    && |book| <= cfg.maxConcurrentPositions
    && Affordable(cfg, equity, order, order.size)
    && Exposure(book, {order.pair}) <= cfg.maxExposurePerPair * equity
    && (forall g :: g in cfg.groups && order.pair in g.members ==>
          Exposure(book, g.members) <= cfg.maxCorrelatedExposure * equity)
    && LossAtStops(book) <= cfg.maxPortfolioRisk * equity
  }

  /** The limits the gate computes with are the caps of the configuration. */
  lemma LimitsAreTheCaps(cfg: RiskConfig, equity: real, order: Order, positions: seq<Position>)
    ensures WithinCaps(LimitsAt(cfg, equity), order, positions) <==> WithinConfig(cfg, equity, order, positions)
  {
    var book := positions + [AsPosition(order)];
    BookIsWorth(book, {order.pair});
    forall g | g in cfg.groups ensures NotionalIn(book, g.members) == Exposure(book, g.members) {
      BookIsWorth(book, g.members);
    }
    RiskIsDistance(order);
    hide NotionalIn, RiskAtStopOf, Exposure, LossAtStops, Order.RiskAtStop, Distance;
  }

  lemma RiskIsDistance(order: Order)
    ensures order.StopDistance() == Distance(order.entryPrice, order.stopPrice)
    ensures order.RiskAtStop() == order.size * Distance(order.entryPrice, order.stopPrice)
  {
  }

  lemma SizedIsClipped(cfg: RiskConfig, equity: real, order: Order)
    requires order.StopDistance() > 0.0 && LimitsAt(cfg, equity).trade > 0.0
    ensures var sized := Sized(LimitsAt(cfg, equity).trade, order);
            IsClipped(cfg, equity, order, sized.size) && sized == order.WithSize(sized.size)
  {
    hide Sized, Distance, Order.StopDistance;
    RiskIsDistance(order);
    var limit := LimitsAt(cfg, equity).trade;
    var size, d := Sized(limit, order).size, order.StopDistance();
    SizedIsLargest(limit, order, size);
    assert size <= order.size && size * d <= limit;
    forall s: real | size < s <= order.size ensures !Affordable(cfg, equity, order, s) {
      SizedIsLargest(limit, order, s);
    }
  }

  lemma ClippedIsUnique(cfg: RiskConfig, equity: real, order: Order, a: PositiveDecimal, b: PositiveDecimal)
    requires IsClipped(cfg, equity, order, a) && IsClipped(cfg, equity, order, b)
    ensures a == b
  {
  }

  /** The positions with the order's own added meet all five caps. */
  ghost predicate WithinCaps(limits: Limits, order: Order, positions: seq<Position>) {
    var book := positions + [AsPosition(order)];
    && |book| <= limits.concurrent
    && order.RiskAtStop() <= limits.trade
    && NotionalIn(book, {order.pair}) <= limits.perPair
    && (forall g :: g in limits.groups && order.pair in g.members ==> NotionalIn(book, g.members) <= limits.correlated)
    && RiskAtStopOf(book) <= limits.portfolio
  }

  ghost predicate Accepts(cfg: RiskConfig, ks: KillSwitch, order: Order, account: Account) {
    Gate(cfg, ks, order, account).0.Accepted()
  }

  ghost function AcceptedOrder(cfg: RiskConfig, ks: KillSwitch, order: Order, account: Account): Order
    requires Accepts(cfg, ks, order, account)
  {
    Gate(cfg, ks, order, account).0.sizedOrder.value
  }

  // ------------------------------------------------------------ book algebra

  lemma AppendedExposure(positions: seq<Position>, order: Order, members: set<string>)
    ensures NotionalIn(positions + [AsPosition(order)], members)
         == NotionalIn(positions, members) + (if order.pair in members then order.Notional() else 0.0)
    ensures RiskAtStopOf(positions + [AsPosition(order)]) == RiskAtStopOf(positions) + order.RiskAtStop()
  {
    var p := AsPosition(order);
    assert p.Notional() == order.Notional() && p.RiskAtStop() == order.RiskAtStop();
    hide Order.RiskAtStop, Order.Notional, Position.RiskAtStop, Position.Notional;
    NotionalOfInsert(positions, |positions|, p, members);
    RiskOfInsert(positions, |positions|, p);
    assert positions[..|positions|] + [p] + positions[|positions|..] == positions + [p];
  }

  /** The caps as the gate checks them, increment by increment. */
  ghost predicate IncrementsFit(limits: Limits, order: Order, positions: seq<Position>) {
    && |positions| < limits.concurrent
    && order.RiskAtStop() <= limits.trade
    && BrokenAggregateCap(limits, order, positions).None?
  }

  lemma IncrementsFitExactly(limits: Limits, order: Order, positions: seq<Position>)
    ensures WithinCaps(limits, order, positions) <==> IncrementsFit(limits, order, positions)
  {
    hide Order.RiskAtStop, Order.Notional, NotionalIn, RiskAtStopOf;
    AppendedExposure(positions, order, {order.pair});
    forall g | g in limits.groups && order.pair in g.members
      ensures NotionalIn(positions + [AsPosition(order)], g.members)
           == NotionalIn(positions, g.members) + order.Notional()
    {
      AppendedExposure(positions, order, g.members);
    }
  }

  // ------------------------------------------------------------------ sizing

  /** Clipping yields the largest size not above the request whose stop loss fits the limit. */
  lemma SizedIsLargest(tradeLimit: real, order: Order, s: PositiveDecimal)
    requires order.StopDistance() > 0.0 && tradeLimit > 0.0
    ensures Sized(tradeLimit, order) == order.WithSize(Sized(tradeLimit, order).size)
    ensures s <= Sized(tradeLimit, order).size <==> s <= order.size && s * order.StopDistance() <= tradeLimit
  {
    SizeForCap(order.size, tradeLimit, order.StopDistance());
    SizeForCap(s, tradeLimit, order.StopDistance());
  }

  lemma SizedFitsTradeLimit(tradeLimit: real, order: Order)
    requires order.StopDistance() > 0.0 && tradeLimit > 0.0
    ensures var sized := Sized(tradeLimit, order);
            && sized == order.WithSize(sized.size)
            && sized.size <= order.size
            && sized.RiskAtStop() <= tradeLimit
            && Sized(tradeLimit, sized) == sized
  {
    SizedIsLargest(tradeLimit, order, Sized(tradeLimit, order).size);
  }

  lemma SmallerCostsLess(order: Order, size: PositiveDecimal)
    requires size <= order.size
    ensures order.WithSize(size).Notional() <= order.Notional()
    ensures order.WithSize(size).RiskAtStop() <= order.RiskAtStop()
  {
    var smaller := order.WithSize(size);
    ScaleLess(size, order.size, order.entryPrice);
    ScaleLess(size, order.size, order.StopDistance());
    assert smaller.Notional() == size * order.entryPrice;
    assert smaller.RiskAtStop() == size * order.StopDistance();
  }

  // ------------------------------------------------------- laws of the caps

  ghost predicate CapsAccept(limits: Limits, order: Order, positions: seq<Position>) {
    && order.StopDistance() > 0.0 && limits.trade > 0.0
    && |positions| < limits.concurrent
    && BrokenAggregateCap(limits, Sized(limits.trade, order), positions).None?
  }

  /** The caps let an order through exactly when the book holding its clipped size meets all five. */
  lemma CapsAcceptExactlyWhen(limits: Limits, order: Order, positions: seq<Position>)
    requires order.StopDistance() > 0.0 && limits.trade > 0.0
    ensures CapsAccept(limits, order, positions) <==> WithinCaps(limits, Sized(limits.trade, order), positions)
  {
    SizedFitsTradeLimit(limits.trade, order);
    hide Order.RiskAtStop, Order.Notional, NotionalIn, RiskAtStopOf, WithinCaps, Sized;
    IncrementsFitExactly(limits, Sized(limits.trade, order), positions);
  }

  /** Submitting the clipped order again is let through, and is not clipped a second time. */
  lemma CapsIdempotent(limits: Limits, order: Order, positions: seq<Position>)
    requires CapsAccept(limits, order, positions)
    ensures var sized := Sized(limits.trade, order);
            CapsAccept(limits, sized, positions) && Sized(limits.trade, sized) == sized
  {
    SizedFitsTradeLimit(limits.trade, order);
  }

  lemma SmallerOrderFits(limits: Limits, order: Order, size: PositiveDecimal, positions: seq<Position>)
    requires WithinCaps(limits, order, positions) && size <= order.size
    ensures WithinCaps(limits, order.WithSize(size), positions)
  {
    hide Order.RiskAtStop, Order.Notional, NotionalIn, RiskAtStopOf, WithinCaps;
    SmallerCostsLess(order, size);
    IncrementsFitExactly(limits, order, positions);
    IncrementsFitExactly(limits, order.WithSize(size), positions);
  }

  lemma SizedMonotone(tradeLimit: real, order: Order, size: PositiveDecimal)
    requires order.StopDistance() > 0.0 && tradeLimit > 0.0 && size <= order.size
    ensures var smaller := order.WithSize(size);
            && smaller.StopDistance() == order.StopDistance()
            && Sized(tradeLimit, smaller).size <= Sized(tradeLimit, order).size
            && Sized(tradeLimit, smaller) == Sized(tradeLimit, order).WithSize(Sized(tradeLimit, smaller).size)
  {
    var smaller := order.WithSize(size);
    var s := Sized(tradeLimit, smaller).size;
    SizedIsLargest(tradeLimit, smaller, s);
    SizedIsLargest(tradeLimit, order, s);
  }

  /** The caps are downward closed in the requested size, and a smaller request never gets a larger fill. */
  lemma CapsDownwardClosed(limits: Limits, order: Order, size: PositiveDecimal, positions: seq<Position>)
    requires CapsAccept(limits, order, positions) && size <= order.size
    ensures CapsAccept(limits, order.WithSize(size), positions)
    ensures Sized(limits.trade, order.WithSize(size)).size <= Sized(limits.trade, order).size
  {
    hide Order.RiskAtStop, Order.Notional, NotionalIn, RiskAtStopOf, WithinCaps, Sized, BrokenAggregateCap;
    SizedMonotone(limits.trade, order, size);
    CapsAcceptExactlyWhen(limits, order, positions);
    SmallerOrderFits(limits, Sized(limits.trade, order), Sized(limits.trade, order.WithSize(size)).size, positions);
    CapsAcceptExactlyWhen(limits, order.WithSize(size), positions);
  }

  lemma ExposureNonnegative(p: Position)
    ensures p.Notional() >= 0.0 && p.RiskAtStop() >= 0.0
  {
  }

  lemma FewerPositionsFit(limits: Limits, order: Order, positions: seq<Position>, i: nat, p: Position)
    requires i <= |positions|
    requires WithinCaps(limits, order, positions[..i] + [p] + positions[i..])
    ensures WithinCaps(limits, order, positions)
  {
    hide Order.RiskAtStop, Order.Notional, Position.RiskAtStop, Position.Notional, NotionalIn, RiskAtStopOf, WithinCaps;
    var more := positions[..i] + [p] + positions[i..];
    IncrementsFitExactly(limits, order, more);
    ExposureNonnegative(p);
    RiskOfInsert(positions, i, p);
    forall members: set<string> ensures NotionalIn(positions, members) <= NotionalIn(more, members) {
      NotionalOfInsert(positions, i, p, members);
    }
    IncrementsFitExactly(limits, order, positions);
  }

  /** Holding one more position never gets an order past the caps that was not let through before. */
  lemma CapsAntitoneInPositions(limits: Limits, order: Order, positions: seq<Position>, i: nat, p: Position)
    requires i <= |positions|
    requires CapsAccept(limits, order, positions[..i] + [p] + positions[i..])
    ensures CapsAccept(limits, order, positions)
  {
    hide Order.RiskAtStop, Order.Notional, NotionalIn, RiskAtStopOf, WithinCaps, Sized, BrokenAggregateCap;
    CapsAcceptExactlyWhen(limits, order, positions[..i] + [p] + positions[i..]);
    FewerPositionsFit(limits, Sized(limits.trade, order), positions, i, p);
    CapsAcceptExactlyWhen(limits, order, positions);
  }

  // -------------------------------------------------------- laws of the gate

  /**
   An order is accepted exactly when the account is clear, its stop is off its entry and the
   caps let it through; it is then the clipped order that goes on, and the latch is untouched.
   */
  lemma AcceptedThroughLimits(cfg: RiskConfig, ks: KillSwitch, order: Order, account: Account)
    ensures var limits := LimitsAt(cfg, account.equity);
            Accepts(cfg, ks, order, account) <==>
              AccountClear(cfg, ks, account) && CapsAccept(limits, order, account.positions)
    ensures var limits := LimitsAt(cfg, account.equity);
            Accepts(cfg, ks, order, account) ==>
              && AcceptedOrder(cfg, ks, order, account) == Sized(limits.trade, order)
              && Gate(cfg, ks, order, account).0.kind
                    == (if Sized(limits.trade, order) == order then Approve else Resize)
              && Gate(cfg, ks, order, account).1 == ks
  {
    var limits := LimitsAt(cfg, account.equity);
    assert limits.concurrent == cfg.maxConcurrentPositions;
    if account.equity > 0.0 {
      LimitsPositive(cfg, account.equity);
    }
    ClearInFractions(cfg, ks, account);
    hide LimitsAt, Sized, BrokenAggregateCap, Account.DrawdownPct, Account.DailyLossPct, Order.RiskAtStop, AccountClear;
  }

  /**
   An order is accepted exactly when the latch is released, the account solvent and inside both loss
   limits, the stop off the entry, and the book holding the order at its clipped size within every
   configured cap. What goes on is the order at that size, approved if nothing was clipped.
   */
  lemma AcceptedExactlyWhen(cfg: RiskConfig, ks: KillSwitch, order: Order, account: Account)
    ensures Accepts(cfg, ks, order, account) <==>
              && AccountClear(cfg, ks, account) && order.entryPrice != order.stopPrice
              && exists size: PositiveDecimal ::
                   && IsClipped(cfg, account.equity, order, size)
                   && WithinConfig(cfg, account.equity, order.WithSize(size), account.positions)
    ensures forall size: PositiveDecimal ::
              Accepts(cfg, ks, order, account) && IsClipped(cfg, account.equity, order, size) ==>
                && AcceptedOrder(cfg, ks, order, account) == order.WithSize(size)
                && Gate(cfg, ks, order, account).0.kind == (if size == order.size then Approve else Resize)
                && Gate(cfg, ks, order, account).1 == ks
  {
    hide Gate, AccountClear, CapsAccept, WithinConfig, WithinCaps, IsClipped, Sized, Order.StopDistance;
    var limits := LimitsAt(cfg, account.equity);
    AcceptedThroughLimits(cfg, ks, order, account);
    StopOffEntry(order);
    CapsNeedDistance(limits, order, account.positions);
    if order.StopDistance() > 0.0 && account.equity > 0.0 {
      LimitsPositive(cfg, account.equity);
      var sized := Sized(limits.trade, order);
      SizedIsClipped(cfg, account.equity, order);
      CapsAcceptExactlyWhen(limits, order, account.positions);
      LimitsAreTheCaps(cfg, account.equity, sized, account.positions);
      forall size: PositiveDecimal | IsClipped(cfg, account.equity, order, size) ensures size == sized.size {
        ClippedIsUnique(cfg, account.equity, order, size, sized.size);
      }
      hide LimitsAt;
    } else {
      ClearIsSolvent(cfg, ks, account);
    }
  }

  lemma StopOffEntry(order: Order)
    ensures order.StopDistance() > 0.0 <==> order.entryPrice != order.stopPrice
  {
  }

  lemma CapsNeedDistance(limits: Limits, order: Order, positions: seq<Position>)
    ensures CapsAccept(limits, order, positions) ==> order.StopDistance() > 0.0
  {
    hide BrokenAggregateCap;
  }

  lemma ClearIsSolvent(cfg: RiskConfig, ks: KillSwitch, account: Account)
    ensures AccountClear(cfg, ks, account) ==> account.equity > 0.0
  {
  }

  /** What every acceptance promises about the order that goes to the broker, in the configuration's own terms. */
  lemma AcceptanceIsSound(cfg: RiskConfig, ks: KillSwitch, order: Order, account: Account)
    requires Accepts(cfg, ks, order, account)
    ensures var sized := AcceptedOrder(cfg, ks, order, account);
            && sized == order.WithSize(sized.size)
            && IsClipped(cfg, account.equity, order, sized.size)
            && WithinConfig(cfg, account.equity, sized, account.positions)
    ensures AccountClear(cfg, ks, account) && Gate(cfg, ks, order, account).1 == ks
  {
    hide Gate, WithinConfig, IsClipped, AccountClear;
    AcceptedExactlyWhen(cfg, ks, order, account);
  }

  /** The reasons of a rejection, in the order the gate looks for them, each in the configuration's own terms. */
  lemma RejectionNamesTheFirstObstacle(cfg: RiskConfig, ks: KillSwitch, order: Order, account: Account,
                                       size: PositiveDecimal)
    requires IsClipped(cfg, account.equity, order, size) || account.equity <= 0.0
             || order.entryPrice == order.stopPrice
    ensures var book := account.positions + [AsPosition(order.WithSize(size))];
            Gate(cfg, ks, order, account).0.rejectedBy ==
              if ks.Engaged? then [KillSwitchEngaged]
              else if order.entryPrice == order.stopPrice then [StopDistanceNonpositive]
              else if account.equity <= 0.0 then [NonpositiveEquity]
              else if account.peak - account.equity >= cfg.maxDrawdown * account.peak
              then [DrawdownCap, KillSwitchEngaged]
              else if account.dayStart - account.equity >= cfg.dailyLossLimit * account.dayStart
              then [DailyLossLimit, KillSwitchEngaged]
              else if |account.positions| >= cfg.maxConcurrentPositions then [MaxConcurrentPositions]
              else if Exposure(book, {order.pair}) > cfg.maxExposurePerPair * account.equity then [PerPairExposureCap]
              else if exists g :: g in cfg.groups && order.pair in g.members
                                  && Exposure(book, g.members) > cfg.maxCorrelatedExposure * account.equity
              then [CorrelatedExposureCap]
              else if LossAtStops(book) > cfg.maxPortfolioRisk * account.equity then [PortfolioRiskCap]
              else []
  {
    LossesInMoney(account, cfg.maxDrawdown);
    LossesInMoney(account, cfg.dailyLossLimit);
    StopOffEntry(order);
    hide Account.DrawdownPct, Account.DailyLossPct, Order.StopDistance, IsClipped, Sized, Exposure, LossAtStops,
      BrokenAggregateCap;
    if order.StopDistance() > 0.0 && account.equity > 0.0 {
      LimitsPositive(cfg, account.equity);
      var limits := LimitsAt(cfg, account.equity);
      var sized := Sized(limits.trade, order);
      SizedIsClipped(cfg, account.equity, order);
      ClippedIsUnique(cfg, account.equity, order, size, sized.size);
      BrokenCapInMoney(cfg, account.equity, sized, account.positions);
      hide LimitsAt;
    }
  }

  /** What a decision records beside its reasons. */
  lemma DecisionRecords(cfg: RiskConfig, ks: KillSwitch, order: Order, account: Account)
    ensures var decision := Gate(cfg, ks, order, account).0;
            && decision.asOf == account.asOf
            && (decision.Accepted() <==> decision.rejectedBy == [])
            && (decision.Accepted() <==> decision.sizedOrder.Some?)
            && (!decision.Accepted() ==> decision.limitingRule == Some(decision.rejectedBy[0]))
            && (decision.kind == Resize ==> decision.limitingRule == Some(PerTradeCap))
            && (decision.kind == Approve ==> decision.limitingRule == None)
  {
    hide LimitsAt, Sized, BrokenAggregateCap, Account.DrawdownPct, Account.DailyLossPct;
  }

  lemma BrokenCapInMoney(cfg: RiskConfig, equity: real, sized: Order, positions: seq<Position>)
    ensures var book := positions + [AsPosition(sized)];
            BrokenAggregateCap(LimitsAt(cfg, equity), sized, positions) ==
              if Exposure(book, {sized.pair}) > cfg.maxExposurePerPair * equity then Some(PerPairExposureCap)
              else if exists g :: g in cfg.groups && sized.pair in g.members
                                  && Exposure(book, g.members) > cfg.maxCorrelatedExposure * equity
              then Some(CorrelatedExposureCap)
              else if LossAtStops(book) > cfg.maxPortfolioRisk * equity then Some(PortfolioRiskCap)
              else None
  {
    hide NotionalIn, RiskAtStopOf, Exposure, LossAtStops, Order.RiskAtStop, Order.Notional;
    var book := positions + [AsPosition(sized)];
    AppendedExposure(positions, sized, {sized.pair});
    BookIsWorth(book, {sized.pair});
    forall g | g in cfg.groups && sized.pair in g.members
      ensures NotionalIn(positions, g.members) + sized.Notional() == Exposure(book, g.members)
    {
      AppendedExposure(positions, sized, g.members);
      BookIsWorth(book, g.members);
    }
  }

  /** Submitting the clipped order again approves it unchanged. */
  lemma AcceptanceIsIdempotent(cfg: RiskConfig, ks: KillSwitch, order: Order, account: Account)
    requires Accepts(cfg, ks, order, account)
    ensures var sized := AcceptedOrder(cfg, ks, order, account);
            && Accepts(cfg, ks, sized, account)
            && AcceptedOrder(cfg, ks, sized, account) == sized
            && Gate(cfg, ks, sized, account).0.kind == Approve
  {
    hide Gate, LimitsAt, Sized, CapsAccept;
    AcceptedThroughLimits(cfg, ks, order, account);
    CapsIdempotent(LimitsAt(cfg, account.equity), order, account.positions);
    AcceptedThroughLimits(cfg, ks, AcceptedOrder(cfg, ks, order, account), account);
  }

  /** Acceptance is downward closed in size, and a smaller request never gets a larger fill. */
  lemma AcceptanceDownwardClosed(cfg: RiskConfig, ks: KillSwitch, order: Order, size: PositiveDecimal, account: Account)
    requires Accepts(cfg, ks, order, account) && size <= order.size
    ensures Accepts(cfg, ks, order.WithSize(size), account)
    ensures AcceptedOrder(cfg, ks, order.WithSize(size), account).size <= AcceptedOrder(cfg, ks, order, account).size
  {
    hide Gate, LimitsAt, Sized, CapsAccept;
    AcceptedThroughLimits(cfg, ks, order, account);
    CapsDownwardClosed(LimitsAt(cfg, account.equity), order, size, account.positions);
    AcceptedThroughLimits(cfg, ks, order.WithSize(size), account);
  }

  /** Holding one more position, at the same equity, never gets an order accepted that was not before. */
  lemma AcceptanceAntitoneInPositions(cfg: RiskConfig, ks: KillSwitch, order: Order, account: Account, i: nat,
                                      p: Position)
    requires i <= |account.positions|
    requires Accepts(cfg, ks, order, account.(positions := account.positions[..i] + [p] + account.positions[i..]))
    ensures Accepts(cfg, ks, order, account)
    ensures AcceptedOrder(cfg, ks, order, account)
         == AcceptedOrder(cfg, ks, order, account.(positions := account.positions[..i] + [p] + account.positions[i..]))
  {
    hide Gate, LimitsAt, Sized, CapsAccept;
    AcceptedThroughLimits(cfg, ks, order, account.(positions := account.positions[..i] + [p] + account.positions[i..]));
    CapsAntitoneInPositions(LimitsAt(cfg, account.equity), order, account.positions, i, p);
    AcceptedThroughLimits(cfg, ks, order, account);
  }

  /** Every cap other than the per-trade one can only be loosened, and no group is added. */
  ghost predicate LooserBesidesTradeCap(cfg: RiskConfig, looser: RiskConfig) {
    && looser.maxRiskPerTrade == cfg.maxRiskPerTrade
    && cfg.maxPortfolioRisk <= looser.maxPortfolioRisk
    && cfg.maxConcurrentPositions <= looser.maxConcurrentPositions
    && cfg.maxExposurePerPair <= looser.maxExposurePerPair
    && cfg.maxCorrelatedExposure <= looser.maxCorrelatedExposure
    && cfg.dailyLossLimit <= looser.dailyLossLimit
    && cfg.maxDrawdown <= looser.maxDrawdown
    && forall g :: g in looser.groups ==> g in cfg.groups
  }

  lemma LooserLimits(cfg: RiskConfig, looser: RiskConfig, equity: real)
    requires LooserBesidesTradeCap(cfg, looser) && equity > 0.0
    ensures var l, l' := LimitsAt(cfg, equity), LimitsAt(looser, equity);
            && l.trade == l'.trade && l.perPair <= l'.perPair && l.correlated <= l'.correlated
            && l.portfolio <= l'.portfolio && l.concurrent <= l'.concurrent
            && forall g :: g in l'.groups ==> g in l.groups
  {
    ScaleLess(cfg.maxPortfolioRisk, looser.maxPortfolioRisk, equity);
    ScaleLess(cfg.maxExposurePerPair, looser.maxExposurePerPair, equity);
    ScaleLess(cfg.maxCorrelatedExposure, looser.maxCorrelatedExposure, equity);
  }

  /** Loosening those caps keeps every acceptance, with the same order. */
  lemma LooserCapsKeepAcceptance(cfg: RiskConfig, looser: RiskConfig, ks: KillSwitch, order: Order, account: Account)
    requires LooserBesidesTradeCap(cfg, looser) && Accepts(cfg, ks, order, account)
    ensures Accepts(looser, ks, order, account)
    ensures AcceptedOrder(looser, ks, order, account) == AcceptedOrder(cfg, ks, order, account)
  {
    AcceptedThroughLimits(cfg, ks, order, account);
    LooserLimits(cfg, looser, account.equity);
    hide LimitsAt, Order.RiskAtStop, Order.Notional, NotionalIn, RiskAtStopOf, Sized, Gate;
    AcceptedThroughLimits(looser, ks, order, account);
  }

  /**
   The per-trade cap is the exception: because it resizes while the others reject, raising it
   can turn an accepted order into a rejected one.
   */
  lemma RaisingTradeCapCanReject() returns (cfg: RiskConfig, raised: RiskConfig, order: Order, account: Account)
    ensures cfg.maxRiskPerTrade < raised.maxRiskPerTrade && raised == cfg.(maxRiskPerTrade := raised.maxRiskPerTrade)
    ensures Accepts(cfg, Released, order, account)
    ensures !Accepts(raised, Released, order, account)
  {
    hide Accepts, Gate, GateOnCaps, LimitsAt, Sized;
    cfg := RiskConfig(0.01, 1.0, 5, 1.0, 1.0, [], 0.5, 0.5);
    raised := RiskConfig(1.0, 1.0, 5, 1.0, 1.0, [], 0.5, 0.5);
    account := Account(100.0, 100.0, [], 0.0, 0.0, 100.0, 100.0, 0);
    order := Order("EURUSD", Long, 200.0, 1.0, 0.5);
    WitnessLimits(cfg, raised);
    WitnessClipped(order);
    AcceptsOnClearAccount(cfg, Limits(1.0, 100.0, 100.0, 100.0, 5, []), order, account);
    AcceptsOnClearAccount(raised, Limits(100.0, 100.0, 100.0, 100.0, 5, []), order, account);
  }

  lemma AcceptsOnClearAccount(cfg: RiskConfig, limits: Limits, order: Order, account: Account)
    requires AccountClear(cfg, Released, account) && order.StopDistance() > 0.0
    requires |account.positions| < cfg.maxConcurrentPositions
    requires limits == LimitsAt(cfg, account.equity)
    ensures limits.trade > 0.0
    ensures Accepts(cfg, Released, order, account) <==>
              GateOnCaps(limits, order, account.positions, account.asOf).Accepted()
  {
    hide GateOnCaps, LimitsAt, Gate, AccountClear, Order.StopDistance;
    GateOnClearAccount(cfg, order, account);
  }

  lemma GateOnClearAccount(cfg: RiskConfig, order: Order, account: Account)
    requires AccountClear(cfg, Released, account) && order.StopDistance() > 0.0
    requires |account.positions| < cfg.maxConcurrentPositions
    ensures LimitsAt(cfg, account.equity).trade > 0.0
    ensures Gate(cfg, Released, order, account).0
         == GateOnCaps(LimitsAt(cfg, account.equity), order, account.positions, account.asOf)
  {
    LimitsPositive(cfg, account.equity);
    hide GateOnCaps, LimitsAt, Account.DrawdownPct, Account.DailyLossPct;
  }

  lemma WitnessLimits(cfg: RiskConfig, raised: RiskConfig)
    requires cfg == RiskConfig(0.01, 1.0, 5, 1.0, 1.0, [], 0.5, 0.5)
    requires raised == RiskConfig(1.0, 1.0, 5, 1.0, 1.0, [], 0.5, 0.5)
    ensures LimitsAt(cfg, 100.0) == Limits(1.0, 100.0, 100.0, 100.0, 5, [])
    ensures LimitsAt(raised, 100.0) == Limits(100.0, 100.0, 100.0, 100.0, 5, [])
  {
  }

  lemma WitnessClipped(order: Order)
    requires order == Order("EURUSD", Long, 200.0, 1.0, 0.5)
    ensures GateOnCaps(Limits(1.0, 100.0, 100.0, 100.0, 5, []), order, [], 0).Accepted()
    ensures !GateOnCaps(Limits(100.0, 100.0, 100.0, 100.0, 5, []), order, [], 0).Accepted()
  {
    assert Sized(1.0, order) == order.WithSize(2.0);
    assert Sized(100.0, order) == order;
  }

  lemma GateOnCapsNeverBlamesTheSwitch(cfg: RiskConfig, order: Order, account: Account)
    requires order.StopDistance() > 0.0 && account.equity > 0.0
    ensures LimitsAt(cfg, account.equity).trade > 0.0
    ensures KillSwitchEngaged !in GateOnCaps(LimitsAt(cfg, account.equity), order, account.positions,
                                             account.asOf).rejectedBy
  {
    LimitsPositive(cfg, account.equity);
    hide LimitsAt, Sized, BreaksSomeGroup, NotionalIn, RiskAtStopOf, Order.Notional, Order.RiskAtStop;
  }

  /** An evaluation engages the latch exactly when a live account breaches a loss limit, and never releases it. */
  lemma GateTripsExactlyOnBreach(cfg: RiskConfig, ks: KillSwitch, order: Order, account: Account)
    ensures Gate(cfg, ks, order, account).1.Engaged? <==>
              || ks.Engaged?
              || (&& order.entryPrice != order.stopPrice && account.equity > 0.0
                  && (|| account.peak - account.equity >= cfg.maxDrawdown * account.peak
                      || account.dayStart - account.equity >= cfg.dailyLossLimit * account.dayStart))
    ensures ks.Engaged? ==> Gate(cfg, ks, order, account).1 == ks
    ensures ks.Released? && Gate(cfg, ks, order, account).1.Engaged? ==>
              Gate(cfg, ks, order, account).1
                == if account.peak - account.equity >= cfg.maxDrawdown * account.peak
                   then Engaged(BreachedDrawdown(account.DrawdownPct(), cfg.maxDrawdown), "drawdown", account.asOf)
                   else Engaged(BreachedDailyLoss(account.DailyLossPct(), cfg.dailyLossLimit), "daily_loss",
                                account.asOf)
    ensures KillSwitchEngaged in Gate(cfg, ks, order, account).0.rejectedBy
         <==> Gate(cfg, ks, order, account).1.Engaged?
  {
    LossesInMoney(account, cfg.maxDrawdown);
    LossesInMoney(account, cfg.dailyLossLimit);
    StopOffEntry(order);
    hide LimitsAt, GateOnCaps, Account.DrawdownPct, Account.DailyLossPct;
    if order.StopDistance() > 0.0 && account.equity > 0.0 {
      GateOnCapsNeverBlamesTheSwitch(cfg, order, account);
    }
  }
}
