/**
 The backtest broker's ledger as a value, and each of its operations as a pure
 function. The class in BacktestBroker.dfy is proved against these.
 */
module Ledger {
  import opened Models
  import opened Costs
  import opened Rollover

  datatype Lot = Lot(position: Position, tradeId: nat, entryCommission: real, swap: real)

  datatype Broker = Broker(cash: real, lots: seq<Lot>, realizedToday: real,
                           peak: PositiveDecimal, dayStart: PositiveDecimal,
                           marks: map<string, PositiveDecimal>, day: Option<int>, costs: CostTotals,
                           swapAcc: map<nat, real>)

  /** The marks, the peak and the day bookkeeping, which fills and swap never touch. */
  predicate SameClock(a: Broker, b: Broker) {
    a.marks == b.marks && a.peak == b.peak && a.dayStart == b.dayStart && a.day == b.day
  }

  const SMALLEST_DAY_START: PositiveDecimal := 0.01

  function NewBroker(startingBalance: PositiveDecimal): Broker {
    Broker(startingBalance, [], 0.0, startingBalance, startingBalance, map[], None, NO_COSTS, map[])
  }

  // -------------------------------------------------------------- valuation

  /** Every price the broker marks at is wide enough to sell at. */
  ghost predicate MarksTradeable(model: CostModel, marks: map<string, PositiveDecimal>) {
    forall pair :: pair in marks ==> Tradeable(model, marks[pair])
  }

  /** A position is valued as if it closed now, at the side it would close at. */
  function MarkPosition(model: CostModel, position: Position, mid: PositiveDecimal): real
    requires Tradeable(model, mid)
  {
    Pnl(position.direction, position.size, position.entryPrice, ExitPrice(position.direction, mid, model))
  }

  /** Unrealized P&L; a lot whose pair has never been marked is skipped. */
  function Unrealized(model: CostModel, marks: map<string, PositiveDecimal>, lots: seq<Lot>): real
    requires MarksTradeable(model, marks)
  {
    if lots == [] then 0.0
    else
      (if lots[0].position.pair in marks then MarkPosition(model, lots[0].position, marks[lots[0].position.pair])
       else 0.0)
      + Unrealized(model, marks, lots[1..])
  }

  function Equity(model: CostModel, b: Broker): real
    requires MarksTradeable(model, b.marks)
  {
    b.cash + Unrealized(model, b.marks, b.lots)
  }

  function PositionsOf(lots: seq<Lot>): seq<Position> {
    seq(|lots|, i requires 0 <= i < |lots| => lots[i].position)
  }

  function Snapshot(model: CostModel, b: Broker, asOf: int): Account
    requires MarksTradeable(model, b.marks)
  {
    var unrealized := Unrealized(model, b.marks, b.lots);
    Account(b.cash, b.cash + unrealized, PositionsOf(b.lots), b.realizedToday, unrealized, b.peak, b.dayStart, asOf)
  }

  // ------------------------------------------------------------- operations

  function RollDay(model: CostModel, hour: Hour, b: Broker, bar: Candle): Broker
    requires MarksTradeable(model, b.marks)
  {
    var day := BarDay(bar.time, hour);
    if b.day.None? then b.(day := Some(day))
    else if b.day.value != day then
      b.(dayStart := Max(Equity(model, b), SMALLEST_DAY_START), realizedToday := 0.0, day := Some(day))
    else b
  }

  function MarkToMarket(model: CostModel, b: Broker, bar: Candle): Broker
    requires MarksTradeable(model, b.marks) && Tradeable(model, bar.close)
  {
    var marked := b.(marks := b.marks[bar.pair := bar.close]);
    if Equity(model, marked) > b.peak then marked.(peak := Equity(model, marked)) else marked
  }

  function NewLot(model: CostModel, order: Order, next: Candle, tradeId: nat): Lot
    requires Tradeable(model, next.open)
  {
    Lot(Position(order.pair, order.direction, order.size,
                 EntryPrice(order.direction, next.open, model), order.stopPrice),
        tradeId, CommissionFor(order.size, model), 0.0)
  }

  function OpenLot(model: CostModel, b: Broker, order: Order, next: Candle, tradeId: nat): Broker
    requires Tradeable(model, next.open)
  {
    var lot := NewLot(model, order, next, tradeId);
    b.(cash := b.cash - lot.entryCommission,
       costs := AddFill(b.costs, order.size, model),
       lots := b.lots + [lot],
       swapAcc := b.swapAcc[tradeId := 0.0])
  }

  function CloseLot(model: CostModel, b: Broker, i: nat, next: Candle): Broker
    requires i < |b.lots| && Tradeable(model, next.open)
  {
    var position := b.lots[i].position;
    var net := MarkPosition(model, position, next.open) - CommissionFor(position.size, model);
    b.(cash := b.cash + net,
       realizedToday := b.realizedToday + net,
       costs := AddFill(b.costs, position.size, model),
       lots := b.lots[..i] + b.lots[i + 1..])
  }

  /** What one unit-day of swap costs times the units and days charged for a gap between bars. */
  function SwapCharge(model: CostModel, direction: Direction, size: real, rollovers: int, multiplier: int): real {
    size * SwapRate(direction, model) * rollovers as real * multiplier as real
  }

  /** Charges one lot, into cash, its own accumulator, its trade's accumulator and the swap total. */
  function ChargeLot(model: CostModel, b: Broker, i: nat, rollovers: int, multiplier: int): Broker
    requires i < |b.lots|
  {
    var lot := b.lots[i];
    var charge := SwapCharge(model, lot.position.direction, lot.position.size, rollovers, multiplier);
    b.(cash := b.cash + charge,
       lots := b.lots[i := lot.(swap := lot.swap + charge)],
       swapAcc := if lot.tradeId in b.swapAcc then b.swapAcc[lot.tradeId := b.swapAcc[lot.tradeId] + charge]
           else b.swapAcc,
       costs := b.costs.(swap := b.costs.swap + charge))
  }

  /** Apart from the swap total itself, charging a lot does not depend on the cost totals. */
  lemma ChargeLotIgnoresCosts(model: CostModel, b: Broker, costs: CostTotals, i: nat, rollovers: int, multiplier: int)
    requires i < |b.lots|
    ensures ChargeLot(model, b.(costs := costs), i, rollovers, multiplier).(costs := costs)
         == ChargeLot(model, b, i, rollovers, multiplier).(costs := costs)
    ensures ChargeLot(model, b, i, rollovers, multiplier).costs
         == b.costs.(swap := b.costs.swap
                     + SwapCharge(model, b.lots[i].position.direction, b.lots[i].position.size, rollovers, multiplier))
  {
  }

  function ChargeFirstLots(model: CostModel, b: Broker, n: nat, rollovers: int, multiplier: int): (charged: Broker)
    requires n <= |b.lots|
    ensures |charged.lots| == |b.lots|
  {
    if n == 0 then b
    else ChargeLot(model, ChargeFirstLots(model, b, n - 1, rollovers, multiplier), n - 1, rollovers, multiplier)
  }

  /** Charges swap on every open lot when the gap between two bars crosses a rollover. */
  function ApplySwap(model: CostModel, hour: Hour, b: Broker, current: Candle, next: Candle): Broker
    requires current.time <= next.time
  {
    var rollovers := Rollovers(current.time, next.time, hour);
    if b.lots == [] || rollovers == 0 then b
    else
      ChargeFirstLots(model, b, |b.lots|, rollovers,
                      GapMultiplier(current.time, next.time, hour, model.weekendMultiplier))
  }

  lemma {:induction false} ChargeFirstLotsKeepsTrades(model: CostModel, b: Broker, n: nat, rollovers: int,
                                                      multiplier: int)
    requires n <= |b.lots|
    ensures var charged := ChargeFirstLots(model, b, n, rollovers, multiplier);
            && SameClock(charged, b) && charged.swapAcc.Keys == b.swapAcc.Keys
            && charged.realizedToday == b.realizedToday
  {
    hide SwapCharge;
    if n > 0 {
      ChargeFirstLotsKeepsTrades(model, b, n - 1, rollovers, multiplier);
    }
  }

  /** Charging swap neither opens nor forgets a trade, realizes nothing, and leaves the clock alone. */
  lemma ApplySwapKeepsTrades(model: CostModel, hour: Hour, b: Broker, current: Candle, next: Candle)
    requires current.time <= next.time
    ensures var charged := ApplySwap(model, hour, b, current, next);
            && SameClock(charged, b) && charged.swapAcc.Keys == b.swapAcc.Keys
            && charged.realizedToday == b.realizedToday
  {
    ChargeFirstLotsKeepsTrades(model, b, |b.lots|, Rollovers(current.time, next.time, hour),
                               GapMultiplier(current.time, next.time, hour, model.weekendMultiplier));
  }

  function SwapOfTrade(b: Broker, tradeId: nat): real {
    if tradeId in b.swapAcc then b.swapAcc[tradeId] else 0.0
  }

  function ForgetSwap(b: Broker, tradeId: nat): Broker {
    b.(swapAcc := map id | id in b.swapAcc && id != tradeId :: b.swapAcc[id])
  }
}
