/** The bar-driven broker: a mutable ledger, each method proved against the pure operation it performs. */
module BacktestBroker {
  import opened Models
  import opened Costs
  import opened Rollover
  import Ledger

  /** One open position with its trade bookkeeping; only the accumulated swap changes. */
  class OpenLot {
    const position: Position
    const tradeId: nat
    const entryCommission: real
    var swapAccumulated: real

    constructor (position: Position, tradeId: nat, entryCommission: real)
      ensures this.position == position && this.tradeId == tradeId && this.entryCommission == entryCommission
      ensures swapAccumulated == 0.0
    {
      this.position, this.tradeId, this.entryCommission := position, tradeId, entryCommission;
      swapAccumulated := 0.0;
    }

    function Value(): Ledger.Lot
      reads this
    {
      Ledger.Lot(position, tradeId, entryCommission, swapAccumulated)
    }
  }

  function Values(lots: seq<OpenLot>): (values: seq<Ledger.Lot>)
    reads lots
    ensures |values| == |lots|
    ensures forall i :: 0 <= i < |lots| ==> values[i] == lots[i].Value()
  {
    if lots == [] then [] else [lots[0].Value()] + Values(lots[1..])
  }

  /** The lots other than one of them, in order. */
  function Without(lots: seq<OpenLot>, lot: OpenLot): seq<OpenLot> {
    if lots == [] then []
    else if lots[0] != lot then [lots[0]] + Without(lots[1..], lot)
    else Without(lots[1..], lot)
  }

  lemma {:induction false} WithoutRemovesOne(lots: seq<OpenLot>, i: nat)
    requires i < |lots|
    requires forall j, k :: 0 <= j < k < |lots| ==> lots[j] != lots[k]
    ensures Without(lots, lots[i]) == lots[..i] + lots[i + 1..]
  {
    var rest := lots[1..];
    if i == 0 {
      WithoutAbsent(rest, lots[0]);
    } else {
      assert rest[i - 1] == lots[i];
      WithoutRemovesOne(rest, i - 1);
      assert lots[..i] == [lots[0]] + rest[..i - 1] && lots[i + 1..] == rest[i..];
    }
  }

  lemma {:induction false} WithoutAbsent(lots: seq<OpenLot>, lot: OpenLot)
    requires lot !in lots
    ensures Without(lots, lot) == lots
  {
    if lots != [] {
      WithoutAbsent(lots[1..], lot);
    }
  }

  /** Mutable accumulator for cost attribution over a run. */
  class CostBreakdown {
    var spreadCost: real
    var commission: real
    var slippage: real
    var swap: real

    constructor ()
      ensures Totals() == NO_COSTS
    {
      spreadCost, commission, slippage, swap := 0.0, 0.0, 0.0, 0.0;
    }

    function Totals(): CostTotals
      reads this
    {
      CostTotals(spreadCost, commission, slippage, swap)
    }
  }

  class BacktestBroker {
    const model: CostModel
    const rolloverHour: Hour
    const costBreakdown: CostBreakdown
    var cash: real
    var openLots: seq<OpenLot>
    var realizedPnlToday: real
    var peakEquity: PositiveDecimal
    var dayStartEquity: PositiveDecimal
    var currentMarkedMid: map<string, PositiveDecimal>
    var currentDay: Option<int>
    var tradeSwapAcc: map<nat, real>

    /** Open lots are separate objects with separate trade ids, each with a swap accumulator. */
    ghost predicate Valid()
      reads this, openLots
    {
      && (forall i, j :: 0 <= i < j < |openLots| ==>
          openLots[i] != openLots[j] && openLots[i].tradeId != openLots[j].tradeId)
      && (forall i :: 0 <= i < |openLots| ==> openLots[i].tradeId in tradeSwapAcc)
      && Ledger.MarksTradeable(model, currentMarkedMid)
    }

    function State(): Ledger.Broker
      reads this, openLots, costBreakdown
    {
      Ledger.Broker(cash, Values(openLots), realizedPnlToday, peakEquity, dayStartEquity, currentMarkedMid,
                    currentDay, costBreakdown.Totals(), tradeSwapAcc)
    }

    constructor (startingBalance: PositiveDecimal, model: CostModel, rolloverHour: Hour)
      ensures Valid() && State() == Ledger.NewBroker(startingBalance)
      ensures this.model == model && this.rolloverHour == rolloverHour
      ensures openLots == [] && fresh(costBreakdown)
    {
      this.model, this.rolloverHour := model, rolloverHour;
      costBreakdown := new CostBreakdown();
      cash := startingBalance;
      openLots := [];
      realizedPnlToday := 0.0;
      peakEquity, dayStartEquity := startingBalance, startingBalance;
      currentMarkedMid := map[];
      currentDay := None;
      tradeSwapAcc := map[];
    }

    /** Sums the marks of the open lots, skipping a pair that was never marked. */
    method UnrealizedPnl() returns (total: real)
      requires Valid()
      ensures total == Ledger.Unrealized(model, currentMarkedMid, Values(openLots))
    {
      total := 0.0;
      var i := |openLots|;
      while i > 0
        invariant 0 <= i <= |openLots|
        invariant total == Ledger.Unrealized(model, currentMarkedMid, Values(openLots)[i..])
      {
        i := i - 1;
        var position := openLots[i].position;
        assert Values(openLots)[i..][1..] == Values(openLots)[i + 1..];
        if position.pair in currentMarkedMid {
          total := Ledger.MarkPosition(model, position, currentMarkedMid[position.pair]) + total;
        }
      }
      assert Values(openLots)[0..] == Values(openLots);
    }

    method MaybeRollDay(bar: Candle)
      requires Valid()
      modifies this
      ensures Valid() && openLots == old(openLots)
      ensures State() == Ledger.RollDay(model, rolloverHour, old(State()), bar)
    {
      var day := BarDay(bar.time, rolloverHour);
      if currentDay.None? {
        currentDay := Some(day);
        return;
      }
      if day != currentDay.value {
        var unrealized := UnrealizedPnl();
        dayStartEquity := Max(cash + unrealized, Ledger.SMALLEST_DAY_START);
        realizedPnlToday := 0.0;
        currentDay := Some(day);
      }
    }

    method MarkToMarket(bar: Candle)
      requires Valid() && Tradeable(model, bar.close)
      modifies this
      ensures Valid() && openLots == old(openLots)
      ensures State() == Ledger.MarkToMarket(model, old(State()), bar)
    {
      hide Pnl, Ledger.MarkPosition, Values, Ledger.Unrealized;
      currentMarkedMid := currentMarkedMid[bar.pair := bar.close];
      var unrealized := UnrealizedPnl();
      if cash + unrealized > peakEquity {
        peakEquity := cash + unrealized;
      }
    }

    method Snapshot(asOf: int) returns (account: Account)
      requires Valid()
      ensures account == Ledger.Snapshot(model, State(), asOf)
    {
      var unrealized := UnrealizedPnl();
      var positions: seq<Position> := [];
      for i := 0 to |openLots|
        invariant positions == Ledger.PositionsOf(Values(openLots))[..i]
      {
        positions := positions + [openLots[i].position];
      }
      account := Account(cash, cash + unrealized, positions, realizedPnlToday, unrealized,
                         peakEquity, dayStartEquity, asOf);
    }

    method ChargeFill(size: real)
      modifies costBreakdown
      ensures costBreakdown.Totals() == AddFill(old(costBreakdown.Totals()), size, model)
    {
      costBreakdown.spreadCost := costBreakdown.spreadCost + size * model.halfSpread;
      costBreakdown.slippage := costBreakdown.slippage + size * model.slippagePerUnit;
      costBreakdown.commission := costBreakdown.commission + CommissionFor(size, model);
    }

    /** Opens a position at the next bar's open. The caller supplies a trade id it has not used. */
    method OpenAtNextOpen(order: Order, next: Candle, tradeId: nat) returns (lot: OpenLot)
      requires Valid() && Tradeable(model, next.open)
      requires tradeId !in tradeSwapAcc
      modifies this, costBreakdown
      ensures Valid() && fresh(lot) && openLots == old(openLots) + [lot]
      ensures lot.Value() == Ledger.NewLot(model, order, next, tradeId)
      ensures State() == Ledger.OpenLot(model, old(State()), order, next, tradeId)
    {
      hide AddFill, CommissionFor, Values;
      var fillPrice :=
        if order.direction.Long? then BuyFillPrice(next.open, model) else SellFillPrice(next.open, model);
      var commission := CommissionFor(order.size, model);
      cash := cash - commission;
      ChargeFill(order.size);
      lot := new OpenLot(Position(order.pair, order.direction, order.size, fillPrice, order.stopPrice),
                         tradeId, commission);
      openLots := openLots + [lot];
      tradeSwapAcc := tradeSwapAcc[tradeId := 0.0];
      assert Values(openLots) == old(Values(openLots)) + [lot.Value()];
    }

    /** Closes an open lot at the next bar's open and realizes its P&L into cash. */
    method CloseAtNextOpen(lot: OpenLot, next: Candle, ghost i: nat)
      returns (exitPrice: PositiveDecimal, commission: real, pnl: real)
      requires Valid() && Tradeable(model, next.open)
      requires i < |openLots| && openLots[i] == lot
      modifies this, costBreakdown
      ensures Valid() && openLots == old(openLots[..i] + openLots[i + 1..])
      ensures exitPrice == ExitPrice(lot.position.direction, next.open, model)
      ensures commission == CommissionFor(lot.position.size, model)
      ensures pnl == Ledger.MarkPosition(model, lot.position, next.open)
      ensures State() == Ledger.CloseLot(model, old(State()), i, next)
      ensures tradeSwapAcc == old(tradeSwapAcc)
    {
      hide AddFill, CommissionFor, Pnl, Values, Without;
      var size, entry := lot.position.size, lot.position.entryPrice;
      if lot.position.direction.Long? {
        exitPrice := SellFillPrice(next.open, model);
        pnl := Pnl(Long, size, entry, exitPrice);
      } else {
        exitPrice := BuyFillPrice(next.open, model);
        pnl := Pnl(Short, size, entry, exitPrice);
      }
      commission := CommissionFor(size, model);
      cash := cash + (pnl - commission);
      realizedPnlToday := realizedPnlToday + (pnl - commission);
      ChargeFill(size);
      WithoutRemovesOne(openLots, i);
      openLots := Without(openLots, lot);
      assert Values(openLots) == old(Values(openLots))[..i] + old(Values(openLots))[i + 1..];
    }

    /** Charges swap on every open lot if the gap between the two bars crosses a rollover. */
    method ApplySwapIfRollover(current: Candle, next: Candle) returns (totalSwap: real)
      requires Valid() && current.time <= next.time
      modifies this, openLots, costBreakdown
      ensures Valid() && openLots == old(openLots)
      ensures State() == Ledger.ApplySwap(model, rolloverHour, old(State()), current, next)
      ensures totalSwap == costBreakdown.swap - old(costBreakdown.swap)
    {
      hide Ledger.ChargeFirstLots, Values, Rollovers, GapMultiplier;
      if openLots == [] {
        return 0.0;
      }
      var crossed := RolloversBetween(current.time, next.time, rolloverHour);
      if crossed == 0 {
        return 0.0;
      }
      var multiplier := WeekendMultiplierIfApplicable(current.time, next.time, rolloverHour, model.weekendMultiplier);
      totalSwap := ChargeOpenLots(crossed, multiplier);
      costBreakdown.swap := costBreakdown.swap + totalSwap;
    }

    /** The swap loop: charges every open lot, leaving the cost totals to the caller. */
    method ChargeOpenLots(crossed: int, multiplier: int) returns (totalSwap: real)
      requires Valid()
      modifies this, openLots
      ensures Valid() && openLots == old(openLots)
      ensures var charged := Ledger.ChargeFirstLots(model, old(State()), |openLots|, crossed, multiplier);
              && State() == charged.(costs := old(costBreakdown.Totals()))
              && charged.costs == old(costBreakdown.Totals()).(swap := old(costBreakdown.swap) + totalSwap)
    {
      hide Ledger.ChargeLot, Values;
      totalSwap := 0.0;
      for i := 0 to |openLots|
        invariant Valid() && openLots == old(openLots)
        invariant var charged := Ledger.ChargeFirstLots(model, old(State()), i, crossed, multiplier);
                  && State() == charged.(costs := old(costBreakdown.Totals()))
                  && charged.costs == old(costBreakdown.Totals()).(swap := old(costBreakdown.swap) + totalSwap)
      {
        ghost var charged := Ledger.ChargeFirstLots(model, old(State()), i, crossed, multiplier);
        var charge := ChargeLot(i, crossed, multiplier);
        Ledger.ChargeLotIgnoresCosts(model, charged, old(costBreakdown.Totals()), i, crossed, multiplier);
        totalSwap := totalSwap + charge;
      }
    }

    /** One turn of the swap loop. */
    method ChargeLot(i: nat, crossed: int, multiplier: int) returns (charge: real)
      requires Valid() && i < |openLots|
      modifies this, openLots[i]
      ensures Valid() && openLots == old(openLots)
      ensures charge == Ledger.SwapCharge(model, openLots[i].position.direction, openLots[i].position.size, crossed,
                                          multiplier)
      ensures State()
           == Ledger.ChargeLot(model, old(State()), i, crossed, multiplier).(costs := old(costBreakdown.Totals()))
    {
      hide Ledger.SwapCharge, Values;
      var lot := openLots[i];
      charge := Ledger.SwapCharge(model, lot.position.direction, lot.position.size, crossed, multiplier);
      cash := cash + charge;
      lot.swapAccumulated := lot.swapAccumulated + charge;
      tradeSwapAcc := tradeSwapAcc[lot.tradeId := tradeSwapAcc[lot.tradeId] + charge];
      assert Values(openLots) == old(Values(openLots))[i := lot.Value()];
    }

    /** Hands over a trade's accumulated swap and forgets it. */
    method ConsumeSwapForTrade(tradeId: nat) returns (swap: real)
      requires Valid()
      requires forall i :: 0 <= i < |openLots| ==> openLots[i].tradeId != tradeId
      modifies this
      ensures Valid() && openLots == old(openLots)
      ensures swap == Ledger.SwapOfTrade(old(State()), tradeId)
      ensures State() == Ledger.ForgetSwap(old(State()), tradeId)
      ensures tradeSwapAcc.Keys == old(tradeSwapAcc.Keys) - {tradeId}
    {
      swap := if tradeId in tradeSwapAcc then tradeSwapAcc[tradeId] else 0.0;
      tradeSwapAcc := map id | id in tradeSwapAcc && id != tradeId :: tradeSwapAcc[id];
    }
  }
}
