/** The imperative run loop, proved to produce exactly the run of Engine.dfy. */
module BacktestEngine {
  import opened Models
  import opened RiskGate
  import opened Costs
  import opened Rollover
  import Ledger
  import opened BB = BacktestBroker
  import E = Engine
  import Metrics

  function LotIds(lots: seq<OpenLot>): seq<nat> {
    if lots == [] then [] else [lots[0].tradeId] + LotIds(lots[1..])
  }

  function OpposingLots(lots: seq<OpenLot>, order: Order): (opposing: seq<OpenLot>)
    ensures forall lot :: lot in opposing ==> lot in lots
  {
    if lots == [] then []
    else (if E.Opposes(lots[0].position, order) then [lots[0]] else []) + OpposingLots(lots[1..], order)
  }

  lemma {:induction false} LotIdsAreIds(lots: seq<OpenLot>)
    ensures LotIds(lots) == E.IdsOf(Values(lots))
  {
    if lots != [] {
      LotIdsAreIds(lots[1..]);
      assert Values(lots)[1..] == Values(lots[1..]);
    }
  }

  lemma {:induction false} OpposingLotIds(lots: seq<OpenLot>, order: Order)
    ensures LotIds(OpposingLots(lots, order)) == E.OpposingIds(Values(lots), order)
  {
    if lots != [] {
      OpposingLotIds(lots[1..], order);
      assert Values(lots)[1..] == Values(lots[1..]);
      var head := if E.Opposes(lots[0].position, order) then [lots[0]] else [];
      assert OpposingLots(lots, order) == head + OpposingLots(lots[1..], order);
      if head != [] {
        assert (head + OpposingLots(lots[1..], order))[1..] == OpposingLots(lots[1..], order);
      } else {
        assert head + OpposingLots(lots[1..], order) == OpposingLots(lots[1..], order);
      }
    }
  }

  predicate Distinct(lots: seq<OpenLot>) {
    forall j, k :: 0 <= j < k < |lots| ==> lots[j] != lots[k]
  }

  lemma {:induction false} OpposingLotsDistinct(lots: seq<OpenLot>, order: Order)
    requires Distinct(lots)
    ensures Distinct(OpposingLots(lots, order))
  {
    if lots != [] {
      var rest := OpposingLots(lots[1..], order);
      OpposingLotsDistinct(lots[1..], order);
      assert lots[0] !in lots[1..];
      assert forall k :: 0 <= k < |rest| ==> rest[k] in lots[1..];
      assert Distinct([lots[0]] + rest);
      assert OpposingLots(lots, order) == if E.Opposes(lots[0].position, order) then [lots[0]] + rest else rest;
    }
  }

  lemma {:induction false} LotIndexIs(lots: seq<Ledger.Lot>, i: nat)
    requires i < |lots|
    requires forall j, k :: 0 <= j < k < |lots| ==> lots[j].tradeId != lots[k].tradeId
    ensures E.LotIndex(lots, lots[i].tradeId) == i
  {
    var j := E.LotIndex(lots, lots[i].tradeId);
    assert j <= i;
  }

  /** Closing a trade is closing its lot, taking its swap and moving its live trade. */
  lemma CloseTradeInParts(model: CostModel, book: E.Book, i: nat, next: Candle)
    requires i < |book.broker.lots| && Tradeable(model, next.open)
    ensures var lot := book.broker.lots[i];
            var shut := Ledger.CloseLot(model, book.broker, i, next);
            var broker, k := Ledger.ForgetSwap(shut, lot.tradeId), E.LiveIndex(book.live, lot.tradeId);
            E.CloseTrade(model, book, i, next)
              == if k == |book.live| then book.(broker := broker)
                 else E.Book(broker, book.live[..k] + book.live[k + 1..],
                             book.closed + [E.TradeRecord(book.live[k], Ledger.SwapOfTrade(shut, lot.tradeId),
                                                          Some(ExitOf(model, lot.position, next)))])
  {
    hide Ledger.ForgetSwap, CommissionFor, Pnl, AddFill;
  }

  /** How a position leaves at the next bar's open. */
  function ExitOf(model: CostModel, position: Position, next: Candle): E.Exit
    requires Tradeable(model, next.open)
  {
    E.Exit(next.time, ExitPrice(position.direction, next.open, model), CommissionFor(position.size, model),
           Ledger.MarkPosition(model, position, next.open))
  }

  class BacktestEngine {
    const setup: E.Setup

    ghost predicate Valid() {
      E.WellFormedBars(setup.bars)
    }

    constructor (setup: E.Setup)
      requires E.WellFormedBars(setup.bars)
      ensures Valid() && this.setup == setup
    {
      this.setup := setup;
    }

    /** Builds an engine, or says why the bars cannot be run over. */
    static method Create(setup: E.Setup) returns (r: Result<BacktestEngine, string>)
      ensures r.Ok? <==> E.WellFormedBars(setup.bars)
      ensures r.Ok? ==> r.value.Valid() && r.value.setup == setup
    {
      var bars := setup.bars;
      if |bars| < 2 {
        return Err("backtest needs at least 2 bars");
      }
      for i := 1 to |bars|
        invariant forall j :: 0 <= j < i ==> bars[j].pair == bars[0].pair
        invariant forall j, k :: 0 <= j < k < i ==> bars[j].time <= bars[k].time
      {
        if bars[i].pair != bars[0].pair {
          return Err("all bars must be the same pair");
        }
        if bars[i].time < bars[i - 1].time {
          return Err("bars must be passed in ascending time order");
        }
      }
      var engine := new BacktestEngine(setup);
      return Ok(engine);
    }

    /** Closes one open lot: broker first, then the live trade, then the trade's swap. */
    method CloseOne(broker: BacktestBroker, lot: OpenLot, next: Candle,
                    live: seq<E.LiveTrade>, closed: seq<E.TradeRecord>)
      returns (live': seq<E.LiveTrade>, closed': seq<E.TradeRecord>)
      requires broker.Valid() && Tradeable(broker.model, next.open) && lot in broker.openLots
      modifies broker, broker.costBreakdown
      ensures broker.Valid()
      ensures forall other :: other in broker.openLots <==> other in old(broker.openLots) && other != lot
      ensures broker.tradeSwapAcc.Keys <= old(broker.tradeSwapAcc.Keys)
      ensures E.Book(broker.State(), live', closed')
           == E.CloseTrade(broker.model, E.Book(old(broker.State()), live, closed),
                           E.LotIndex(old(broker.State()).lots, lot.tradeId), next)
    {
      hide Values, Ledger.CloseLot, Ledger.ForgetSwap, Ledger.SwapOfTrade, Ledger.MarkPosition, Pnl, E.CloseTrade,
        E.LotIndex, E.LiveIndex;
      ghost var i :| 0 <= i < |broker.openLots| && broker.openLots[i] == lot;
      ghost var before := E.Book(broker.State(), live, closed);
      LotIndexIs(before.broker.lots, i);
      CloseTradeInParts(broker.model, before, i, next);
      var exitPrice, exitCommission, pnl := broker.CloseAtNextOpen(lot, next, i);
      var k := E.LiveIndex(live, lot.tradeId);
      var swap := broker.ConsumeSwapForTrade(lot.tradeId);
      if k == |live| {
        return live, closed;
      }
      live' := live[..k] + live[k + 1..];
      closed' := closed + [E.TradeRecord(live[k], swap, Some(E.Exit(next.time, exitPrice, exitCommission, pnl)))];
    }

    /** Closes the given open lots in order, moving their live trades to the log. */
    method CloseEach(broker: BacktestBroker, lots: seq<OpenLot>, next: Candle,
                     live: seq<E.LiveTrade>, closed: seq<E.TradeRecord>)
      returns (live': seq<E.LiveTrade>, closed': seq<E.TradeRecord>)
      requires broker.Valid() && Tradeable(broker.model, next.open)
      requires forall lot :: lot in lots ==> lot in broker.openLots
      requires Distinct(lots)
      modifies broker, broker.costBreakdown
      ensures broker.Valid() && forall lot :: lot in broker.openLots ==> lot in old(broker.openLots)
      ensures broker.tradeSwapAcc.Keys <= old(broker.tradeSwapAcc.Keys)
      ensures E.Book(broker.State(), live', closed')
           == E.CloseTrades(broker.model, E.Book(old(broker.State()), live, closed), LotIds(lots), next)
    {
      live', closed' := live, closed;
      for i := 0 to |lots|
        invariant broker.Valid() && forall lot :: lot in broker.openLots ==> lot in old(broker.openLots)
        invariant forall lot :: lot in lots[i..] ==> lot in broker.openLots
        invariant broker.tradeSwapAcc.Keys <= old(broker.tradeSwapAcc.Keys)
        invariant E.CloseTrades(broker.model, E.Book(broker.State(), live', closed'), LotIds(lots[i..]), next)
               == E.CloseTrades(broker.model, E.Book(old(broker.State()), live, closed), LotIds(lots), next)
      {
        hide Values, E.CloseTrade;
        assert lots[i..][0] == lots[i] && lots[i..][1..] == lots[i + 1..];
        LotIsIndexed(broker, lots[i]);
        live', closed' := CloseOne(broker, lots[i], next, live', closed');
      }
    }

    lemma LotIsIndexed(broker: BacktestBroker, lot: OpenLot)
      requires broker.Valid() && lot in broker.openLots
      ensures E.LotIndex(broker.State().lots, lot.tradeId) < |broker.State().lots|
    {
      var i :| 0 <= i < |broker.openLots| && broker.openLots[i] == lot;
      LotIndexIs(broker.State().lots, i);
    }

    /** Closes every open lot. */
    method FlattenAll(broker: BacktestBroker, next: Candle, live: seq<E.LiveTrade>, closed: seq<E.TradeRecord>)
      returns (live': seq<E.LiveTrade>, closed': seq<E.TradeRecord>)
      requires broker.Valid() && Tradeable(broker.model, next.open)
      modifies broker, broker.costBreakdown
      ensures broker.Valid()
      ensures forall i :: 0 <= i < |broker.openLots| ==> broker.openLots[i] in old(broker.openLots)
      ensures E.Book(broker.State(), live', closed')
           == E.FlattenAll(broker.model, E.Book(old(broker.State()), live, closed), next)
    {
      LotIdsAreIds(broker.openLots);
      live', closed' := CloseEach(broker, broker.openLots, next, live, closed);
    }

    /** Steps 7 to 9: closes the other side, then opens unless the broker still holds this side. */
    method Execute(broker: BacktestBroker, sized: Order, current: Candle, next: Candle, account: Account, tradeSeq: nat,
                   live: seq<E.LiveTrade>, closed: seq<E.TradeRecord>, ghost turn: E.Turn)
      returns (account': Account, tradeSeq': nat, live': seq<E.LiveTrade>, closed': seq<E.TradeRecord>)
      requires broker.Valid() && Tradeable(broker.model, next.open)
      requires forall id :: id in broker.tradeSwapAcc ==> id < tradeSeq
      requires E.Book(broker.State(), live, closed) == turn.book && account == turn.account && tradeSeq == turn.nextId
      modifies broker, broker.costBreakdown
      ensures broker.Valid()
      ensures forall i :: 0 <= i < |broker.openLots| ==>
           broker.openLots[i] in old(broker.openLots) || fresh(broker.openLots[i])
      ensures forall id :: id in broker.tradeSwapAcc ==> id < tradeSeq'
      ensures E.Execute(broker.model, turn, sized, current, next)
           == turn.(book := E.Book(broker.State(), live', closed'), account := account', nextId := tradeSeq')
    {
      hide Values, OpposingLots, LotIds, E.OpenTrade, E.CloseTrades, E.Opposes, E.OpposingIds, E.HoldsSameSide,
        Ledger.Unrealized;
      account', tradeSeq' := account, tradeSeq;
      OpposingLotIds(broker.openLots, sized);
      OpposingLotsDistinct(broker.openLots, sized);
      live', closed' := CloseEach(broker, OpposingLots(broker.openLots, sized), next, live, closed);
      var held := HoldsSameSide(broker, sized);
      if held {
        return;
      }
      live' := OpenTrade(broker, sized, next, tradeSeq, live', closed');
      tradeSeq' := tradeSeq + 1;
      account' := broker.Snapshot(current.time);
    }

    /** Opens a lot at the next bar's open and starts its live trade. */
    method OpenTrade(broker: BacktestBroker, sized: Order, next: Candle, tradeSeq: nat,
                     live: seq<E.LiveTrade>, ghost closed: seq<E.TradeRecord>)
      returns (live': seq<E.LiveTrade>)
      requires broker.Valid() && Tradeable(broker.model, next.open)
      requires tradeSeq !in broker.tradeSwapAcc
      modifies broker, broker.costBreakdown
      ensures broker.Valid()
      ensures forall i :: 0 <= i < |broker.openLots| ==>
           broker.openLots[i] in old(broker.openLots) || fresh(broker.openLots[i])
      ensures broker.tradeSwapAcc.Keys == old(broker.tradeSwapAcc.Keys) + {tradeSeq}
      ensures E.Book(broker.State(), live', closed)
           == E.OpenTrade(broker.model, E.Book(old(broker.State()), live, closed), sized, next, tradeSeq)
    {
      hide Values;
      var lot := broker.OpenAtNextOpen(sized, next, tradeSeq);
      assert broker.State().swapAcc.Keys == old(broker.State()).swapAcc.Keys + {tradeSeq};
      live' := live + [E.LiveTrade(tradeSeq, lot.position.pair, lot.position.direction, lot.position.size,
                                   next.time, lot.position.entryPrice, lot.entryCommission)];
    }

    method HoldsSameSide(broker: BacktestBroker, order: Order) returns (held: bool)
      requires broker.Valid()
      ensures held <==> E.HoldsSameSide(broker.State().lots, order)
    {
      for i := 0 to |broker.openLots|
        invariant forall j :: 0 <= j < i ==>
                    !(broker.openLots[j].position.pair == order.pair
                      && broker.openLots[j].position.direction == order.direction)
      {
        var position := broker.openLots[i].position;
        if position.pair == order.pair && position.direction == order.direction {
          assert broker.State().lots[i].position == position;
          return true;
        }
      }
      return false;
    }

    /** The loop over one bar's signals: gate each, execute the accepted ones, stop on a trip. */
    method TakeSignals(broker: BacktestBroker, riskManager: RiskManager, signals: seq<Order>,
                       current: Candle, next: Candle, account0: Account, tradeSeq0: nat, accepted0: nat, rejected0: nat,
                       live0: seq<E.LiveTrade>, closed0: seq<E.TradeRecord>, ghost start: E.Turn)
      returns (tradeSeq: nat, accepted: nat, rejected: nat, tripped: bool,
               live: seq<E.LiveTrade>, closed: seq<E.TradeRecord>, ghost after: E.Turn)
      requires Valid() && broker.Valid() && Tradeable(broker.model, next.open)
      requires riskManager.config == setup.risk && broker.model == setup.model
      requires forall id :: id in broker.tradeSwapAcc ==> id < tradeSeq0
      requires start == E.Turn(E.Book(broker.State(), live0, closed0), riskManager.killSwitch, account0,
                               tradeSeq0, accepted0, rejected0, false)
      modifies broker, broker.costBreakdown, riskManager
      ensures broker.Valid()
      ensures forall i :: 0 <= i < |broker.openLots| ==>
           broker.openLots[i] in old(broker.openLots) || fresh(broker.openLots[i])
      ensures forall id :: id in broker.tradeSwapAcc ==> id < tradeSeq
      ensures after == E.TakeSignals(setup, start, signals, |signals|, current, next)
      ensures after == E.Turn(E.Book(broker.State(), live, closed), riskManager.killSwitch, after.account,
                              tradeSeq, accepted, rejected, tripped)
    {
      hide Values, E.Execute, Gate;
      var account := account0;
      tradeSeq, accepted, rejected, live, closed := tradeSeq0, accepted0, rejected0, live0, closed0;
      tripped := false;
      after := start;
      var i := 0;
      while i < |signals| && !tripped
        invariant 0 <= i <= |signals|
        invariant broker.Valid()
        invariant forall i :: 0 <= i < |broker.openLots| ==>
               broker.openLots[i] in old(broker.openLots) || fresh(broker.openLots[i])
        invariant forall id :: id in broker.tradeSwapAcc ==> id < tradeSeq
        invariant after == E.TakeSignals(setup, start, signals, i, current, next)
        invariant after == E.Turn(E.Book(broker.State(), live, closed), riskManager.killSwitch, account,
                                  tradeSeq, accepted, rejected, tripped)
        decreases |signals| - i
      {
        var signal := signals[i];
        i := i + 1;
        after := E.TakeSignal(setup, after, signal, current, next);
        if signal.pair != setup.Pair() {
          rejected := rejected + 1;
        } else {
          var decision := riskManager.Evaluate(signal, account);
          if !decision.Accepted() || decision.sizedOrder.None? {
            rejected := rejected + 1;
            tripped := KillSwitchEngaged in decision.rejectedBy;
          } else {
            accepted := accepted + 1;
            ghost var turn := E.Turn(E.Book(broker.State(), live, closed), riskManager.killSwitch, account,
                                     tradeSeq, accepted, rejected, false);
            account, tradeSeq, live, closed :=
              Execute(broker, decision.sizedOrder.value, current, next, account, tradeSeq, live, closed, turn);
          }
        }
      }
      TakeSignalsStop(start, signals, i, |signals|, current, next);
    }

    /** Signals after a trip change nothing. */
    lemma {:induction false} TakeSignalsStop(start: E.Turn, signals: seq<Order>, i: nat, n: nat, current: Candle,
                                             next: Candle)
      requires setup.bars != [] && i <= n <= |signals|
      requires Tradeable(setup.model, next.open) && Ledger.MarksTradeable(setup.model, start.book.broker.marks)
      requires i == n || E.TakeSignals(setup, start, signals, i, current, next).tripped
      ensures E.TakeSignals(setup, start, signals, n, current, next)
           == E.TakeSignals(setup, start, signals, i, current, next)
    {
      hide E.TakeSignal;
      if i < n {
        TakeSignalsStop(start, signals, i, n - 1, current, next);
      }
    }

    /** Steps 1 to 4 of a bar. */
    method BeginBar(broker: BacktestBroker, riskManager: RiskManager, t: nat, bar: Candle, curve: seq<E.EquityPoint>,
                    ghost st: E.RunState)
      returns (account: Account, curve': seq<E.EquityPoint>)
      requires broker.Valid() && Tradeable(broker.model, bar.close)
      requires riskManager.config == setup.risk && broker.model == setup.model && broker.rolloverHour == setup.hour
      requires st.book.broker == broker.State() && st.ks == riskManager.killSwitch && st.curve == curve
      modifies broker, riskManager
      ensures broker.Valid() && broker.openLots == old(broker.openLots)
           && broker.tradeSwapAcc == old(broker.tradeSwapAcc)
      ensures account == E.AccountAtBar(setup, st, bar)
      ensures E.BeginBar(setup, t, st, bar)
           == st.(book := st.book.(broker := broker.State()), ks := riskManager.killSwitch, curve := curve')
    {
      hide Values, Ledger.Unrealized, Account.DrawdownPct, Account.DailyLossPct, BarDay;
      broker.MaybeRollDay(bar);
      broker.MarkToMarket(bar);
      account := broker.Snapshot(bar.time);
      if account.DrawdownPct() >= setup.risk.maxDrawdown && !riskManager.killSwitch.Engaged? {
        riskManager.Trip(BreachedDrawdown(account.DrawdownPct(), setup.risk.maxDrawdown), "drawdown", bar.time);
      }
      if account.DailyLossPct() >= setup.risk.dailyLossLimit && !riskManager.killSwitch.Engaged? {
        riskManager.Trip(BreachedDailyLoss(account.DailyLossPct(), setup.risk.dailyLossLimit), "daily_loss", bar.time);
      }
      curve' := curve + [E.EquityPoint(t, bar.time, broker.cash, account.equity, account.DrawdownPct(),
                                       |broker.openLots|)];
    }

    /** The final mark, the final equity sample and the records of the trades still open. */
    method Finish(broker: BacktestBroker, curve: seq<E.EquityPoint>, live: seq<E.LiveTrade>, closed: seq<E.TradeRecord>,
                  proposed: nat, accepted: nat, rejected: nat, halt: Option<E.Halt>, ghost st: E.RunState)
      returns (r: E.RunResult)
      requires E.ValidSetup(setup) && broker.Valid() && broker.model == setup.model
      requires st.book == E.Book(broker.State(), live, closed) && st.curve == curve
      requires st.proposed == proposed && st.accepted == accepted && st.rejected == rejected && st.halt == halt
      requires 0 <= E.LastBar(setup, st) < |setup.bars|
      modifies broker
      ensures r == E.Finish(setup, st)
    {
      hide Values, Ledger.Unrealized, Account.DrawdownPct, Metrics.RunMetricsOf, E.MaxDrawdownPct, E.ClosedPnls;
      var last := if halt.Some? then halt.value.at else |setup.bars| - 1;
      var bar := setup.bars[last];
      broker.MarkToMarket(bar);
      var account := broker.Snapshot(bar.time);
      var curve' := curve + [E.EquityPoint(last, bar.time, broker.cash, account.equity, account.DrawdownPct(),
                                           |broker.openLots|)];
      var tradeLog := closed;
      for i := 0 to |live|
        invariant tradeLog == closed + E.StillOpen(broker.State(), live, i)
      {
        var swap := if live[i].tradeId in broker.tradeSwapAcc then broker.tradeSwapAcc[live[i].tradeId] else 0.0;
        tradeLog := tradeLog + [E.TradeRecord(live[i], swap, None)];
      }
      var maxDrawdownPct := MaxDrawdownPct(curve');
      var metrics := ReportMetrics(curve', tradeLog);
      r := E.RunResult(last + 1, broker.cash, account.equity, account.peak, maxDrawdownPct,
                       proposed, accepted, rejected, halt,
                       broker.costBreakdown.Totals(), curve', tradeLog, metrics);
    }

    method MaxDrawdownPct(curve: seq<E.EquityPoint>) returns (maxDd: real)
      ensures maxDd == E.MaxDrawdownPct(curve)
    {
      maxDd := 0.0;
      for i := 0 to |curve|
        invariant maxDd == E.MaxDrawdownPct(curve[..i])
      {
        assert curve[..i + 1][..i] == curve[..i];
        maxDd := if i == 0 then curve[0].drawdownPct else Max(maxDd, curve[i].drawdownPct);
      }
      assert curve[..|curve|] == curve;
    }

    /** The metric pack, from the equity samples and the P&L of the closed trades. */
    method ReportMetrics(curve: seq<E.EquityPoint>, tradeLog: seq<E.TradeRecord>) returns (metrics: Metrics.RunMetrics)
      ensures metrics == Metrics.RunMetricsOf(E.Equities(curve), E.ClosedPnls(tradeLog))
    {
      var pnls: seq<real> := [];
      for i := 0 to |tradeLog|
        invariant pnls == E.ClosedPnls(tradeLog[..i])
      {
        assert tradeLog[..i + 1][..i] == tradeLog[..i];
        if tradeLog[i].exit.Some? {
          pnls := pnls + [tradeLog[i].exit.value.realizedPnl];
        }
      }
      assert tradeLog[..|tradeLog|] == tradeLog;
      metrics := Metrics.ComputeMetrics(E.Equities(curve), pnls);
    }

    /** Steps 6 to 10 of a bar: ask the strategy, work through its signals, charge swap; or halt. */
    method TradeBar(broker: BacktestBroker, riskManager: RiskManager, t: nat, account: Account, ghost st: E.RunState,
                    calls0: seq<E.StrategyCall>, tradeSeq0: nat, proposed0: nat, accepted0: nat, rejected0: nat,
                    live0: seq<E.LiveTrade>, closed0: seq<E.TradeRecord>)
      returns (calls: seq<E.StrategyCall>, tradeSeq: nat, proposed: nat, accepted: nat, rejected: nat,
               live: seq<E.LiveTrade>, closed: seq<E.TradeRecord>, halt: Option<E.Halt>)
      requires Valid() && E.ValidSetup(setup) && broker.Valid() && t < |setup.bars| - 1
      requires riskManager.config == setup.risk && broker.model == setup.model && broker.rolloverHour == setup.hour
      requires forall id :: id in broker.tradeSwapAcc ==> id < tradeSeq0
      requires st == E.RunState(E.Book(broker.State(), live0, closed0), riskManager.killSwitch, calls0, st.curve,
                                tradeSeq0, proposed0, accepted0, rejected0, None)
      modifies broker, broker.openLots, broker.costBreakdown, riskManager
      ensures broker.Valid()
      ensures forall i :: 0 <= i < |broker.openLots| ==>
           broker.openLots[i] in old(broker.openLots) || fresh(broker.openLots[i])
      ensures halt.None? ==> forall id :: id in broker.tradeSwapAcc ==> id < tradeSeq
      ensures E.Trade(setup, t, st, account, setup.bars[t], setup.bars[t + 1])
           == E.RunState(E.Book(broker.State(), live, closed), riskManager.killSwitch, calls, st.curve,
                         tradeSeq, proposed, accepted, rejected, halt)
    {
      hide Values, E.TakeSignals, E.FlattenAll, Ledger.ApplySwap;
      var current, next := setup.bars[t], setup.bars[t + 1];
      tradeSeq, proposed, accepted, rejected, live, closed :=
          tradeSeq0, proposed0, accepted0, rejected0, live0, closed0;
      halt := None;
      calls := calls0 + [E.StrategyCall(setup.bars[..t + 1], account, current.time)];
      var answer := setup.strategy(calls);
      if answer.None? {
        halt := Some(E.Halt(t, E.StrategyRaised));
        live, closed := FlattenAll(broker, next, live, closed);
        return;
      }
      proposed := proposed + |answer.value|;
      var tripped;
      ghost var turn;
      tradeSeq, accepted, rejected, tripped, live, closed, turn :=
        TakeSignals(broker, riskManager, answer.value, current, next, account, tradeSeq, accepted, rejected,
                    live, closed, E.StartTurn(st, account));
      if tripped {
        halt := Some(E.Halt(t, E.TrippedInEvaluate));
        live, closed := FlattenAll(broker, next, live, closed);
        return;
      }
      var _ := SwapBar(broker, current, next);
    }

    /** Step 10; the swap accumulators keep their trade ids. */
    method SwapBar(broker: BacktestBroker, current: Candle, next: Candle) returns (total: real)
      requires broker.Valid() && current.time <= next.time
      modifies broker, broker.openLots, broker.costBreakdown
      ensures broker.Valid() && broker.openLots == old(broker.openLots)
      ensures broker.tradeSwapAcc.Keys == old(broker.tradeSwapAcc.Keys)
      ensures broker.State() == Ledger.ApplySwap(broker.model, broker.rolloverHour, old(broker.State()), current, next)
    {
      hide Values;
      Ledger.ApplySwapKeepsTrades(broker.model, broker.rolloverHour, broker.State(), current, next);
      hide Ledger.ApplySwap;
      total := broker.ApplySwapIfRollover(current, next);
    }

    /** One turn of the bar loop. */
    method RunBar(broker: BacktestBroker, riskManager: RiskManager, t: nat, ghost st: E.RunState,
                  calls0: seq<E.StrategyCall>, curve0: seq<E.EquityPoint>,
                  tradeSeq0: nat, proposed0: nat, accepted0: nat, rejected0: nat,
                  live0: seq<E.LiveTrade>, closed0: seq<E.TradeRecord>)
      returns (calls: seq<E.StrategyCall>, curve: seq<E.EquityPoint>,
               tradeSeq: nat, proposed: nat, accepted: nat, rejected: nat,
               live: seq<E.LiveTrade>, closed: seq<E.TradeRecord>, halt: Option<E.Halt>)
      requires Valid() && E.ValidSetup(setup) && broker.Valid() && t < |setup.bars| - 1
      requires riskManager.config == setup.risk && broker.model == setup.model && broker.rolloverHour == setup.hour
      requires forall id :: id in broker.tradeSwapAcc ==> id < tradeSeq0
      requires st == E.RunState(E.Book(broker.State(), live0, closed0), riskManager.killSwitch, calls0, curve0,
                                tradeSeq0, proposed0, accepted0, rejected0, None)
      modifies broker, broker.openLots, broker.costBreakdown, riskManager
      ensures broker.Valid()
      ensures forall i :: 0 <= i < |broker.openLots| ==>
           broker.openLots[i] in old(broker.openLots) || fresh(broker.openLots[i])
      ensures halt.None? ==> forall id :: id in broker.tradeSwapAcc ==> id < tradeSeq
      ensures E.Step(setup, t, st)
           == E.RunState(E.Book(broker.State(), live, closed), riskManager.killSwitch, calls, curve,
                         tradeSeq, proposed, accepted, rejected, halt)
    {
      hide Values, E.BeginBar, E.AccountAtBar, E.Trade, E.FlattenAll;
      calls, tradeSeq, proposed, accepted, rejected, live, closed :=
        calls0, tradeSeq0, proposed0, accepted0, rejected0, live0, closed0;
      var account;
      account, curve := BeginBar(broker, riskManager, t, setup.bars[t], curve0, st);
      if riskManager.killSwitch.Engaged? {
        halt := Some(E.Halt(t, E.TrippedAtBar(riskManager.killSwitch.trippedBy)));
        live, closed := FlattenAll(broker, setup.bars[t + 1], live, closed);
      } else {
        calls, tradeSeq, proposed, accepted, rejected, live, closed, halt :=
          TradeBar(broker, riskManager, t, account, E.BeginBar(setup, t, st, setup.bars[t]),
                   calls, tradeSeq, proposed, accepted, rejected, live, closed);
      }
    }

    /** Runs the strategy over the bars. */
    method Run() returns (r: E.RunResult)
      requires Valid() && E.ValidSetup(setup)
      ensures r == E.Run(setup)
    {
      hide Values, E.Step, E.Finish, Tradeable, Ledger.MarksTradeable;
      var n := |setup.bars|;
      var broker := new BacktestBroker(setup.startingBalance, setup.model, setup.hour);
      var riskManager := new RiskManager(setup.risk);
      var calls: seq<E.StrategyCall> := [];
      var curve: seq<E.EquityPoint> := [];
      var live: seq<E.LiveTrade> := [];
      var closed: seq<E.TradeRecord> := [];
      var proposed: nat, accepted: nat, rejected: nat, tradeSeq: nat := 0, 0, 0, 0;
      var halt: Option<E.Halt> := None;

      var t := 0;
      while t < n - 1 && halt.None?
        invariant 0 <= t <= n - 1
        invariant broker.Valid() && fresh(broker) && fresh(broker.costBreakdown) && fresh(riskManager)
        invariant forall i :: 0 <= i < |broker.openLots| ==> fresh(broker.openLots[i])
        invariant riskManager.config == setup.risk && broker.model == setup.model && broker.rolloverHour == setup.hour
        invariant halt.None? ==> forall id :: id in broker.tradeSwapAcc ==> id < tradeSeq
        invariant E.Iterate(setup, t)
               == E.RunState(E.Book(broker.State(), live, closed), riskManager.killSwitch, calls, curve,
                                                    tradeSeq, proposed, accepted, rejected, halt)
        decreases n - t
      {
        calls, curve, tradeSeq, proposed, accepted, rejected, live, closed, halt :=
          RunBar(broker, riskManager, t, E.Iterate(setup, t), calls, curve, tradeSeq, proposed, accepted, rejected,
                 live, closed);
        t := t + 1;
      }
      HaltedStays(t, n - 1);
      r := Finish(broker, curve, live, closed, proposed, accepted, rejected, halt, E.Iterate(setup, n - 1));
    }

    lemma {:induction false} HaltedStays(t: nat, u: nat)
      requires E.ValidSetup(setup) && t <= u < |setup.bars|
      requires t == u || E.Iterate(setup, t).halt.Some?
      ensures E.Iterate(setup, u) == E.Iterate(setup, t)
    {
      hide E.Step;
      if t < u {
        HaltedStays(t, u - 1);
      }
    }
  }
}
