/**
 One backtest run as a fold over the bars: what each bar does to the broker, the
 latch, the trade books and the equity curve, and what the run reports at the end.
 */
module Engine {
  import opened Models
  import opened RiskGate
  import opened Costs
  import opened Rollover
  import opened Ledger
  import Metrics

  // ------------------------------------------------------------------ setup

  datatype StrategyCall = StrategyCall(view: seq<Candle>, account: Account, asOf: int)

  /**
   A deterministic strategy with whatever internal state it likes: its answer is a function of
   every call it has received so far. No answer means that it raised.
   */
  type Strategy = seq<StrategyCall> -> Option<seq<Order>>

  datatype Setup = Setup(bars: seq<Candle>, strategy: Strategy, risk: RiskConfig, model: CostModel,
                         startingBalance: PositiveDecimal, hour: Hour) {
    function Pair(): string
      requires bars != []
    {
      bars[0].pair
    }
  }

  /** What the engine's constructor accepts: at least two bars of one pair, in time order. */
  predicate WellFormedBars(bars: seq<Candle>) {
    && |bars| >= 2
    && (forall i :: 0 <= i < |bars| ==> bars[i].pair == bars[0].pair)
    && (forall i, j :: 0 <= i < j < |bars| ==> bars[i].time <= bars[j].time)
  }

  /** The run additionally needs every price it fills or marks at to be wider than the friction. */
  predicate ValidSetup(setup: Setup) {
    && WellFormedBars(setup.bars)
    && forall i :: 0 <= i < |setup.bars| ==>
         Tradeable(setup.model, setup.bars[i].open) && Tradeable(setup.model, setup.bars[i].close)
  }

  // ------------------------------------------------------------ trade books

  datatype LiveTrade = LiveTrade(tradeId: nat, pair: string, direction: Direction, size: PositiveDecimal,
                                 entryTime: int, entryPrice: PositiveDecimal, entryCommission: real)

  datatype Exit = Exit(time: int, price: PositiveDecimal, commission: real, realizedPnl: real)

  /** A trade over its whole life; no exit means it was still open when the run ended. */
  datatype TradeRecord = TradeRecord(trade: LiveTrade, swapPaid: real, exit: Option<Exit>)

  /** The broker together with the engine's live trades, in opening order, and its closed-trade log. */
  datatype Book = Book(broker: Broker, live: seq<LiveTrade>, closed: seq<TradeRecord>)

  /** Position of the first lot with the id, or the number of lots when there is none. */
  function LotIndex(lots: seq<Lot>, tradeId: nat): (i: nat)
    ensures i <= |lots|
    ensures i < |lots| ==> lots[i].tradeId == tradeId
    ensures forall j :: 0 <= j < i ==> lots[j].tradeId != tradeId
  {
    if lots == [] || lots[0].tradeId == tradeId then 0 else 1 + LotIndex(lots[1..], tradeId)
  }

  function LiveIndex(live: seq<LiveTrade>, tradeId: nat): (i: nat)
    ensures i <= |live|
    ensures i < |live| ==> live[i].tradeId == tradeId
    ensures forall j :: 0 <= j < i ==> live[j].tradeId != tradeId
  {
    if live == [] || live[0].tradeId == tradeId then 0 else 1 + LiveIndex(live[1..], tradeId)
  }

  function ExitAt(model: CostModel, direction: Direction, size: PositiveDecimal, entryPrice: PositiveDecimal,
                  next: Candle): Exit
    requires Tradeable(model, next.open)
  {
    var price := ExitPrice(direction, next.open, model);
    Exit(next.time, price, CommissionFor(size, model), Pnl(direction, size, entryPrice, price))
  }

  /** Closes one lot and moves its live trade, if it has one, to the log with the swap it accumulated. */
  function CloseTrade(model: CostModel, book: Book, i: nat, next: Candle): (closed: Book)
    requires i < |book.broker.lots| && Tradeable(model, next.open)
    ensures SameClock(closed.broker, book.broker)
  {
    var lot := book.broker.lots[i];
    var swap := SwapOfTrade(book.broker, lot.tradeId);
    var broker := ForgetSwap(CloseLot(model, book.broker, i, next), lot.tradeId);
    var k := LiveIndex(book.live, lot.tradeId);
    if k == |book.live| then book.(broker := broker)
    else Book(broker, book.live[..k] + book.live[k + 1..],
              book.closed + [TradeRecord(book.live[k], swap,
                                         Some(ExitAt(model, lot.position.direction, lot.position.size,
                                                     lot.position.entryPrice, next)))])
  }

  /** Closes the lots with the given ids, one after another. */
  function CloseTrades(model: CostModel, book: Book, ids: seq<nat>, next: Candle): (closed: Book)
    requires Tradeable(model, next.open)
    ensures SameClock(closed.broker, book.broker)
    decreases |ids|
  {
    if ids == [] then book
    else
      var i := LotIndex(book.broker.lots, ids[0]);
      CloseTrades(model, if i < |book.broker.lots| then CloseTrade(model, book, i, next) else book, ids[1..], next)
  }

  function IdsOf(lots: seq<Lot>): seq<nat> {
    if lots == [] then [] else [lots[0].tradeId] + IdsOf(lots[1..])
  }

  predicate Opposes(position: Position, order: Order) {
    position.pair == order.pair && position.direction != order.direction
  }

  function OpposingIds(lots: seq<Lot>, order: Order): seq<nat> {
    if lots == [] then []
    else (if Opposes(lots[0].position, order) then [lots[0].tradeId] else []) + OpposingIds(lots[1..], order)
  }

  predicate HoldsSameSide(lots: seq<Lot>, order: Order) {
    exists i :: 0 <= i < |lots| && lots[i].position.pair == order.pair && lots[i].position.direction == order.direction
  }

  function FlattenAll(model: CostModel, book: Book, next: Candle): (flat: Book)
    requires Tradeable(model, next.open)
    ensures SameClock(flat.broker, book.broker)
  {
    CloseTrades(model, book, IdsOf(book.broker.lots), next)
  }

  function OpenTrade(model: CostModel, book: Book, order: Order, next: Candle, tradeId: nat): (after: Book)
    requires Tradeable(model, next.open)
    ensures SameClock(after.broker, book.broker)
  {
    var lot := NewLot(model, order, next, tradeId);
    book.(broker := OpenLot(model, book.broker, order, next, tradeId),
          live := book.live + [LiveTrade(tradeId, order.pair, order.direction, order.size,
                                         next.time, lot.position.entryPrice, lot.entryCommission)])
  }

  // -------------------------------------------------------------- one signal

  /** What the loop over one bar's signals changes. */
  datatype Turn = Turn(book: Book, ks: KillSwitch, account: Account, nextId: nat,
                       accepted: nat, rejected: nat, tripped: bool)

  /** Executes an accepted order: close the other side, then open unless this side is already held. */
  function Execute(model: CostModel, turn: Turn, sized: Order, current: Candle, next: Candle): (after: Turn)
    requires Tradeable(model, next.open) && MarksTradeable(model, turn.book.broker.marks)
    ensures SameClock(after.book.broker, turn.book.broker)
  {
    var book := CloseTrades(model, turn.book, OpposingIds(turn.book.broker.lots, sized), next);
    if HoldsSameSide(book.broker.lots, sized) then turn.(book := book)
    else
      var grown := OpenTrade(model, book, sized, next, turn.nextId);
      turn.(book := grown, nextId := turn.nextId + 1, account := Snapshot(model, grown.broker, current.time))
  }

  ghost function TakeSignal(setup: Setup, turn: Turn, signal: Order, current: Candle, next: Candle): (after: Turn)
    requires setup.bars != []
    requires Tradeable(setup.model, next.open) && MarksTradeable(setup.model, turn.book.broker.marks)
    ensures SameClock(after.book.broker, turn.book.broker)
  {
    if signal.pair != setup.Pair() then turn.(rejected := turn.rejected + 1)
    else
      var (decision, ks) := Gate(setup.risk, turn.ks, signal, turn.account);
      if !decision.Accepted() || decision.sizedOrder.None? then
        turn.(ks := ks, rejected := turn.rejected + 1, tripped := KillSwitchEngaged in decision.rejectedBy)
      else
        Execute(setup.model, turn.(ks := ks, accepted := turn.accepted + 1), decision.sizedOrder.value, current, next)
  }

  /** The turn after the first n signals; a trip during evaluation stops the loop. */
  ghost function TakeSignals(setup: Setup, turn: Turn, signals: seq<Order>, n: nat, current: Candle,
                             next: Candle): (after: Turn)
    requires setup.bars != [] && n <= |signals|
    requires Tradeable(setup.model, next.open) && MarksTradeable(setup.model, turn.book.broker.marks)
    ensures SameClock(after.book.broker, turn.book.broker)
  {
    if n == 0 then turn
    else
      var before := TakeSignals(setup, turn, signals, n - 1, current, next);
      if before.tripped then before else TakeSignal(setup, before, signals[n - 1], current, next)
  }

  // ----------------------------------------------------------------- one bar

  datatype EquityPoint = EquityPoint(barIndex: nat, time: int, balance: real, equity: real,
                                     drawdownPct: real, openPositions: nat)

  datatype HaltCause = TrippedAtBar(trippedBy: string) | StrategyRaised | TrippedInEvaluate

  datatype Halt = Halt(at: nat, cause: HaltCause)

  datatype RunState = RunState(book: Book, ks: KillSwitch, calls: seq<StrategyCall>, curve: seq<EquityPoint>,
                               nextId: nat, proposed: nat, accepted: nat, rejected: nat, halt: Option<Halt>)

  function InitialState(setup: Setup): RunState {
    RunState(Book(NewBroker(setup.startingBalance), [], []), Released, [], [], 0, 0, 0, 0, None)
  }

  /** The broker after a bar's day roll and mark. */
  function MarkedBroker(setup: Setup, b: Broker, bar: Candle): Broker
    requires MarksTradeable(setup.model, b.marks) && Tradeable(setup.model, bar.close)
  {
    MarkToMarket(setup.model, RollDay(setup.model, setup.hour, b, bar), bar)
  }

  /** The account as the bar finds it: what the breach checks, the equity sample and the strategy see. */
  function AccountAtBar(setup: Setup, st: RunState, bar: Candle): Account
    requires MarksTradeable(setup.model, st.book.broker.marks) && Tradeable(setup.model, bar.close)
  {
    Snapshot(setup.model, MarkedBroker(setup, st.book.broker, bar), bar.time)
  }

  function CheckBreaches(risk: RiskConfig, ks: KillSwitch, account: Account): KillSwitch {
    var ks1 := if account.DrawdownPct() >= risk.maxDrawdown
               then Tripped(ks, BreachedDrawdown(account.DrawdownPct(), risk.maxDrawdown), "drawdown", account.asOf)
                   else ks;
    if account.DailyLossPct() >= risk.dailyLossLimit
    then Tripped(ks1, BreachedDailyLoss(account.DailyLossPct(), risk.dailyLossLimit), "daily_loss", account.asOf)
        else ks1
  }

  function Sample(t: nat, account: Account): EquityPoint {
    EquityPoint(t, account.asOf, account.balance, account.equity, account.DrawdownPct(), |account.positions|)
  }

  /** Steps 1 to 4 of a bar: day roll, mark, breach checks, equity sample. */
  function BeginBar(setup: Setup, t: nat, st: RunState, bar: Candle): (begun: RunState)
    requires MarksTradeable(setup.model, st.book.broker.marks) && Tradeable(setup.model, bar.close)
    ensures MarksTradeable(setup.model, begun.book.broker.marks) && begun.halt == st.halt
  {
    var account := AccountAtBar(setup, st, bar);
    st.(book := st.book.(broker := MarkedBroker(setup, st.book.broker, bar)),
        ks := CheckBreaches(setup.risk, st.ks, account),
        curve := st.curve + [Sample(t, account)])
  }

  function HaltWith(model: CostModel, st: RunState, halt: Halt, next: Candle): (after: RunState)
    requires Tradeable(model, next.open)
    ensures SameClock(after.book.broker, st.book.broker) && after.halt == Some(halt)
  {
    st.(book := FlattenAll(model, st.book, next), halt := Some(halt))
  }

  function StartTurn(st: RunState, account: Account): Turn {
    Turn(st.book, st.ks, account, st.nextId, st.accepted, st.rejected, false)
  }

  function EndTurn(st: RunState, turn: Turn): RunState {
    st.(book := turn.book, ks := turn.ks, nextId := turn.nextId, accepted := turn.accepted, rejected := turn.rejected)
  }

  /** Steps 6 to 10 for a bar that did not breach. */
  ghost function Trade(setup: Setup, t: nat, st: RunState, account: Account, current: Candle,
                       next: Candle): (after: RunState)
    requires setup.bars != [] && t < |setup.bars| && current.time <= next.time
    requires Tradeable(setup.model, next.open) && MarksTradeable(setup.model, st.book.broker.marks) && st.halt.None?
    ensures SameClock(after.book.broker, st.book.broker)
    ensures after.halt.Some? ==> after.halt.value.at == t
  {
    var called := st.(calls := st.calls + [StrategyCall(setup.bars[..t + 1], account, current.time)]);
    match setup.strategy(called.calls)
    case None => HaltWith(setup.model, called, Halt(t, StrategyRaised), next)
    case Some(signals) =>
      var turn := TakeSignals(setup, StartTurn(called, account), signals, |signals|, current, next);
      var traded := EndTurn(called.(proposed := called.proposed + |signals|), turn);
      if turn.tripped then HaltWith(setup.model, traded, Halt(t, TrippedInEvaluate), next)
      else
        ApplySwapKeepsTrades(setup.model, setup.hour, traded.book.broker, current, next);
        traded.(book := traded.book.(broker := ApplySwap(setup.model, setup.hour, traded.book.broker, current, next)))
  }

  /** One turn of the bar loop. */
  ghost function Step(setup: Setup, t: nat, st: RunState): (after: RunState)
    requires ValidSetup(setup) && t < |setup.bars| - 1
    requires MarksTradeable(setup.model, st.book.broker.marks) && st.halt.None?
    ensures MarksTradeable(setup.model, after.book.broker.marks)
    ensures after.halt.Some? ==> after.halt.value.at == t
  {
    var current, next := setup.bars[t], setup.bars[t + 1];
    var begun := BeginBar(setup, t, st, current);
    if begun.ks.Engaged? then HaltWith(setup.model, begun, Halt(t, TrippedAtBar(begun.ks.trippedBy)), next)
    else Trade(setup, t, begun, AccountAtBar(setup, st, current), current, next)
  }

  /** The state after the loop has considered the first t bars; once halted it does not move. */
  ghost function Iterate(setup: Setup, t: nat): (st: RunState)
    requires ValidSetup(setup) && t < |setup.bars|
    ensures MarksTradeable(setup.model, st.book.broker.marks)
    ensures st.halt.Some? ==> st.halt.value.at < t
  {
    if t == 0 then InitialState(setup)
    else
      var before := Iterate(setup, t - 1);
      if before.halt.Some? then before else Step(setup, t - 1, before)
  }

  // -------------------------------------------------------------- the result

  datatype RunResult = RunResult(barsProcessed: nat, endingBalance: real, endingEquity: real, peakEquity: real,
                                 maxDrawdownPct: real,
                                 proposed: nat, accepted: nat, rejected: nat, halt: Option<Halt>,
                                 costs: CostTotals, curve: seq<EquityPoint>, tradeLog: seq<TradeRecord>,
                                 metrics: Metrics.RunMetrics)

  function Equities(curve: seq<EquityPoint>): seq<real> {
    seq(|curve|, i requires 0 <= i < |curve| => curve[i].equity)
  }

  /** The largest drawdown among the samples, zero when there are none. */
  function MaxDrawdownPct(curve: seq<EquityPoint>): real {
    if curve == [] then 0.0
    else if |curve| == 1 then curve[0].drawdownPct
    else Max(MaxDrawdownPct(curve[..|curve| - 1]), curve[|curve| - 1].drawdownPct)
  }

  /** Realized P&L of the closed trades, in log order. */
  function ClosedPnls(log: seq<TradeRecord>): seq<real> {
    if log == [] then []
    else ClosedPnls(log[..|log| - 1])
         + (if log[|log| - 1].exit.Some? then [log[|log| - 1].exit.value.realizedPnl] else [])
  }

  function LastBar(setup: Setup, st: RunState): int {
    if st.halt.Some? then st.halt.value.at else |setup.bars| - 1
  }

  /** Records for the first n live trades, with no exit. */
  function StillOpen(broker: Broker, live: seq<LiveTrade>, n: nat): seq<TradeRecord>
    requires n <= |live|
  {
    if n == 0 then []
    else StillOpen(broker, live, n - 1) + [TradeRecord(live[n - 1], SwapOfTrade(broker, live[n - 1].tradeId), None)]
  }

  function Finish(setup: Setup, st: RunState): RunResult
    requires ValidSetup(setup) && MarksTradeable(setup.model, st.book.broker.marks)
    requires 0 <= LastBar(setup, st) < |setup.bars|
  {
    var t := LastBar(setup, st);
    var bar := setup.bars[t];
    var broker := MarkToMarket(setup.model, st.book.broker, bar);
    var account := Snapshot(setup.model, broker, bar.time);
    var curve := st.curve + [Sample(t, account)];
    var log := st.book.closed + StillOpen(broker, st.book.live, |st.book.live|);
    RunResult(t + 1, broker.cash, account.equity, account.peak, MaxDrawdownPct(curve),
              st.proposed, st.accepted, st.rejected, st.halt,
              broker.costs, curve, log, Metrics.RunMetricsOf(Equities(curve), ClosedPnls(log)))
  }

  /** The whole run. */
  ghost function Run(setup: Setup): RunResult
    requires ValidSetup(setup)
  {
    Finish(setup, Iterate(setup, |setup.bars| - 1))
  }
}
