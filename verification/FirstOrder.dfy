/** What the first order of a run without spread, slippage and commission does, whatever the bars are. */
module FirstOrder {
  import opened Models
  import opened RiskGate
  import opened Costs
  import opened Rollover
  import opened Ledger
  import opened Engine
  import opened RunHistory
  import opened Causality

  predicate Frictionless(model: CostModel) {
    model.halfSpread == 0.0 && model.slippagePerUnit == 0.0 && model.commissionPerUnit == 0.0
  }

  /** An account that has seen nothing yet. */
  predicate Untouched(account: Account, balance: real) {
    account.equity == account.peak == account.dayStart == balance && account.positions == []
  }

  /** What bar 0 starts its signals from. */
  lemma StartOfRun(setup: Setup)
    requires ValidSetup(setup)
    ensures var turn := TurnAt(setup, 0);
            && turn.book == Book(MarkedBroker(setup, NewBroker(setup.startingBalance), setup.bars[0]), [], [])
            && turn.book.broker.lots == [] && turn.book.broker.cash == setup.startingBalance
            && turn.book.broker.marks == map[setup.Pair() := setup.bars[0].close]
            && turn.book.broker.peak == turn.book.broker.dayStart == setup.startingBalance
            && turn.book.broker.costs.swap == 0.0 && turn.book.broker.swapAcc == map[]
            && turn.ks == Released && !turn.tripped && turn.nextId == 0
            && Untouched(turn.account, setup.startingBalance)
    ensures !Breaches(setup.risk, AccountAt(setup, 0))
  {
    assert Iterate(setup, 0) == InitialState(setup);
    hide MarkedBroker, Iterate, Tradeable, Breaches, CheckBreaches, Account.DrawdownPct, Account.DailyLossPct;
    MarkedStart(setup);
    InsideLimits(setup.risk, AccountAt(setup, 0));
  }

  lemma MarkedStart(setup: Setup)
    requires ValidSetup(setup)
    ensures var b := setup.startingBalance;
            var marked := MarkedBroker(setup, NewBroker(b), setup.bars[0]);
            && marked.cash == b && marked.lots == [] && marked.marks == map[setup.Pair() := setup.bars[0].close]
            && marked.peak == b && marked.dayStart == b && marked.costs.swap == 0.0 && marked.swapAcc == map[]
  {
    hide BarDay, Tradeable;
  }

  lemma InsideLimits(risk: RiskConfig, account: Account)
    requires account.equity == account.peak == account.dayStart
    ensures account.DrawdownPct() == 0.0 && account.DailyLossPct() == 0.0
    ensures !Breaches(risk, account)
    ensures CheckBreaches(risk, Released, account) == Released
  {
  }

  /** An order that the caps let through whole is approved whole on an untouched account. */
  lemma UntouchedAccepts(risk: RiskConfig, order: Order, account: Account, balance: PositiveDecimal)
    requires Untouched(account, balance) && order.StopDistance() > 0.0 && LimitsAt(risk, balance).trade > 0.0
    requires GateOnCaps(LimitsAt(risk, balance), order, [], account.asOf)
          == Decision(Approve, Some(order), [], None, account.asOf)
    ensures Gate(risk, Released, order, account) == (Decision(Approve, Some(order), [], None, account.asOf), Released)
  {
    InsideLimits(risk, account);
    hide GateOnCaps, LimitsAt, Account.DrawdownPct, Account.DailyLossPct;
  }

  /** The position a frictionless fill opens. */
  function Filled(order: Order, open: PositiveDecimal): Position {
    Position(order.pair, order.direction, order.size, open, order.stopPrice)
  }

  /** Without friction, opening costs nothing and fills at the open. */
  lemma FreeFill(model: CostModel, book: Book, order: Order, next: Candle, tradeId: nat)
    requires Frictionless(model) && book.broker.lots == [] && book.live == [] && Tradeable(model, next.open)
    ensures var after := OpenTrade(model, book, order, next, tradeId);
            && after.closed == book.closed && |after.live| == 1
            && after.broker.cash == book.broker.cash && after.broker.marks == book.broker.marks
            && after.broker.lots == [Lot(Filled(order, next.open), tradeId, 0.0, 0.0)]
            && after.broker.costs.swap == book.broker.costs.swap
            && after.broker.swapAcc == book.broker.swapAcc[tradeId := 0.0]
  {
    assert CommissionFor(order.size, model) == 0.0;
    hide AddFill, CommissionFor;
    SwapUntouched(book.broker.costs, order.size, model);
  }

  lemma SwapUntouched(costs: CostTotals, size: real, model: CostModel)
    ensures AddFill(costs, size, model).swap == costs.swap
  {
  }

  lemma OneLotUnrealized(model: CostModel, marks: map<string, PositiveDecimal>, lot: Lot)
    requires MarksTradeable(model, marks) && lot.position.pair in marks
    ensures Unrealized(model, marks, [lot]) == MarkPosition(model, lot.position, marks[lot.position.pair])
  {
    hide MarkPosition;
    assert [lot][1..] == [];
    assert Unrealized(model, marks, [lot][1..]) == 0.0;
  }

  lemma FreeMark(model: CostModel, position: Position, mid: PositiveDecimal)
    requires Frictionless(model)
    ensures Tradeable(model, mid)
    ensures MarkPosition(model, position, mid) == Pnl(position.direction, position.size, position.entryPrice, mid)
  {
    hide Pnl;
  }

  /** Equity of a frictionless book that holds one lot. */
  lemma OneLotEquity(model: CostModel, b: Broker, lot: Lot, mid: PositiveDecimal)
    requires Frictionless(model) && MarksTradeable(model, b.marks) && b.lots == [lot]
    requires lot.position.pair in b.marks && b.marks[lot.position.pair] == mid
    ensures Equity(model, b)
         == b.cash + Pnl(lot.position.direction, lot.position.size, lot.position.entryPrice, mid)
  {
    hide MarkPosition, Pnl, Unrealized;
    OneLotUnrealized(model, b.marks, lot);
    FreeMark(model, lot.position, mid);
  }

  lemma ExecuteOnFlat(model: CostModel, turn: Turn, order: Order, current: Candle, next: Candle)
    requires turn.book.broker.lots == []
    requires Tradeable(model, next.open) && MarksTradeable(model, turn.book.broker.marks)
    ensures var grown := OpenTrade(model, turn.book, order, next, turn.nextId);
            var account := Snapshot(model, grown.broker, current.time);
            Execute(model, turn, order, current, next)
              == turn.(book := grown, nextId := turn.nextId + 1, account := account)
  {
    hide OpenTrade, Unrealized;
    assert OpposingIds(turn.book.broker.lots, order) == [];
    assert CloseTrades(model, turn.book, [], next) == turn.book;
  }

  /** A first order that the gate approves whole. */
  ghost predicate Approved(setup: Setup, order: Order)
    requires setup.bars != []
  {
    && Frictionless(setup.model) && order.pair == setup.Pair() && order.StopDistance() > 0.0
    && LimitsAt(setup.risk, setup.startingBalance).trade > 0.0
    && GateOnCaps(LimitsAt(setup.risk, setup.startingBalance), order, [], setup.bars[0].time)
         == Decision(Approve, Some(order), [], None, setup.bars[0].time)
  }

  /** After the first order, one lot is held at the next open, and equity has moved from that open to bar 0's close. */
  lemma AfterFirstOrder(setup: Setup, signals: seq<Order>)
    requires ValidSetup(setup) && signals != [] && Approved(setup, signals[0])
    ensures var order, open := signals[0], setup.bars[1].open;
            var turn := TurnAfter(setup, 0, signals, 1);
            && turn.ks == Released && !turn.tripped && turn.nextId == 1 && turn.book.closed == []
                  && |turn.book.live| == 1
            && turn.book.broker.lots == [Lot(Filled(order, open), 0, 0.0, 0.0)]
            && turn.book.broker.cash == setup.startingBalance
            && turn.book.broker.costs.swap == 0.0 && turn.book.broker.swapAcc == map[0 := 0.0]
            && turn.account.equity
                 == setup.startingBalance + Pnl(order.direction, order.size, open, setup.bars[0].close)
            && turn.account.peak == setup.startingBalance && turn.account.dayStart == setup.startingBalance
            && turn.account.positions == [Filled(order, open)]
  {
    hide TurnAt, Gate, GateOnCaps, LimitsAt, Execute, Tradeable, AccountAt, Equity, Pnl, Unrealized;
    StartOfRun(setup);
    var order, turn := signals[0], TurnAt(setup, 0);
    var current, next := setup.bars[0], setup.bars[1];
    AccountStamped(setup);
    UntouchedAccepts(setup.risk, order, turn.account, setup.startingBalance);
    assert TakeSignals(setup, turn, signals, 0, current, next) == turn;
    assert TakeSignals(setup, turn, signals, 1, current, next) == TakeSignal(setup, turn, order, current, next);
    var started := turn.(accepted := turn.accepted + 1);
    ExecuteOnFlat(setup.model, started, order, current, next);
    FreeFill(setup.model, turn.book, order, next, 0);
    hide OpenTrade;
    var grown := OpenTrade(setup.model, turn.book, order, next, 0).broker;
    OneLotEquity(setup.model, grown, grown.lots[0], setup.bars[0].close);
    SnapshotFields(setup.model, grown, current.time);
    assert PositionsOf(grown.lots) == [grown.lots[0].position];
  }

  lemma AccountStamped(setup: Setup)
    requires ValidSetup(setup)
    ensures TurnAt(setup, 0).account.asOf == setup.bars[0].time
  {
    hide Iterate, MarkedBroker, Unrealized, CheckBreaches;
  }

  lemma SnapshotFields(model: CostModel, b: Broker, asOf: int)
    requires MarksTradeable(model, b.marks)
    ensures var account := Snapshot(model, b, asOf);
            && account.equity == Equity(model, b) && account.positions == PositionsOf(b.lots)
            && account.peak == b.peak && account.dayStart == b.dayStart
  {
  }
}
