/** Where the money of a run went: cash from the trade log alone, equity from bar prices and costs. */
module RunMoney {
  import opened Models
  import opened Costs
  import opened Ledger
  import opened Engine
  import opened RunInvariant
  import opened RunSoundness

  /** A record's mid-to-mid profit, an open trade being valued at the given mid. */
  function MidPnlAt(model: CostModel, record: TradeRecord, mid: real): real {
    if record.exit.Some? then MidPnl(model, record)
    else Pnl(record.trade.direction, record.trade.size,
             EntryMid(model, record.trade.direction, record.trade.entryPrice), mid)
  }

  function MidPnlOfLogAt(model: CostModel, log: seq<TradeRecord>, mid: real): real {
    if log == [] then 0.0
    else MidPnlOfLogAt(model, log[..|log| - 1], mid) + MidPnlAt(model, log[|log| - 1], mid)
  }

  /** The exit friction the trades still open would pay. */
  function OpenFriction(model: CostModel, log: seq<TradeRecord>): real {
    if log == [] then 0.0
    else OpenFriction(model, log[..|log| - 1])
         + (if log[|log| - 1].exit.None? then log[|log| - 1].trade.size * model.FrictionPerUnit() else 0.0)
  }

  lemma {:induction false} ClosedLogAt(model: CostModel, closed: seq<TradeRecord>, mid: real)
    requires forall k :: 0 <= k < |closed| ==> closed[k].exit.Some?
    ensures MidPnlOfLogAt(model, closed, mid) == MidPnlOfLog(model, closed)
    ensures OpenFriction(model, closed) == 0.0
  {
    hide MidPnl;
    if closed != [] {
      ClosedLogAt(model, closed[..|closed| - 1], mid);
    }
  }

  /** The log as it would be reported now: the closed trades, then the one still open. */
  function LogNow(book: Book): seq<TradeRecord> {
    book.closed + StillOpen(book.broker, book.live, |book.live|)
  }

  lemma LogNowForm(pair: string, book: Book, nextId: nat)
    requires Shape(pair, book, nextId)
    ensures LogNow(book) == if book.live == [] then book.closed
                            else book.closed + [TradeRecord(book.live[0], book.broker.lots[0].swap, None)]
  {
    if book.live != [] {
      assert StillOpen(book.broker, book.live, 0) == [];
      assert StillOpen(book.broker, book.live, 1) == [] + [TradeRecord(book.live[0], book.broker.lots[0].swap, None)];
    } else {
      assert StillOpen(book.broker, book.live, 0) == [];
    }
  }

  /** Cash is the starting balance plus what every trade of the log, open ones included, has netted. */
  lemma CashFromLog(pair: string, start: real, book: Book, nextId: nat)
    requires Shape(pair, book, nextId) && CashAccounted(start, book)
    ensures book.broker.cash == start + NetOfLog(LogNow(book))
  {
    LogNowForm(pair, book, nextId);
    if book.live != [] {
      var log, lots := LogNow(book), book.broker.lots;
      assert log[..|log| - 1] == book.closed && lots[..0] == [];
      assert NetOfLots(lots) == lots[0].swap - lots[0].entryCommission == NetOf(log[|log| - 1]);
      assert NetOfLog(log) == NetOfLog(book.closed) + NetOf(log[|log| - 1]);
    }
  }

  /** The cost totals are the sums over the same log. */
  lemma CostsFromLog(pair: string, model: CostModel, book: Book, nextId: nat)
    requires Shape(pair, book, nextId) && CostsAccounted(model, book)
    ensures book.broker.costs.spread == ChargedOnFills(model.halfSpread, LogNow(book))
    ensures book.broker.costs.slippage == ChargedOnFills(model.slippagePerUnit, LogNow(book))
    ensures book.broker.costs.commission == CommissionOfLog(LogNow(book))
    ensures book.broker.costs.swap == SwapOfLog(LogNow(book))
  {
    LogNowForm(pair, book, nextId);
    if book.live != [] {
      var log, lots := LogNow(book), book.broker.lots;
      assert log[..|log| - 1] == book.closed && lots[..0] == [];
      assert CommissionOfLots(lots) == lots[0].entryCommission && SwapOfLots(lots) == lots[0].swap;
      assert lots == [lots[0]];
      EntryCharges(model.halfSpread, lots[0]);
      EntryCharges(model.slippagePerUnit, lots[0]);
    }
  }

  /** The equity identity of a marked book, over mids recovered from its fills. */
  ghost predicate EquityAttributed(start: real, model: CostModel, book: Book, mid: real, equity: real) {
    var log, costs := LogNow(book), book.broker.costs;
    equity == start + MidPnlOfLogAt(model, log, mid)
              - costs.spread - costs.slippage - costs.commission + costs.swap
              - OpenFriction(model, log)
  }

  lemma FrictionOfAppend(model: CostModel, closed: seq<TradeRecord>, open: TradeRecord)
    requires open.exit.None?
    ensures OpenFriction(model, closed + [open])
         == OpenFriction(model, closed) + open.trade.size * model.FrictionPerUnit()
  {
    hide CostModel.FrictionPerUnit;
    assert (closed + [open])[..|closed|] == closed;
  }

  lemma MidPnlOfAppend(model: CostModel, closed: seq<TradeRecord>, last: TradeRecord, mid: real)
    ensures MidPnlOfLogAt(model, closed + [last], mid) == MidPnlOfLogAt(model, closed, mid) + MidPnlAt(model, last, mid)
  {
    hide MidPnlAt;
    assert (closed + [last])[..|closed|] == closed;
  }

  /** The sums over a log of closed trades followed by one open trade. */
  lemma OpenLogAt(model: CostModel, closed: seq<TradeRecord>, open: TradeRecord, mid: real)
    requires open.exit.None? && forall k :: 0 <= k < |closed| ==> closed[k].exit.Some?
    ensures MidPnlOfLogAt(model, closed + [open], mid) == MidPnlOfLog(model, closed) + MidPnlAt(model, open, mid)
    ensures OpenFriction(model, closed + [open]) == open.trade.size * model.FrictionPerUnit()
  {
    hide MidPnlAt, MidPnlOfLog, MidPnlOfLogAt, OpenFriction, CostModel.FrictionPerUnit;
    FrictionOfAppend(model, closed, open);
    MidPnlOfAppend(model, closed, open, mid);
    ClosedLogAt(model, closed, mid);
  }

  lemma OpenLotMarked(model: CostModel, marks: map<string, PositiveDecimal>, lot: Lot, live: LiveTrade,
                      mid: PositiveDecimal, swap: real)
    requires MarksTradeable(model, marks) && lot.position.pair in marks && marks[lot.position.pair] == mid
    requires Aligned(lot, live)
    ensures Unrealized(model, marks, [lot]) + UnpaidFriction(model, [lot])
         == MidPnlAt(model, TradeRecord(live, swap, None), mid) - live.size * model.FrictionPerUnit()
    ensures UnpaidFriction(model, [lot]) == live.size * model.FrictionPerUnit()
  {
    hide Pnl;
    assert [lot][1..] == [] && [lot][..0] == [];
    assert Unrealized(model, marks, [lot]) == MarkPosition(model, lot.position, mid);
    var exit := ExitPrice(live.direction, mid, model);
    FillsLoseFriction(model, live.direction, live.size, live.entryPrice, exit);
    assert ExitMid(model, live.direction, exit) == mid;
  }

  lemma EquityFromBars(setup: Setup, book: Book, nextId: nat, mid: PositiveDecimal)
    requires setup.bars != [] && Shape(setup.Pair(), book, nextId)
    requires CashAttributed(setup.startingBalance, setup.model, book)
    requires MarksTradeable(setup.model, book.broker.marks)
    requires setup.Pair() in book.broker.marks && book.broker.marks[setup.Pair()] == mid
    ensures EquityAttributed(setup.startingBalance, setup.model, book, mid, Equity(setup.model, book.broker))
  {
    hide ChainedLog, Chained, MidPnlAt, MidPnlOfLogAt, MidPnlOfLog, OpenFriction, UnpaidFriction, Unrealized, LogNow,
      CostModel.FrictionPerUnit, Aligned, MarksTradeable;
    var model, lots := setup.model, book.broker.lots;
    LogNowForm(setup.Pair(), book, nextId);
    ClosedTradesExited(book.closed);
    if lots == [] {
      ClosedLogAt(model, book.closed, mid);
      FlatSums(model, book.broker.marks);
    } else {
      var live, swap := book.live[0], lots[0].swap;
      assert lots == [lots[0]];
      OpenLogAt(model, book.closed, TradeRecord(live, swap, None), mid);
      OpenLotMarked(model, book.broker.marks, lots[0], live, mid, swap);
    }
  }

  lemma ClosedTradesExited(closed: seq<TradeRecord>)
    requires ChainedLog(closed)
    ensures forall k :: 0 <= k < |closed| ==> closed[k].exit.Some?
  {
  }

  lemma FlatSums(model: CostModel, marks: map<string, PositiveDecimal>)
    requires MarksTradeable(model, marks)
    ensures Unrealized(model, marks, []) == 0.0 && UnpaidFriction(model, []) == 0.0
  {
  }

  // -------------------------------------------------- from fills to bar prices

  /**
   The decision bars of a log as it stands at bar t, all of them earlier than t: trade k was opened
   at ds[k] and, when closed, closed at ds[k + 1].
   */
  predicate DecidedAt(setup: Setup, log: seq<TradeRecord>, ds: seq<nat>, t: nat) {
    && t < |setup.bars| && |ds| >= |log| && DecidedBefore(ds, t)
    && (forall k :: 0 <= k < |log| && log[k].exit.Some? ==> k + 1 < |ds| && ClosedAt(setup, log[k], ds[k], ds[k + 1]))
    && (forall k :: 0 <= k < |log| && log[k].exit.None? ==>
          && OpenedAt(setup, log[k].trade, ds[k])
          && log[k].swapPaid == SwapOver(setup, log[k].trade.direction, log[k].trade.size, ds[k], t))
  }

  /** Every decision bar has a bar after it to fill at, and every closed trade has two decisions. */
  predicate Located(setup: Setup, log: seq<TradeRecord>, ds: seq<nat>) {
    && |ds| >= |log|
    && (forall k :: 0 <= k < |ds| ==> ds[k] + 1 < |setup.bars|)
    && (forall k :: 0 <= k < |log| && log[k].exit.Some? ==> k + 1 < |ds|)
  }

  /**
   Trade k's profit between bar opens: from the bar after it was opened to the bar after it was closed, or to
   the mark.
   */
  function BarPnl(setup: Setup, log: seq<TradeRecord>, ds: seq<nat>, k: nat, mark: real): real
    requires Located(setup, log, ds) && k < |log|
  {
    Pnl(log[k].trade.direction, log[k].trade.size, setup.bars[ds[k] + 1].open,
        if log[k].exit.Some? then setup.bars[ds[k + 1] + 1].open else mark)
  }

  /** The mid-to-mid profit of the first n trades, from the bars alone. */
  function BarPnlOf(setup: Setup, log: seq<TradeRecord>, ds: seq<nat>, n: nat, mark: real): real
    requires Located(setup, log, ds) && n <= |log|
  {
    if n == 0 then 0.0 else BarPnlOf(setup, log, ds, n - 1, mark) + BarPnl(setup, log, ds, n - 1, mark)
  }

  /** The mid recovered from a trade's entry is the open of the bar after the decision. */
  lemma EntryMidIsBarOpen(setup: Setup, trade: LiveTrade, o: nat)
    requires OpenedAt(setup, trade, o)
    ensures EntryMid(setup.model, trade.direction, trade.entryPrice) == setup.bars[o + 1].open
  {
  }

  lemma ExitMidIsBarOpen(setup: Setup, record: TradeRecord, o: nat, c: nat)
    requires ClosedAt(setup, record, o, c)
    ensures ExitMid(setup.model, record.trade.direction, record.exit.value.price) == setup.bars[c + 1].open
  {
    hide SwapOver;
  }

  /** The mids recovered from the fills of a log, its open trade included, are the opens of bars. */
  lemma {:induction false} MidsAreBarOpens(setup: Setup, log: seq<TradeRecord>, ds: seq<nat>, t: nat, n: nat,
                                           mark: real)
    requires DecidedAt(setup, log, ds, t) && n <= |log|
    ensures Located(setup, log, ds)
    ensures MidPnlOfLogAt(setup.model, log[..n], mark) == BarPnlOf(setup, log, ds, n, mark)
  {
    hide ClosedAt, OpenedAt, SwapOver, Pnl, EntryMid, ExitMid;
    DecidedIsLocated(setup, log, ds, t);
    if n > 0 {
      MidsAreBarOpens(setup, log, ds, t, n - 1, mark);
      assert log[..n][..n - 1] == log[..n - 1];
      var record := log[n - 1];
      if record.exit.Some? {
        ClosedWasOpened(setup, record, ds[n - 1], ds[n]);
        ExitMidIsBarOpen(setup, record, ds[n - 1], ds[n]);
      }
      EntryMidIsBarOpen(setup, record.trade, ds[n - 1]);
    }
  }

  lemma ClosedWasOpened(setup: Setup, record: TradeRecord, o: nat, c: nat)
    requires ClosedAt(setup, record, o, c)
    ensures OpenedAt(setup, record.trade, o)
  {
  }

  lemma DecidedIsLocated(setup: Setup, log: seq<TradeRecord>, ds: seq<nat>, t: nat)
    requires DecidedAt(setup, log, ds, t)
    ensures Located(setup, log, ds)
  {
    hide SwapOver, ExitAt;
  }

  /** The books of a state explain the log as it would be reported then. */
  lemma LogNowDecided(setup: Setup, t: nat, book: Book, nextId: nat, ds: seq<nat>)
    requires setup.bars != [] && Shape(setup.Pair(), book, nextId)
    requires ExplainedBy(setup, t, book, nextId, ds) && DecidedBefore(ds, t)
    ensures DecidedAt(setup, LogNow(book), ds, t)
  {
    LogNowForm(setup.Pair(), book, nextId);
    hide ClosedAt, OpenedAt, SwapOver;
  }

  /** Equity from bar prices and costs: the mid-to-mid profit of the log less every kind of cost, swap being signed. */
  ghost predicate AttributedToBars(setup: Setup, log: seq<TradeRecord>, ds: seq<nat>, costs: CostTotals, mark: real,
                                   equity: real)
    requires Located(setup, log, ds)
  {
    equity == setup.startingBalance + BarPnlOf(setup, log, ds, |log|, mark)
              - costs.spread - costs.slippage - costs.commission + costs.swap
              - OpenFriction(setup.model, log)
  }

  lemma AttributedFromMids(setup: Setup, log: seq<TradeRecord>, ds: seq<nat>, t: nat, costs: CostTotals, mark: real,
                           equity: real)
    requires DecidedAt(setup, log, ds, t)
    requires equity == setup.startingBalance + MidPnlOfLogAt(setup.model, log, mark)
                       - costs.spread - costs.slippage - costs.commission + costs.swap
                       - OpenFriction(setup.model, log)
    ensures Located(setup, log, ds) && AttributedToBars(setup, log, ds, costs, mark, equity)
  {
    hide DecidedAt, Located, OpenFriction, MidPnlOfLogAt;
    MidsAreBarOpens(setup, log, ds, t, |log|, mark);
    assert log[..|log|] == log;
  }

  /**
   Cost attribution at every bar: the equity the bar samples is the starting balance, plus the
   profit of every trade between the bar opens that followed its decisions, the open one valued at
   this bar's close, minus spread, slippage and commission, plus signed swap, minus the exit
   friction of the trade still open. All of those decisions were taken before this bar.
   */
  lemma EquityAttributedAtEveryBar(setup: Setup, t: nat) returns (ds: seq<nat>)
    requires ValidSetup(setup) && t < |setup.bars| - 1 && Iterate(setup, t).halt.None?
    ensures var book := BeginBar(setup, t, Iterate(setup, t), setup.bars[t]).book;
            && DecidedAt(setup, LogNow(book), ds, t) && Located(setup, LogNow(book), ds)
            && AttributedToBars(setup, LogNow(book), ds, book.broker.costs, setup.bars[t].close,
                                AccountAtBar(setup, Iterate(setup, t), setup.bars[t]).equity)
  {
    hide Iterate, DecidedAt, Located, AttributedToBars, LogNow, MidPnlOfLogAt, OpenFriction;
    RunSound(setup, t);
    var st, bar := Iterate(setup, t), setup.bars[t];
    ds :| StateSoundBy(setup, t, st, ds);
    MarkSound(setup, t, st.book, st.nextId, ds, bar);
    MarkedAtClose(setup, st.book.broker, bar);
    hide SoundBy, MarkedBroker, CheckBreaches, DecidedBefore;
    var begun := BeginBar(setup, t, st, bar);
    SoundParts(setup, t, begun.book, st.nextId, ds);
    EquityFromBars(setup, begun.book, st.nextId, bar.close);
    LogNowDecided(setup, t, begun.book, st.nextId, ds);
    AttributedFromMids(setup, LogNow(begun.book), ds, t, begun.book.broker.costs, bar.close,
                       AccountAtBar(setup, st, bar).equity);
  }

  lemma SoundParts(setup: Setup, t: nat, book: Book, nextId: nat, ds: seq<nat>)
    requires setup.bars != [] && SoundBy(setup, t, book, nextId, ds)
    ensures Shape(setup.Pair(), book, nextId) && MarksTradeable(setup.model, book.broker.marks)
    ensures CashAccounted(setup.startingBalance, book) && CashAttributed(setup.startingBalance, setup.model, book)
    ensures CostsAccounted(setup.model, book) && ExplainedBy(setup, t, book, nextId, ds)
  {
  }

  lemma MarkedAtClose(setup: Setup, b: Broker, bar: Candle)
    requires MarksTradeable(setup.model, b.marks) && Tradeable(setup.model, bar.close)
    ensures var marked := MarkedBroker(setup, b, bar);
            bar.pair in marked.marks && marked.marks[bar.pair] == bar.close
  {
  }

  // ------------------------------------------------------------- the result

  /** The book a final state is reported from, after its last mark. */
  function FinalBook(setup: Setup, st: RunState): Book
    requires ValidSetup(setup) && MarksTradeable(setup.model, st.book.broker.marks)
    requires 0 <= LastBar(setup, st) < |setup.bars|
  {
    st.book.(broker := MarkToMarket(setup.model, st.book.broker, setup.bars[LastBar(setup, st)]))
  }

  lemma FinalBookSound(setup: Setup, t: nat, st: RunState)
    requires ValidSetup(setup) && StateSound(setup, t, st)
    requires MarksTradeable(setup.model, st.book.broker.marks)
    requires 0 <= LastBar(setup, st) < |setup.bars|
    ensures var book := FinalBook(setup, st);
            && Shape(setup.Pair(), book, st.nextId) && MarksTradeable(setup.model, book.broker.marks)
            && CashAccounted(setup.startingBalance, book) && CashAttributed(setup.startingBalance, setup.model, book)
            && CostsAccounted(setup.model, book)
            && setup.Pair() in book.broker.marks
            && book.broker.marks[setup.Pair()] == setup.bars[LastBar(setup, st)].close
            && book.closed == st.book.closed && book.live == st.book.live && book.broker.lots == st.book.broker.lots
  {
    var ds :| StateSoundBy(setup, t, st, ds);
    SoundParts(setup, t, st.book, st.nextId, ds);
    var bar := setup.bars[LastBar(setup, st)];
    hide StateSound, ExplainedBy, Unrealized, ChainedLog, Chained;
    assert bar.pair == setup.Pair();
  }

  lemma FinishReportsFinalBook(setup: Setup, st: RunState)
    requires ValidSetup(setup) && MarksTradeable(setup.model, st.book.broker.marks)
    requires 0 <= LastBar(setup, st) < |setup.bars|
    requires MarksTradeable(setup.model, FinalBook(setup, st).broker.marks)
    ensures var book, r := FinalBook(setup, st), Finish(setup, st);
            && r.tradeLog == LogNow(book) && r.costs == book.broker.costs && r.barsProcessed == LastBar(setup, st) + 1
            && r.endingBalance == book.broker.cash && r.endingEquity == Equity(setup.model, book.broker)
  {
    hide Unrealized, StillOpen;
  }

  lemma RunIsFinish(setup: Setup)
    requires ValidSetup(setup)
    ensures var st := Iterate(setup, |setup.bars| - 1);
            && 0 <= LastBar(setup, st) < |setup.bars|
            && StateSound(setup, |setup.bars| - 1, st)
            && Run(setup) == Finish(setup, st)
  {
    hide Iterate, StateSound, Finish, Tradeable;
    RunSound(setup, |setup.bars| - 1);
  }

  /** The reported balance is the starting balance plus the net of every trade in the reported log. */
  lemma EndingBalanceFromLog(setup: Setup)
    requires ValidSetup(setup)
    ensures Run(setup).endingBalance == setup.startingBalance + NetOfLog(Run(setup).tradeLog)
  {
    hide Run, Iterate, StateSound, Shape, CashAccounted, LogNow, FinalBook, Finish;
    RunIsFinish(setup);
    var st := Iterate(setup, |setup.bars| - 1);
    FinalBookSound(setup, |setup.bars| - 1, st);
    FinishReportsFinalBook(setup, st);
    CashFromLog(setup.Pair(), setup.startingBalance, FinalBook(setup, st), st.nextId);
  }

  lemma EndingEquityFromMids(setup: Setup)
    requires ValidSetup(setup)
    ensures 0 < Run(setup).barsProcessed <= |setup.bars|
    ensures var r := Run(setup);
            var close := setup.bars[r.barsProcessed - 1].close;
            r.endingEquity == setup.startingBalance + MidPnlOfLogAt(setup.model, r.tradeLog, close)
                              - r.costs.spread - r.costs.slippage - r.costs.commission + r.costs.swap
                              - OpenFriction(setup.model, r.tradeLog)
  {
    hide Run, Iterate, StateSound, Shape, CashAttributed, LogNow, FinalBook, Finish, Equity, MidPnlOfLogAt,
      OpenFriction;
    RunIsFinish(setup);
    var st := Iterate(setup, |setup.bars| - 1);
    FinalBookSound(setup, |setup.bars| - 1, st);
    FinishReportsFinalBook(setup, st);
    EquityFromBars(setup, FinalBook(setup, st), st.nextId, setup.bars[LastBar(setup, st)].close);
  }

  lemma FinalBookExplained(setup: Setup, st: RunState, ds: seq<nat>)
    requires ValidSetup(setup) && StateSoundBy(setup, |setup.bars| - 1, st, ds)
    requires MarksTradeable(setup.model, st.book.broker.marks) && 0 <= LastBar(setup, st) < |setup.bars|
    ensures ExplainedBy(setup, |setup.bars| - 1, FinalBook(setup, st), st.nextId, ds)
    ensures DecidedBefore(ds, |setup.bars| - 1)
  {
    hide ClosedAt, OpenedAt, Unrealized, SwapOver;
    var marked := FinalBook(setup, st);
    assert marked.broker.lots == st.book.broker.lots;
  }

  /** The reported log has decision bars that explain it. */
  lemma ReportedLogDecided(setup: Setup) returns (ds: seq<nat>)
    requires ValidSetup(setup)
    ensures DecidedAt(setup, Run(setup).tradeLog, ds, |setup.bars| - 1)
  {
    hide Run, Iterate, StateSoundBy, Shape, LogNow, FinalBook, Finish, DecidedAt, ExplainedBy, DecidedBefore;
    RunIsFinish(setup);
    var st := Iterate(setup, |setup.bars| - 1);
    FinalBookSound(setup, |setup.bars| - 1, st);
    FinishReportsFinalBook(setup, st);
    ds :| StateSoundBy(setup, |setup.bars| - 1, st, ds);
    FinalBookExplained(setup, st, ds);
    LogNowDecided(setup, |setup.bars| - 1, FinalBook(setup, st), st.nextId, ds);
  }

  /**
   The reported equity, attributed to bar prices and to each kind of cost. It holds for any decision
   bars that explain the reported log, and there always are some.
   */
  lemma EndingEquityAttributed(setup: Setup, ds: seq<nat>)
    requires ValidSetup(setup) && DecidedAt(setup, Run(setup).tradeLog, ds, |setup.bars| - 1)
    ensures 0 < Run(setup).barsProcessed <= |setup.bars|
    ensures Located(setup, Run(setup).tradeLog, ds)
    ensures var r := Run(setup);
            AttributedToBars(setup, r.tradeLog, ds, r.costs, setup.bars[r.barsProcessed - 1].close, r.endingEquity)
  {
    hide Run, DecidedAt, Located, AttributedToBars;
    EndingEquityFromMids(setup);
    var r := Run(setup);
    AttributedFromMids(setup, r.tradeLog, ds, |setup.bars| - 1, r.costs, setup.bars[r.barsProcessed - 1].close,
                       r.endingEquity);
  }

  // ------------------------------------------------------ records, written out

  /**
   A record in the terms of the market: filled at the open of the bar after each decision, half a
   spread and the slippage to the worse side of it, and charged for its size on each fill.
   */
  predicate InMarketTerms(setup: Setup, record: TradeRecord, o: nat, c: nat)
    requires o + 1 < |setup.bars| && c + 1 < |setup.bars|
  {
    var trade, long := record.trade, record.trade.direction == Long;
    var friction := setup.model.halfSpread + setup.model.slippagePerUnit;
    var entry, leave := setup.bars[o + 1], setup.bars[c + 1];
    && trade.entryTime == entry.time
    && trade.entryPrice == (if long then entry.open + friction else entry.open - friction)
    && trade.entryCommission == trade.size * setup.model.commissionPerUnit
    && (record.exit.Some? ==>
          var exit := record.exit.value;
          && exit.time == leave.time
          && exit.price == (if long then leave.open - friction else leave.open + friction)
          && exit.commission == trade.size * setup.model.commissionPerUnit
          && exit.realizedPnl
               == trade.size * if long then exit.price - trade.entryPrice else trade.entryPrice - exit.price)
  }

  lemma OpenInMarketTerms(setup: Setup, record: TradeRecord, o: nat)
    requires OpenedAt(setup, record.trade, o) && record.exit.None?
    ensures InMarketTerms(setup, record, o, o)
  {
  }

  lemma ClosedInMarketTerms(setup: Setup, record: TradeRecord, o: nat, c: nat)
    requires ClosedAt(setup, record, o, c)
    ensures InMarketTerms(setup, record, o, c)
  {
    hide SwapOver;
  }

  /** The bars trade k was decided at. */
  function DecisionsOf(log: seq<TradeRecord>, ds: seq<nat>, k: nat): (nat, nat)
    requires k < |log| && k < |ds| && (log[k].exit.Some? ==> k + 1 < |ds|)
  {
    (ds[k], if log[k].exit.Some? then ds[k + 1] else ds[k])
  }

  /** Every record of a decided log is in market terms. */
  lemma RecordsInMarketTerms(setup: Setup, log: seq<TradeRecord>, ds: seq<nat>, t: nat)
    requires DecidedAt(setup, log, ds, t)
    ensures Located(setup, log, ds)
    ensures forall k :: 0 <= k < |log| ==>
              InMarketTerms(setup, log[k], DecisionsOf(log, ds, k).0, DecisionsOf(log, ds, k).1)
  {
    hide ClosedAt, OpenedAt, SwapOver, InMarketTerms;
    DecidedIsLocated(setup, log, ds, t);
    forall k | 0 <= k < |log|
      ensures InMarketTerms(setup, log[k], DecisionsOf(log, ds, k).0, DecisionsOf(log, ds, k).1)
    {
      if log[k].exit.Some? {
        ClosedInMarketTerms(setup, log[k], ds[k], ds[k + 1]);
      } else {
        OpenInMarketTerms(setup, log[k], ds[k]);
      }
    }
  }

  lemma CommissionInMarketTerms(setup: Setup, record: TradeRecord, o: nat, c: nat)
    requires o + 1 < |setup.bars| && c + 1 < |setup.bars| && InMarketTerms(setup, record, o, c)
    ensures CommissionOfLog([record]) == ChargedOnFills(setup.model.commissionPerUnit, [record])
  {
    assert [record][..0] == [];
  }

  lemma {:induction false} CommissionsCharged(setup: Setup, log: seq<TradeRecord>, ds: seq<nat>, t: nat, n: nat)
    requires DecidedAt(setup, log, ds, t) && n <= |log|
    ensures CommissionOfLog(log[..n]) == ChargedOnFills(setup.model.commissionPerUnit, log[..n])
  {
    hide DecidedAt, InMarketTerms;
    if n > 0 {
      CommissionsCharged(setup, log, ds, t, n - 1);
      RecordsInMarketTerms(setup, log, ds, t);
      CommissionInMarketTerms(setup, log[n - 1], DecisionsOf(log, ds, n - 1).0, DecisionsOf(log, ds, n - 1).1);
      assert log[..n][..n - 1] == log[..n - 1] && [log[n - 1]][..0] == [];
    }
  }

  /** The reported cost totals are what the reported trades were charged, trade by trade. */
  lemma CostBreakdownFromLog(setup: Setup)
    requires ValidSetup(setup)
    ensures Run(setup).costs.spread == ChargedOnFills(setup.model.halfSpread, Run(setup).tradeLog)
    ensures Run(setup).costs.slippage == ChargedOnFills(setup.model.slippagePerUnit, Run(setup).tradeLog)
    ensures Run(setup).costs.commission == CommissionOfLog(Run(setup).tradeLog)
         == ChargedOnFills(setup.model.commissionPerUnit, Run(setup).tradeLog)
    ensures Run(setup).costs.swap == SwapOfLog(Run(setup).tradeLog)
  {
    hide Run, Iterate, StateSound, Shape, CostsAccounted, LogNow, FinalBook, Finish, DecidedAt, CommissionOfLog,
      ChargedOnFills;
    RunIsFinish(setup);
    var st := Iterate(setup, |setup.bars| - 1);
    FinalBookSound(setup, |setup.bars| - 1, st);
    FinishReportsFinalBook(setup, st);
    CostsFromLog(setup.Pair(), setup.model, FinalBook(setup, st), st.nextId);
    var log := Run(setup).tradeLog;
    var ds := ReportedLogDecided(setup);
    CommissionsCharged(setup, log, ds, |setup.bars| - 1, |log|);
    assert log[..|log|] == log;
  }
}
