/**
 What the derived economics of a run's evidence say about the run itself. The engine's cost total
 adds signed swap to positive costs, and realized P&L is already net of spread and slippage; both
 facts show in the derived figures, by exactly known amounts.
 */
module RunEconomics {
  import opened Costs
  import opened Ledger
  import opened Engine
  import opened Metrics
  import opened Economics
  import opened RunInvariant
  import RunSoundness
  import RunMoney
  import RunDrawdown

  ghost predicate AllClosed(log: seq<TradeRecord>) {
    forall k :: 0 <= k < |log| ==> log[k].exit.Some?
  }

  /** The economics window of a run, as the evidence reports it. */
  ghost function WindowOfRun(setup: Setup): WindowEconomics
    requires ValidSetup(setup)
  {
    var r := Run(setup);
    WindowOf(setup.startingBalance, r.endingEquity, r.costs.Total(), r.metrics.trades)
  }

  /** Net of a log: the realized P&L of its closed trades, less every commission, plus every swap. */
  lemma {:induction false} NetOfLogSplits(log: seq<TradeRecord>)
    ensures NetOfLog(log) == Sum(ClosedPnls(log)) - CommissionOfLog(log) + SwapOfLog(log)
    ensures AllClosed(log) ==> |ClosedPnls(log)| == |log|
  {
    if log != [] {
      var last := log[|log| - 1];
      NetOfLogSplits(log[..|log| - 1]);
      if last.exit.Some? {
        SumOfConcat(ClosedPnls(log[..|log| - 1]), [last.exit.value.realizedPnl]);
        assert [last.exit.value.realizedPnl][1..] == [];
      } else {
        assert ClosedPnls(log) == ClosedPnls(log[..|log| - 1]);
      }
    }
  }

  lemma {:induction false} ClosedLogHasNoFriction(model: CostModel, log: seq<TradeRecord>)
    requires AllClosed(log)
    ensures RunMoney.OpenFriction(model, log) == 0.0
  {
    if log != [] {
      ClosedLogHasNoFriction(model, log[..|log| - 1]);
    }
  }

  /** On a run that ends flat, cash and equity agree. */
  lemma FlatEquityIsBalance(setup: Setup)
    requires ValidSetup(setup) && AllClosed(Run(setup).tradeLog)
    ensures Run(setup).endingEquity == Run(setup).endingBalance
  {
    hide Run, Iterate, Finish, RunSoundness.StateSound, Shape, Equity, AllClosed;
    RunMoney.RunIsFinish(setup);
    var st := Iterate(setup, |setup.bars| - 1);
    RunMoney.FinalBookSound(setup, |setup.bars| - 1, st);
    RunMoney.FinishReportsFinalBook(setup, st);
    FinalFlat(setup, RunMoney.FinalBook(setup, st), st.nextId);
  }

  lemma FinalFlat(setup: Setup, book: Book, nextId: nat)
    requires setup.bars != [] && Shape(setup.Pair(), book, nextId) && MarksTradeable(setup.model, book.broker.marks)
    ensures AllClosed(RunMoney.LogNow(book)) ==> Equity(setup.model, book.broker) == book.broker.cash
  {
    RunMoney.LogNowForm(setup.Pair(), book, nextId);
    if book.live != [] {
      assert RunMoney.LogNow(book)[|book.closed|].exit.None?;
    }
  }

  // ------------------------------------------------------------ gross P&L

  /**
   A run's profit between bar opens, its open trade valued at the last close: what it would have made free of
   costs.
   */
  ghost function MidToMid(setup: Setup, ds: seq<nat>): real
    requires ValidSetup(setup) && 0 < Run(setup).barsProcessed <= |setup.bars|
    requires RunMoney.Located(setup, Run(setup).tradeLog, ds)
  {
    var r := Run(setup);
    RunMoney.BarPnlOf(setup, r.tradeLog, ds, |r.tradeLog|, setup.bars[r.barsProcessed - 1].close)
  }

  /**
   The window's gross P&L, on every run: the profit between bar opens plus twice the signed swap less
   the exit friction of the open trade. It is that profit exactly when the last two cancel.
   */
  lemma GrossPnlExactlyWhen(setup: Setup, ds: seq<nat>)
    requires ValidSetup(setup) && RunMoney.DecidedAt(setup, Run(setup).tradeLog, ds, |setup.bars| - 1)
    ensures 0 < Run(setup).barsProcessed <= |setup.bars| && RunMoney.Located(setup, Run(setup).tradeLog, ds)
    ensures var r, window := Run(setup), WindowOfRun(setup);
            var friction := RunMoney.OpenFriction(setup.model, r.tradeLog);
            && window.grossPnl == MidToMid(setup, ds) + 2.0 * r.costs.swap - friction
            && (window.grossPnl == MidToMid(setup, ds) <==> 2.0 * r.costs.swap == friction)
  {
    hide Run, DecomposeMetrics, RunMoney.DecidedAt, RunMoney.Located;
    RunMoney.EndingEquityAttributed(setup, ds);
  }

  /** In particular, on a run that ends flat it is off by exactly twice the swap. */
  lemma GrossPnlOffByTwiceSwap(setup: Setup, ds: seq<nat>)
    requires ValidSetup(setup) && RunMoney.DecidedAt(setup, Run(setup).tradeLog, ds, |setup.bars| - 1)
    requires AllClosed(Run(setup).tradeLog)
    ensures 0 < Run(setup).barsProcessed <= |setup.bars| && RunMoney.Located(setup, Run(setup).tradeLog, ds)
    ensures WindowOfRun(setup).grossPnl == MidToMid(setup, ds) + 2.0 * Run(setup).costs.swap
  {
    hide Run, AllClosed, WindowOfRun, MidToMid, RunMoney.DecidedAt, RunMoney.Located;
    GrossPnlExactlyWhen(setup, ds);
    ClosedLogHasNoFriction(setup.model, Run(setup).tradeLog);
  }

  // ------------------------------------------------------------ net expectancy

  lemma RunTradeMetrics(setup: Setup)
    requires ValidSetup(setup)
    requires |Run(setup).curve| >= 2 && Run(setup).curve[0].equity > 0.0
    ensures var r := Run(setup);
            r.metrics.trades == MetricsOf(ClosedPnls(r.tradeLog))
  {
    hide Iterate, Unrealized, StillOpen, MaxDrawdownPct, ScanDrawdown, MetricsOf, ClosedPnls;
  }

  lemma ReturnOf(equities: seq<real>, pnls: seq<real>)
    requires |equities| >= 2 && equities[0] > 0.0
    ensures RunMetricsOf(equities, pnls).totalReturn * equities[0] == equities[|equities| - 1] - equities[0]
  {
    hide ScanDrawdown, MetricsOf;
    Requotient(equities[|equities| - 1] - equities[0], equities[0]);
  }

  lemma ReportedFrom(setup: Setup)
    requires ValidSetup(setup) && |Run(setup).curve| >= 2
    ensures var r, es := Run(setup), Equities(Run(setup).curve);
            && r.metrics == RunMetricsOf(es, ClosedPnls(r.tradeLog)) && r.endingEquity == es[|es| - 1]
            && |es| == |r.curve| && es[0] == r.curve[0].equity
  {
    hide Iterate, Unrealized, StillOpen, MaxDrawdownPct, RunMetricsOf, ClosedPnls;
  }

  /** The return a run reports, times its starting balance, is the change of its equity. */
  lemma ReturnIsEquityChange(setup: Setup)
    requires ValidSetup(setup)
    ensures Run(setup).metrics.totalReturn * setup.startingBalance == Run(setup).endingEquity - setup.startingBalance
  {
    hide Run, RunMetricsOf, ClosedPnls, Equities, RunDrawdown.PeaksTracked;
    RunDrawdown.ReportedCurveTracked(setup);
    ReportedFrom(setup);
    ReturnOf(Equities(Run(setup).curve), ClosedPnls(Run(setup).tradeLog));
  }

  /** Equity that the run has marked but not realized. */
  ghost function Unbooked(setup: Setup): real
    requires ValidSetup(setup)
  {
    Run(setup).endingEquity - Run(setup).endingBalance
  }

  /**
   The window's net expectancy, on every run that closed a trade: it subtracts spread and slippage a
   second time and swap with the wrong sign, and leaves out what is not yet realized. Over all closed
   trades it misses net P&L by the sum of those, and agrees with it exactly when they cancel.
   */
  lemma NetExpectancyExactlyWhen(setup: Setup)
    requires ValidSetup(setup)
    ensures var r, window := Run(setup), WindowOfRun(setup);
            window.netExpectancy.Some? <==> ClosedPnls(r.tradeLog) != []
    ensures var r, window := Run(setup), WindowOfRun(setup);
            var missed := r.costs.spread + r.costs.slippage + 2.0 * r.costs.swap + Unbooked(setup);
            ClosedPnls(r.tradeLog) != [] ==>
              && window.netPnl == window.netExpectancy.value * |ClosedPnls(r.tradeLog)| as real + missed
              && (window.netPnl == window.netExpectancy.value * |ClosedPnls(r.tradeLog)| as real <==> missed == 0.0)
  {
    hide Run, Sum, ClosedPnls, NetOfLog, CommissionOfLog, SwapOfLog, MetricsOf, WindowOf, RunDrawdown.PeaksTracked;
    var r := Run(setup);
    RunDrawdown.ReportedCurveTracked(setup);
    RunMoney.EndingBalanceFromLog(setup);
    RunMoney.CostBreakdownFromLog(setup);
    RunTradeMetrics(setup);
    NetOfLogSplits(r.tradeLog);
    WindowOfPnls(setup.startingBalance, r.endingEquity, r.costs.Total(), ClosedPnls(r.tradeLog));
  }

  /**
   A window over a trade list: net P&L is the equity change, and the expectancy times the count the total less
   cost.
   */
  lemma WindowOfPnls(start: real, ending: real, cost: real, pnls: seq<real>)
    ensures var window := WindowOf(start, ending, cost, MetricsOf(pnls));
            && window.netPnl == ending - start
            && (window.netExpectancy.Some? <==> pnls != [])
            && (pnls != [] ==> window.netExpectancy.value * |pnls| as real == Sum(pnls) - cost)
  {
    hide DecomposeMetrics, Sum, MetricsOf;
    TradeCount(pnls);
    if pnls != [] {
      AverageLessShare(Sum(pnls), cost, |pnls| as real);
    }
  }

  lemma TradeCount(pnls: seq<real>)
    ensures MetricsOf(pnls).tradeCount == |pnls|
    ensures pnls != [] ==> MetricsOf(pnls).avgTrade == Sum(pnls) / |pnls| as real
  {
  }

  /** In particular, on a run that ends flat it misses spread, slippage and twice the swap. */
  lemma NetExpectancyOnFlatRuns(setup: Setup)
    requires ValidSetup(setup) && AllClosed(Run(setup).tradeLog) && Run(setup).tradeLog != []
    ensures var r, window := Run(setup), WindowOfRun(setup);
            && window.netExpectancy.Some?
            && window.netPnl == window.netExpectancy.value * |r.tradeLog| as real
                                + r.costs.spread + r.costs.slippage + 2.0 * r.costs.swap
  {
    hide Run, AllClosed, WindowOfRun;
    NetOfLogSplits(Run(setup).tradeLog);
    FlatEquityIsBalance(setup);
    NetExpectancyExactlyWhen(setup);
  }

  lemma AverageLessShare(total: real, cost: real, n: real)
    requires n > 0.0
    ensures (total / n - cost / n) * n == total - cost
  {
    Requotient(total, n);
    Requotient(cost, n);
  }
}
