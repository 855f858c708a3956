/** The trade log of a whole run: its shape and the decision bars behind each trade. */
module RunTrades {
  import opened Models
  import opened RiskGate
  import opened Costs
  import opened Ledger
  import opened Engine
  import opened RunInvariant
  import opened RunSoundness
  import RunMoney

  // ------------------------------------------------------------ the log

  /**
   A reported log: numbered from zero, only the last trade possibly open, each trade taking the
   other side of the one before and entering at the moment it exits.
   */
  predicate WellShapedLog(log: seq<TradeRecord>) {
    && (forall k :: 0 <= k < |log| ==> log[k].trade.tradeId == k)
    && (forall k :: 0 <= k < |log| - 1 ==> Chained(log[k], log[k + 1].trade))
  }

  lemma LogNowWellShaped(pair: string, book: Book, nextId: nat)
    requires Shape(pair, book, nextId)
    ensures WellShapedLog(RunMoney.LogNow(book)) && |RunMoney.LogNow(book)| == nextId
  {
    RunMoney.LogNowForm(pair, book, nextId);
  }

  /** Every trade opened in a run is logged once, in order, with the decision bars that produced it. */
  lemma TradeLogOfRun(setup: Setup) returns (ds: seq<nat>)
    requires ValidSetup(setup)
    ensures |Run(setup).tradeLog| == Iterate(setup, |setup.bars| - 1).nextId
    ensures WellShapedLog(Run(setup).tradeLog)
    ensures RunMoney.DecidedAt(setup, Run(setup).tradeLog, ds, |setup.bars| - 1)
    ensures Run(setup).halt.Some? ==> forall k :: 0 <= k < |Run(setup).tradeLog| ==> Run(setup).tradeLog[k].exit.Some?
  {
    hide Run, Iterate, Finish, StateSound, Unrealized, WellShapedLog, RunMoney.DecidedAt;
    RunMoney.RunIsFinish(setup);
    var st := Iterate(setup, |setup.bars| - 1);
    RunMoney.FinalBookSound(setup, |setup.bars| - 1, st);
    RunMoney.FinishReportsFinalBook(setup, st);
    var book := RunMoney.FinalBook(setup, st);
    ds := RunMoney.ReportedLogDecided(setup);
    LogNowWellShaped(setup.Pair(), book, st.nextId);
    if st.halt.Some? {
      HaltedIsFlat(setup, st);
      RunMoney.LogNowForm(setup.Pair(), book, st.nextId);
    }
    FinishKeepsHalt(setup, st);
  }

  lemma HaltedIsFlat(setup: Setup, st: RunState)
    requires ValidSetup(setup) && StateSound(setup, |setup.bars| - 1, st) && st.halt.Some?
    ensures st.book.broker.lots == []
  {
  }

  lemma FinishKeepsHalt(setup: Setup, st: RunState)
    requires ValidSetup(setup) && MarksTradeable(setup.model, st.book.broker.marks)
    requires 0 <= LastBar(setup, st) < |setup.bars|
    ensures Finish(setup, st).halt == st.halt
  {
  }

  // --------------------------------------------------- accounting for signals

  /** Every signal is accepted or rejected, and a trade needs an acceptance. */
  lemma SignalCounted(setup: Setup, turn: Turn, signal: Order, current: Candle, next: Candle)
    requires setup.bars != []
    requires Tradeable(setup.model, next.open) && MarksTradeable(setup.model, turn.book.broker.marks)
    ensures var after := TakeSignal(setup, turn, signal, current, next);
            && after.accepted + after.rejected == turn.accepted + turn.rejected + 1
            && turn.nextId <= after.nextId <= turn.nextId + after.accepted - turn.accepted
  {
    hide Gate, CloseTrades, OpenTrade, Snapshot, HoldsSameSide;
  }

  lemma {:induction false} TurnCounted(setup: Setup, turn: Turn, signals: seq<Order>, n: nat, current: Candle,
                                       next: Candle)
    requires setup.bars != [] && n <= |signals|
    requires Tradeable(setup.model, next.open) && MarksTradeable(setup.model, turn.book.broker.marks) && !turn.tripped
    ensures var after := TakeSignals(setup, turn, signals, n, current, next);
            && after.accepted + after.rejected <= turn.accepted + turn.rejected + n
            && (!after.tripped ==> after.accepted + after.rejected == turn.accepted + turn.rejected + n)
            && turn.nextId <= after.nextId <= turn.nextId + after.accepted - turn.accepted
  {
    hide TakeSignal;
    if n > 0 {
      TurnCounted(setup, turn, signals, n - 1, current, next);
      var before := TakeSignals(setup, turn, signals, n - 1, current, next);
      SignalCounted(setup, before, signals[n - 1], current, next);
    }
  }

  /** The counters of a state balance, except for signals left behind by a trip in mid-loop. */
  predicate Counted(st: RunState) {
    && st.accepted + st.rejected <= st.proposed
    && (st.halt.None? || !st.halt.value.cause.TrippedInEvaluate? ==> st.accepted + st.rejected == st.proposed)
    && st.nextId <= st.accepted
  }

  lemma StepCounted(setup: Setup, t: nat, st: RunState)
    requires ValidSetup(setup) && t < |setup.bars| - 1
    requires MarksTradeable(setup.model, st.book.broker.marks) && st.halt.None? && Counted(st)
    ensures Counted(Step(setup, t, st))
  {
    hide TakeSignals, MarkedBroker, CheckBreaches, Snapshot, ApplySwap, FlattenAll, Unrealized;
    var current, next := setup.bars[t], setup.bars[t + 1];
    var begun := BeginBar(setup, t, st, current);
    if begun.ks.Released? {
      var account := AccountAtBar(setup, st, current);
      var called := begun.(calls := begun.calls + [StrategyCall(setup.bars[..t + 1], account, current.time)]);
      var answer := setup.strategy(called.calls);
      if answer.Some? {
        TurnCounted(setup, StartTurn(called, account), answer.value, |answer.value|, current, next);
      }
    }
  }

  lemma {:induction false} StateCounted(setup: Setup, t: nat)
    requires ValidSetup(setup) && t < |setup.bars|
    ensures Counted(Iterate(setup, t))
  {
    hide Step, Counted;
    if t == 0 {
      assert Counted(InitialState(setup)) by {
        NothingCounted(setup);
      }
    } else {
      StateCounted(setup, t - 1);
      if Iterate(setup, t - 1).halt.None? {
        StepCounted(setup, t - 1, Iterate(setup, t - 1));
      }
    }
  }

  lemma NothingCounted(setup: Setup)
    ensures Counted(InitialState(setup))
  {
  }

  /**
   Conservation of signals: a run reports every proposed signal as accepted or rejected, unless a
   trip in the middle of a bar left some unevaluated, and it never logs more trades than acceptances.
   */
  lemma SignalsAccounted(setup: Setup)
    requires ValidSetup(setup)
    ensures var r := Run(setup);
            && r.accepted + r.rejected <= r.proposed
            && (r.accepted + r.rejected < r.proposed ==> r.halt.Some? && r.halt.value.cause == TrippedInEvaluate)
            && |r.tradeLog| <= r.accepted
  {
    hide Run, Iterate, StateSound, WellShapedLog, RunMoney.DecidedAt, Snapshot, MarkToMarket, StillOpen, MaxDrawdownPct;
    RunMoney.RunIsFinish(setup);
    StateCounted(setup, |setup.bars| - 1);
    var _ := TradeLogOfRun(setup);
  }
}
