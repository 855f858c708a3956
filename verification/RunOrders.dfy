/** Which order a run executes: every trade of the log stems from a signal, at the size the caps leave of it. */
module RunOrders {
  import opened Models
  import opened RiskGate
  import opened Costs
  import opened Ledger
  import opened Engine
  import opened RunInvariant
  import opened RunSoundness
  import opened RunHistory
  import opened Causality
  import GateLaws
  import RunMoney

  // -------------------------------------------------------------- one signal

  /** Every trade opened so far, in opening order. */
  function TradesOf(book: Book): seq<LiveTrade> {
    seq(|book.closed|, k requires 0 <= k < |book.closed| => book.closed[k].trade) + book.live
  }

  /**
   The trade is the signal's, on its pair and its side. Its size is the most that the signal asks for
   and the per-trade cap leaves, and with it the book of the account is within every configured cap.
   */
  ghost predicate TradesSignal(risk: RiskConfig, account: Account, signal: Order, trade: LiveTrade) {
    && trade.pair == signal.pair && trade.direction == signal.direction
    && GateLaws.IsClipped(risk, account.equity, signal, trade.size)
    && GateLaws.WithinConfig(risk, account.equity, signal.WithSize(trade.size), account.positions)
  }

  /** Some lot on the signal's side is held already. */
  predicate SideHeld(lots: seq<Lot>, signal: Order) {
    lots != [] && lots[0].position.direction == signal.direction
  }

  /** The lot a signal opens: the signal's pair, side and stop, filled at the next bar's open. */
  predicate LotOf(model: CostModel, lot: Lot, trade: LiveTrade, signal: Order, next: Candle) {
    var friction := model.halfSpread + model.slippagePerUnit;
    && lot.position.pair == signal.pair && lot.position.direction == signal.direction
    && lot.position.size == trade.size && lot.position.stopPrice == signal.stopPrice
    && lot.position.entryPrice == trade.entryPrice
    && trade.entryPrice == (if signal.direction.Long? then next.open + friction else next.open - friction)
    && trade.entryTime == next.time && lot.swap == 0.0
  }

  /**
   What one signal does to the books. It opens a trade exactly when it is on the engine's pair, the gate
   accepts it, and its side is not held already; that trade is then the only one held, whatever was
   held before has been closed, and it is the signal's trade. Otherwise the books do not move.
   */
  lemma SignalOpensItsTrade(setup: Setup, t: nat, turn: Turn, signal: Order)
    requires ValidSetup(setup) && t < |setup.bars| - 1 && Shape(setup.Pair(), turn.book, turn.nextId)
    requires MarksTradeable(setup.model, turn.book.broker.marks)
    ensures var after := TakeSignal(setup, turn, signal, setup.bars[t], setup.bars[t + 1]);
            if signal.pair == setup.bars[0].pair && GateLaws.Accepts(setup.risk, turn.ks, signal, turn.account)
               && !SideHeld(turn.book.broker.lots, signal)
            then
              && after.nextId == turn.nextId + 1 && |after.book.live| == 1 && |after.book.broker.lots| == 1
              && TradesOf(after.book) == TradesOf(turn.book) + after.book.live
              && after.book.live[0].tradeId == turn.nextId
              && TradesSignal(setup.risk, turn.account, signal, after.book.live[0])
              && LotOf(setup.model, after.book.broker.lots[0], after.book.live[0], signal, setup.bars[t + 1])
            else after.nextId == turn.nextId && after.book == turn.book
  {
    hide Execute, Gate, ChainedLog, Unrealized, TradesSignal, LotOf, CloseTrade, OpenTrade, Aligned, GateLaws.IsClipped,
      GateLaws.WithinConfig, MarksTradeable, WellFormedBars;
    var (decision, ks) := Gate(setup.risk, turn.ks, signal, turn.account);
    GateLaws.DecisionRecords(setup.risk, turn.ks, signal, turn.account);
    if signal.pair == setup.Pair() && decision.Accepted() {
      var sized, next := decision.sizedOrder.value, setup.bars[t + 1];
      GateLaws.AcceptanceIsSound(setup.risk, turn.ks, signal, turn.account);
      ExecuteCases(setup, turn.(ks := ks, accepted := turn.accepted + 1), sized, setup.bars[t], next);
      if !SideHeld(turn.book.broker.lots, signal) {
        if turn.book.broker.lots != [] {
          CloseKeepsTrades(setup, turn.book, turn.nextId, next);
        }
        var cleared := if turn.book.broker.lots == [] then turn.book
        else CloseTrade(setup.model, turn.book, 0, next);
        OpenAddsTrade(setup.model, cleared, sized, next, turn.nextId, signal);
        SizedTradesSignal(setup.risk, turn.account, signal, sized,
                          OpenTrade(setup.model, cleared, sized, next, turn.nextId).live[0]);
      }
    }
  }

  /** One signal is judged once: by the gate when it is on the engine's pair, and it then counts as it was judged. */
  lemma SignalIsJudgedOnce(setup: Setup, t: nat, turn: Turn, signal: Order)
    requires ValidSetup(setup) && t < |setup.bars| - 1 && !turn.tripped
    requires MarksTradeable(setup.model, turn.book.broker.marks)
    ensures var after := TakeSignal(setup, turn, signal, setup.bars[t], setup.bars[t + 1]);
            var judged := signal.pair == setup.bars[0].pair;
            var accepted := judged && GateLaws.Accepts(setup.risk, turn.ks, signal, turn.account);
            && after.accepted == turn.accepted + (if accepted then 1 else 0)
            && after.rejected == turn.rejected + (if accepted then 0 else 1)
            && after.ks == (if judged then Gate(setup.risk, turn.ks, signal, turn.account).1 else turn.ks)
            && (after.tripped <==> judged && after.ks.Engaged?)
  {
    hide Execute, Gate, WellFormedBars, MarksTradeable, Tradeable, Snapshot;
    var (decision, ks) := Gate(setup.risk, turn.ks, signal, turn.account);
    GateLaws.DecisionRecords(setup.risk, turn.ks, signal, turn.account);
    GateBlamesSwitchIffEngaged(setup.risk, turn.ks, signal, turn.account);
    if signal.pair == setup.Pair() && decision.Accepted() {
      ExecuteKeepsLatch(setup.model, turn.(ks := ks, accepted := turn.accepted + 1), decision.sizedOrder.value,
                        setup.bars[t], setup.bars[t + 1]);
    }
  }

  /** The lots an accepted order closes are those on the other side of its own pair. */
  lemma {:induction false} OrderClosesTheOtherSide(lots: seq<Lot>, order: Order, id: nat)
    ensures id in OpposingIds(lots, order) <==>
              exists i :: && 0 <= i < |lots| && lots[i].tradeId == id
                          && lots[i].position.pair == order.pair && lots[i].position.direction != order.direction
  {
    if lots != [] {
      OrderClosesTheOtherSide(lots[1..], order, id);
      assert forall i :: 0 < i < |lots| ==> lots[i] == lots[1..][i - 1];
      assert forall i :: 0 <= i < |lots| - 1 ==> lots[1..][i] == lots[i + 1];
    }
  }

  lemma SizedTradesSignal(risk: RiskConfig, account: Account, signal: Order, sized: Order, trade: LiveTrade)
    requires sized == signal.WithSize(sized.size) && trade.size == sized.size
    requires trade.pair == sized.pair && trade.direction == sized.direction
    requires GateLaws.IsClipped(risk, account.equity, signal, sized.size)
    requires GateLaws.WithinConfig(risk, account.equity, sized, account.positions)
    ensures TradesSignal(risk, account, signal, trade)
  {
    hide GateLaws.IsClipped, GateLaws.WithinConfig;
  }

  lemma CloseKeepsTrades(setup: Setup, book: Book, nextId: nat, next: Candle)
    requires setup.bars != [] && Shape(setup.Pair(), book, nextId) && book.broker.lots != []
    requires Tradeable(setup.model, next.open)
    ensures var after := CloseTrade(setup.model, book, 0, next);
            after.broker.lots == [] && after.live == [] && TradesOf(after) == TradesOf(book)
  {
    hide CloseTrade, ExitAt;
    CloseForm(setup.Pair(), setup.model, book, nextId, next);
    assert book.live == [book.live[0]];
  }

  lemma OpenAddsTrade(model: CostModel, book: Book, sized: Order, next: Candle, tradeId: nat, signal: Order)
    requires Tradeable(model, next.open) && book.broker.lots == [] && book.live == []
    requires sized == signal.WithSize(sized.size)
    ensures var after := OpenTrade(model, book, sized, next, tradeId);
            && |after.live| == 1 && |after.broker.lots| == 1 && TradesOf(after) == TradesOf(book) + after.live
            && after.live[0].tradeId == tradeId && after.live[0].size == sized.size
            && after.live[0].pair == signal.pair && after.live[0].direction == signal.direction
            && LotOf(model, after.broker.lots[0], after.live[0], signal, next)
  {
    hide CommissionFor, AddFill;
  }

  // ------------------------------------------------------------- whole runs

  /** What the strategy answers at bar t, to everything it has been called with by then. */
  ghost function AnswerAt(setup: Setup, t: nat): Option<seq<Order>>
    requires ValidSetup(setup) && t < |setup.bars|
  {
    setup.strategy(Iterate(setup, t).calls + [CallAt(setup, t)])
  }

  /** The trade is what the n-th signal answered at bar t opened, judged by the account as it was by then. */
  ghost predicate OpenedBy(setup: Setup, trade: LiveTrade, t: nat, n: nat)
    requires ValidSetup(setup)
  {
    && t < |setup.bars| - 1 && Iterate(setup, t).halt.None?
    && AnswerAt(setup, t).Some? && n < |AnswerAt(setup, t).value|
    && var signals := AnswerAt(setup, t).value;
       var turn := TurnAfter(setup, t, signals, n);
       && !turn.tripped && trade.tradeId == turn.nextId
       && turn.account == Snapshot(setup.model, turn.book.broker, setup.bars[t].time)
       && TradesSignal(setup.risk, turn.account, signals[n], trade)
  }

  /** The run did put bar t's call to the strategy. */
  ghost predicate AskedAt(setup: Setup, t: nat)
    requires ValidSetup(setup)
  {
    t < |setup.bars| - 1 && Iterate(setup, t + 1).calls == Iterate(setup, t).calls + [CallAt(setup, t)]
  }

  /** The trade is that of some signal the strategy answered at bar t. */
  ghost predicate StemsFrom(setup: Setup, trade: LiveTrade, t: nat)
    requires ValidSetup(setup)
  {
    AskedAt(setup, t) && exists n :: OpenedBy(setup, trade, t, n)
  }

  /** The later trades extend the earlier ones, by trades that stem from bar t. */
  ghost predicate Stemming(setup: Setup, t: nat, earlier: seq<LiveTrade>, trades: seq<LiveTrade>)
    requires ValidSetup(setup)
  {
    && earlier <= trades
    && forall k :: |earlier| <= k < |trades| ==> StemsFrom(setup, trades[k], t)
  }

  lemma {:induction false} SignalsStem(setup: Setup, t: nat, n: nat)
    requires ValidSetup(setup) && t < |setup.bars| - 1 && Iterate(setup, t).halt.None?
    requires AskedAt(setup, t) && AnswerAt(setup, t).Some? && n <= |AnswerAt(setup, t).value|
    ensures var after := TurnAfter(setup, t, AnswerAt(setup, t).value, n);
            Stemming(setup, t, TradesOf(TurnAt(setup, t).book), TradesOf(after.book))
  {
    hide TurnAt, Iterate, TakeSignal, AnswerAt, TradesOf, TradesSignal, Snapshot, Sound, Shape, WellFormedBars;
    var signals := AnswerAt(setup, t).value;
    if n > 0 {
      SignalsStem(setup, t, n - 1);
      TurnAtIsSound(setup, t);
      SignalsSound(setup, t, TurnAt(setup, t), signals, n - 1);
      AccountFreshAtEverySignal(setup, t, signals, n - 1);
      var before := TurnAfter(setup, t, signals, n - 1);
      if !before.tripped {
        SoundIsShaped(setup, t, before.book, before.nextId);
        SignalOpensItsTrade(setup, t, before, signals[n - 1]);
        var after := TurnAfter(setup, t, signals, n);
        if after.book != before.book {
          assert OpenedBy(setup, after.book.live[0], t, n - 1);
        }
      }
    }
  }

  lemma SoundIsShaped(setup: Setup, t: nat, book: Book, nextId: nat)
    requires setup.bars != [] && Sound(setup, t, book, nextId)
    ensures Shape(setup.Pair(), book, nextId)
  {
  }

  lemma FlattenKeepsTrades(setup: Setup, t: nat, book: Book, nextId: nat)
    requires ValidSetup(setup) && t < |setup.bars| - 1 && Shape(setup.Pair(), book, nextId)
    ensures TradesOf(FlattenAll(setup.model, book, setup.bars[t + 1])) == TradesOf(book)
  {
    hide CloseTrade, FlattenAll, Shape, TradesOf;
    FlattenCases(setup, book, nextId, setup.bars[t + 1]);
    if book.broker.lots != [] {
      CloseKeepsTrades(setup, book, nextId, setup.bars[t + 1]);
    }
  }

  lemma TurnsShaped(setup: Setup, t: nat, signals: seq<Order>, n: nat)
    requires ValidSetup(setup) && t < |setup.bars| - 1 && Iterate(setup, t).halt.None? && n <= |signals|
    ensures var turn := TurnAfter(setup, t, signals, n);
            Shape(setup.Pair(), turn.book, turn.nextId)
  {
    hide TurnAt, Iterate, Sound, Shape, TakeSignals, Snapshot;
    TurnAtIsSound(setup, t);
    SignalsSound(setup, t, TurnAt(setup, t), signals, n);
    var turn := TurnAfter(setup, t, signals, n);
    SoundIsShaped(setup, t, turn.book, turn.nextId);
  }

  lemma SwapRealizesNothing(setup: Setup, t: nat)
    requires ValidSetup(setup) && t < |setup.bars| - 1
    ensures forall b: Broker ::
              ApplySwap(setup.model, setup.hour, b, setup.bars[t], setup.bars[t + 1]).realizedToday == b.realizedToday
  {
    hide ApplySwap, SwapCharge;
    forall b: Broker
      ensures ApplySwap(setup.model, setup.hour, b, setup.bars[t], setup.bars[t + 1]).realizedToday == b.realizedToday
    {
      ApplySwapKeepsTrades(setup.model, setup.hour, b, setup.bars[t], setup.bars[t + 1]);
    }
  }

  /** What a bar does to the books and the halt, told by its breach check, its answer and its turn. */
  lemma BarFollowsItsTurn(setup: Setup, t: nat)
    requires ValidSetup(setup) && t < |setup.bars| - 1 && Iterate(setup, t).halt.None?
    ensures var begun := BeginBar(setup, t, Iterate(setup, t), setup.bars[t]);
            var answer, after, next := AnswerAt(setup, t), Iterate(setup, t + 1), setup.bars[t + 1];
            if begun.ks.Engaged? then after.book == FlattenAll(setup.model, begun.book, next)
            else if answer.None? then
              after.book == FlattenAll(setup.model, begun.book, next) && after.halt == Some(Halt(t, StrategyRaised))
            else
              var turn := TurnAfter(setup, t, answer.value, |answer.value|);
              if turn.tripped then
                after.book == FlattenAll(setup.model, turn.book, next) && after.halt == Some(Halt(t, TrippedInEvaluate))
              else
                && after.book == turn.book.(broker := after.book.broker) && after.halt.None?
                && after.book.broker.realizedToday == turn.book.broker.realizedToday
  {
    hide MarkedBroker, Snapshot, CheckBreaches, FlattenAll, ApplySwap, TakeSignals, Sample, WellFormedBars;
    var st := Iterate(setup, t);
    assert Iterate(setup, t + 1) == Step(setup, t, st);
    SwapRealizesNothing(setup, t);
    var begun := BeginBar(setup, t, st, setup.bars[t]);
    if begun.ks.Released? {
      var account := AccountAt(setup, t);
      var called := begun.(calls := begun.calls + [StrategyCall(setup.bars[..t + 1], account, setup.bars[t].time)]);
      assert StartTurn(called, account) == TurnAt(setup, t);
    }
  }

  /** Whether a bar halts, trades or charges swap, its trades are those its signals opened. */
  lemma StepStems(setup: Setup, t: nat)
    requires ValidSetup(setup) && t < |setup.bars| - 1 && Iterate(setup, t).halt.None?
    ensures Stemming(setup, t, TradesOf(Iterate(setup, t).book), TradesOf(Iterate(setup, t + 1).book))
  {
    hide Iterate, MarkedBroker, Snapshot, CheckBreaches, FlattenAll, TakeSignals, StemsFrom, Shape, Breaches, AnswerAt,
      TradesOf, Tradeable, WellFormedBars, SoundBy;
    BarFollowsItsTurn(setup, t);
    TurnShape(setup, t);
    OneMoreBar(setup, t + 1);
    RunSound(setup, t);
    CheckBlames(setup.risk, AccountAt(setup, t));
    var begun := BeginBar(setup, t, Iterate(setup, t), setup.bars[t]);
    BegunKeepsTrades(setup, t);
    if begun.ks.Engaged? || AnswerAt(setup, t).None? {
      FlattenKeepsTrades(setup, t, begun.book, begun.nextId);
    } else {
      var signals := AnswerAt(setup, t).value;
      SignalsStem(setup, t, |signals|);
      TurnsShaped(setup, t, signals, |signals|);
      var turn := TurnAfter(setup, t, signals, |signals|);
      FlattenKeepsTrades(setup, t, turn.book, turn.nextId);
      SameBooksSameTrades(turn.book, Iterate(setup, t + 1).book.broker);
    }
  }

  lemma BegunKeepsTrades(setup: Setup, t: nat)
    requires ValidSetup(setup) && t < |setup.bars| - 1 && Iterate(setup, t).halt.None?
    ensures var begun := BeginBar(setup, t, Iterate(setup, t), setup.bars[t]);
            && TradesOf(begun.book) == TradesOf(Iterate(setup, t).book) == TradesOf(TurnAt(setup, t).book)
            && begun.book == TurnAt(setup, t).book && begun.nextId == TurnAt(setup, t).nextId
  {
    hide Iterate, MarkedBroker, Snapshot, CheckBreaches;
  }

  lemma SameBooksSameTrades(book: Book, broker: Broker)
    ensures TradesOf(book.(broker := broker)) == TradesOf(book)
  {
  }

  lemma DecisionsCountTrades(setup: Setup, t: nat, book: Book, nextId: nat, ds: seq<nat>)
    requires setup.bars != [] && SoundBy(setup, t, book, nextId, ds)
    ensures |TradesOf(book)| == nextId <= |ds|
    ensures Active(book, nextId) ==> |ds| == nextId
  {
    hide ClosedAt, OpenedAt, SwapOver, Aligned;
  }

  /** Every trade of some books stems from the bar given for it. */
  ghost predicate AllStem(setup: Setup, book: Book, ds: seq<nat>)
    requires ValidSetup(setup)
  {
    var trades := TradesOf(book);
    |trades| <= |ds| && forall k :: 0 <= k < |trades| ==> StemsFrom(setup, trades[k], ds[k])
  }

  lemma StemsExtend(setup: Setup, t: nat, before: Book, after: Book, ds: seq<nat>, grown: seq<nat>)
    requires ValidSetup(setup) && Stemming(setup, t, TradesOf(before), TradesOf(after))
    requires AllStem(setup, before, ds) && Grown(ds, grown, t)
    requires |ds| == |TradesOf(before)| && |TradesOf(after)| <= |grown|
    ensures AllStem(setup, after, grown)
  {
    hide StemsFrom, TradesOf;
  }

  /** After any number of bars, the decision bars that explain the books are those whose signals opened the trades. */
  lemma {:induction false} StateStems(setup: Setup, t: nat) returns (ds: seq<nat>)
    requires ValidSetup(setup) && t < |setup.bars|
    ensures StateSoundBy(setup, t, Iterate(setup, t), ds) && AllStem(setup, Iterate(setup, t).book, ds)
  {
    hide SoundBy, Step, AllStem, Stemming, Grown, Active;
    if t == 0 {
      InitialSound(setup);
      ds := [];
      NothingStems(setup);
    } else {
      var earlier := StateStems(setup, t - 1);
      ds := IterateSound(setup, t - 1, earlier);
      var before, after := Iterate(setup, t - 1), Iterate(setup, t);
      DecisionsCountTrades(setup, t - 1, before.book, before.nextId, earlier);
      DecisionsCountTrades(setup, t, after.book, after.nextId, ds);
      if before.halt.None? {
        StepStems(setup, t - 1);
        StemsExtend(setup, t - 1, before.book, after.book, earlier, ds);
      } else {
        StemsKept(setup, t - 1, before.book, earlier, ds);
      }
    }
  }

  lemma NothingStems(setup: Setup)
    requires ValidSetup(setup)
    ensures AllStem(setup, InitialState(setup).book, [])
  {
  }

  lemma StemsKept(setup: Setup, t: nat, book: Book, ds: seq<nat>, grown: seq<nat>)
    requires ValidSetup(setup) && AllStem(setup, book, ds) && Grown(ds, grown, t)
    ensures AllStem(setup, book, grown)
  {
    hide StemsFrom, TradesOf;
  }

  lemma LogListsTrades(setup: Setup, book: Book, nextId: nat)
    requires setup.bars != [] && Shape(setup.Pair(), book, nextId)
    ensures var log, trades := RunMoney.LogNow(book), TradesOf(book);
            |log| == |trades| && forall k :: 0 <= k < |log| ==> log[k].trade == trades[k]
  {
    RunMoney.LogNowForm(setup.Pair(), book, nextId);
    hide Aligned, Chained, RunMoney.LogNow;
  }

  /**
   Every trade a run reports stems from a signal. Trade k was opened by one that the strategy answered
   when it was called at bar ds[k], on that signal's pair and side, at the most of its size that the
   per-trade cap leaves at the equity of that moment, and within every other cap; and those are the
   very decision bars that explain the log's fills and swap.
   */
  lemma RunExecutesItsSignals(setup: Setup) returns (ds: seq<nat>)
    requires ValidSetup(setup)
    ensures RunMoney.DecidedAt(setup, Run(setup).tradeLog, ds, |setup.bars| - 1)
    ensures forall k :: 0 <= k < |Run(setup).tradeLog| ==>
              k < |ds| && StemsFrom(setup, Run(setup).tradeLog[k].trade, ds[k])
  {
    hide Run, Iterate, StateSoundBy, Shape, RunMoney.LogNow, RunMoney.FinalBook, Finish, RunMoney.DecidedAt,
      ExplainedBy, DecidedBefore, AllStem, StemsFrom;
    ds := StateStems(setup, |setup.bars| - 1);
    RunMoney.RunIsFinish(setup);
    var st := Iterate(setup, |setup.bars| - 1);
    RunMoney.FinalBookSound(setup, |setup.bars| - 1, st);
    RunMoney.FinishReportsFinalBook(setup, st);
    var book := RunMoney.FinalBook(setup, st);
    RunMoney.FinalBookExplained(setup, st, ds);
    RunMoney.LogNowDecided(setup, |setup.bars| - 1, book, st.nextId, ds);
    LogListsTrades(setup, book, st.nextId);
    FinalBookStems(setup, st, ds);
  }

  lemma FinalBookStems(setup: Setup, st: RunState, ds: seq<nat>)
    requires ValidSetup(setup) && AllStem(setup, st.book, ds)
    requires MarksTradeable(setup.model, st.book.broker.marks) && 0 <= LastBar(setup, st) < |setup.bars|
    ensures var trades := TradesOf(RunMoney.FinalBook(setup, st));
            |trades| <= |ds| && forall k :: 0 <= k < |trades| ==> StemsFrom(setup, trades[k], ds[k])
  {
    hide StemsFrom, MarkToMarket;
  }

  // --------------------------------------------------------------- halts

  /**
   How a bar ends the run: for a breach of its account before anything else, then because the strategy
   raised, then because the gate tripped on one of its signals; and not otherwise.
   */
  lemma BarHaltsExactlyWhen(setup: Setup, t: nat)
    requires ValidSetup(setup) && t < |setup.bars| - 1 && Iterate(setup, t).halt.None?
    ensures var account, answer, after := AccountAt(setup, t), AnswerAt(setup, t), Iterate(setup, t + 1);
            after.halt ==
              if account.peak - account.equity >= setup.risk.maxDrawdown * account.peak
              then Some(Halt(t, TrippedAtBar("drawdown")))
              else if account.dayStart - account.equity >= setup.risk.dailyLossLimit * account.dayStart
              then Some(Halt(t, TrippedAtBar("daily_loss")))
              else if answer.None? then Some(Halt(t, StrategyRaised))
              else if TurnAfter(setup, t, answer.value, |answer.value|).ks.Engaged?
              then Some(Halt(t, TrippedInEvaluate))
              else None
  {
    hide Iterate, FlattenAll, MarkedBroker, Snapshot, CheckBreaches, TakeSignals, Sample, Breaches, SoundBy, AnswerAt,
      TurnAt, WellFormedBars, Tradeable;
    var account := AccountAt(setup, t);
    RunSound(setup, t);
    OneMoreBar(setup, t + 1);
    BreachesInMoney(setup.risk, account);
    CheckBlames(setup.risk, account);
    BarFollowsItsTurn(setup, t);
    if !Breaches(setup.risk, account) {
      TurnStartsReleased(setup, t);
      var answer := AnswerAt(setup, t);
      if answer.Some? {
        UntrippedTurnIsReleased(setup, TurnAt(setup, t), answer.value, |answer.value|, setup.bars[t],
                                setup.bars[t + 1]);
      }
    }
  }
}
