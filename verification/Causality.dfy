/**
 What a run may depend on: the account every risk decision sees is the broker's own at that
 moment, and nothing the strategy sees or the equity curve records depends on a later bar.
 The one place the next bar does leak into is stated exactly.
 */
module Causality {
  import opened Models
  import opened RiskGate
  import opened Costs
  import opened Rollover
  import opened Ledger
  import opened Engine
  import opened RunInvariant
  import opened RunSoundness
  import opened RunHistory
  import RunMoney

  // -------------------------------------------------------- account freshness

  ghost predicate Fresh(setup: Setup, turn: Turn, asOf: int)
    requires MarksTradeable(setup.model, turn.book.broker.marks)
  {
    turn.account == Snapshot(setup.model, turn.book.broker, asOf)
  }

  lemma SignalKeepsFresh(setup: Setup, t: nat, turn: Turn, signal: Order)
    requires ValidSetup(setup) && t < |setup.bars| - 1
    requires MarksTradeable(setup.model, turn.book.broker.marks)
    requires Sound(setup, t, turn.book, turn.nextId) && Fresh(setup, turn, setup.bars[t].time)
    ensures Fresh(setup, TakeSignal(setup, turn, signal, setup.bars[t], setup.bars[t + 1]), setup.bars[t].time)
  {
    hide Execute, Gate, Snapshot, CloseTrade, OpenTrade, ExplainedBy, CashAccounted, CashAttributed, CostsAccounted,
      ChainedLog;
    var (decision, ks) := Gate(setup.risk, turn.ks, signal, turn.account);
    if signal.pair == setup.Pair() && decision.Accepted() && decision.sizedOrder.Some? {
      GateKeepsPair(setup.risk, turn.ks, signal, turn.account);
      ExecuteCases(setup, turn.(ks := ks, accepted := turn.accepted + 1), decision.sizedOrder.value,
                   setup.bars[t], setup.bars[t + 1]);
    }
  }

  lemma {:induction false} SignalsKeepFresh(setup: Setup, t: nat, turn: Turn, signals: seq<Order>, n: nat)
    requires ValidSetup(setup) && t < |setup.bars| - 1 && n <= |signals|
    requires MarksTradeable(setup.model, turn.book.broker.marks)
    requires Sound(setup, t, turn.book, turn.nextId) && Active(turn.book, turn.nextId)
    requires Fresh(setup, turn, setup.bars[t].time)
    ensures Fresh(setup, TakeSignals(setup, turn, signals, n, setup.bars[t], setup.bars[t + 1]), setup.bars[t].time)
  {
    hide Sound, TakeSignal, Fresh;
    if n > 0 {
      SignalsKeepFresh(setup, t, turn, signals, n - 1);
      SignalsSound(setup, t, turn, signals, n - 1);
      var before := TakeSignals(setup, turn, signals, n - 1, setup.bars[t], setup.bars[t + 1]);
      if !before.tripped {
        SignalKeepsFresh(setup, t, before, signals[n - 1]);
      }
    }
  }

  /** The turn in which bar t's signals are taken. */
  ghost function TurnAt(setup: Setup, t: nat): Turn
    requires ValidSetup(setup) && t < |setup.bars|
  {
    StartTurn(BeginBar(setup, t, Iterate(setup, t), setup.bars[t]), AccountAt(setup, t))
  }

  lemma TurnAtIsSound(setup: Setup, t: nat)
    requires ValidSetup(setup) && t < |setup.bars| - 1 && Iterate(setup, t).halt.None?
    ensures var turn := TurnAt(setup, t);
            && MarksTradeable(setup.model, turn.book.broker.marks)
            && Sound(setup, t, turn.book, turn.nextId) && Active(turn.book, turn.nextId)
            && Fresh(setup, turn, setup.bars[t].time)
  {
    hide Iterate, SoundBy, Snapshot, MarkedBroker, CheckBreaches;
    RunSound(setup, t);
    var ds :| StateSoundBy(setup, t, Iterate(setup, t), ds);
    BeginSound(setup, t, Iterate(setup, t), ds);
  }

  /**
   Although the engine re-takes its snapshot only after an open, the account each signal is
   evaluated against is always the broker's own snapshot at that moment.
   */
  lemma AccountFreshAtEverySignal(setup: Setup, t: nat, signals: seq<Order>, n: nat)
    requires ValidSetup(setup) && t < |setup.bars| - 1 && n <= |signals| && Iterate(setup, t).halt.None?
    ensures var turn := TakeSignals(setup, TurnAt(setup, t), signals, n, setup.bars[t], setup.bars[t + 1]);
            turn.account == Snapshot(setup.model, turn.book.broker, setup.bars[t].time)
  {
    hide TurnAt, Iterate, Sound, Snapshot, TakeSignals;
    TurnAtIsSound(setup, t);
    SignalsKeepFresh(setup, t, TurnAt(setup, t), signals, n);
  }

  // ------------------------------------------------- only the next open and time

  predicate SameFill(a: Candle, b: Candle) {
    a.open == b.open && a.time == b.time
  }

  lemma {:induction false} CloseTradesSeesFill(model: CostModel, book: Book, ids: seq<nat>, a: Candle, b: Candle)
    requires Tradeable(model, a.open) && SameFill(a, b)
    ensures CloseTrades(model, book, ids, a) == CloseTrades(model, book, ids, b)
    decreases |ids|
  {
    if ids != [] {
      var i := LotIndex(book.broker.lots, ids[0]);
      if i < |book.broker.lots| {
        assert CloseTrade(model, book, i, a) == CloseTrade(model, book, i, b) by {
          hide Pnl, CommissionFor, AddFill;
        }
        hide CloseTrade;
        CloseTradesSeesFill(model, CloseTrade(model, book, i, a), ids[1..], a, b);
      } else {
        CloseTradesSeesFill(model, book, ids[1..], a, b);
      }
    }
  }

  lemma ExecuteSeesFill(model: CostModel, turn: Turn, sized: Order, current: Candle, a: Candle, b: Candle)
    requires Tradeable(model, a.open) && SameFill(a, b) && MarksTradeable(model, turn.book.broker.marks)
    ensures Execute(model, turn, sized, current, a) == Execute(model, turn, sized, current, b)
  {
    CloseTradesSeesFill(model, turn.book, OpposingIds(turn.book.broker.lots, sized), a, b);
    hide CloseTrades, Unrealized, CommissionFor, AddFill;
  }

  lemma {:induction false} SignalsSeeFill(A: Setup, B: Setup, turn: Turn, signals: seq<Order>, n: nat, current: Candle,
                                          a: Candle, b: Candle)
    requires A.bars != [] && B.bars != [] && A.bars[0] == B.bars[0] && B == A.(bars := B.bars) && n <= |signals|
    requires Tradeable(A.model, a.open) && SameFill(a, b) && MarksTradeable(A.model, turn.book.broker.marks)
    ensures TakeSignals(A, turn, signals, n, current, a) == TakeSignals(B, turn, signals, n, current, b)
  {
    hide Execute, Gate;
    if n > 0 {
      SignalsSeeFill(A, B, turn, signals, n - 1, current, a, b);
      var before := TakeSignals(A, turn, signals, n - 1, current, a);
      if !before.tripped {
        var (decision, ks) := Gate(A.risk, before.ks, signals[n - 1], before.account);
        if decision.Accepted() && decision.sizedOrder.Some? {
          ExecuteSeesFill(A.model, before.(ks := ks, accepted := before.accepted + 1), decision.sizedOrder.value,
                          current, a, b);
        }
      }
    }
  }

  /** Two histories with the same strategy, caps and costs. */
  ghost predicate Comparable(A: Setup, B: Setup) {
    ValidSetup(A) && ValidSetup(B) && B == A.(bars := B.bars)
  }

  lemma FlattenSeesFill(model: CostModel, book: Book, a: Candle, b: Candle)
    requires Tradeable(model, a.open) && SameFill(a, b)
    ensures FlattenAll(model, book, a) == FlattenAll(model, book, b)
  {
    CloseTradesSeesFill(model, book, IdsOf(book.broker.lots), a, b);
  }

  lemma TradeSeesFill(A: Setup, B: Setup, t: nat, st: RunState, account: Account)
    requires Comparable(A, B) && t < |A.bars| - 1 && t < |B.bars| - 1 && A.bars[..t + 1] == B.bars[..t + 1]
    requires SameFill(A.bars[t + 1], B.bars[t + 1])
    requires MarksTradeable(A.model, st.book.broker.marks) && st.halt.None?
    ensures Trade(A, t, st, account, A.bars[t], A.bars[t + 1]) == Trade(B, t, st, account, B.bars[t], B.bars[t + 1])
  {
    assert A.bars[t] == A.bars[..t + 1][t] && B.bars[t] == B.bars[..t + 1][t];
    assert A.bars[0] == A.bars[..t + 1][0] && B.bars[0] == B.bars[..t + 1][0];
    var current, a, b := A.bars[t], A.bars[t + 1], B.bars[t + 1];
    var called := st.(calls := st.calls + [StrategyCall(A.bars[..t + 1], account, current.time)]);
    match A.strategy(called.calls)
    case None =>
      FlattenSeesFill(A.model, called.book, a, b);
    case Some(signals) =>
      var start := StartTurn(called, account);
      SignalsSeeFill(A, B, start, signals, |signals|, current, a, b);
      var turn := TakeSignals(A, start, signals, |signals|, current, a);
      FlattenSeesFill(A.model, turn.book, a, b);
      hide TakeSignals, FlattenAll, ChargeFirstLots, Rollovers, GapMultiplier;
  }

  lemma StepSeesFill(A: Setup, B: Setup, t: nat, st: RunState)
    requires Comparable(A, B) && t < |A.bars| - 1 && t < |B.bars| - 1 && A.bars[..t + 1] == B.bars[..t + 1]
    requires SameFill(A.bars[t + 1], B.bars[t + 1])
    requires MarksTradeable(A.model, st.book.broker.marks) && st.halt.None?
    ensures Step(A, t, st) == Step(B, t, st)
  {
    hide MarkedBroker, Snapshot, CheckBreaches, Trade, FlattenAll;
    assert A.bars[t] == A.bars[..t + 1][t] && B.bars[t] == B.bars[..t + 1][t];
    var begun := BeginBar(A, t, st, A.bars[t]);
    MarkedAlike(A, B, st.book.broker, A.bars[t]);
    assert begun == BeginBar(B, t, st, B.bars[t]);
    TradeSeesFill(A, B, t, begun, AccountAtBar(A, st, A.bars[t]));
    FlattenSeesFill(A.model, begun.book, A.bars[t + 1], B.bars[t + 1]);
  }

  lemma MarkedAlike(A: Setup, B: Setup, b: Broker, bar: Candle)
    requires B == A.(bars := B.bars) && MarksTradeable(A.model, b.marks) && Tradeable(A.model, bar.close)
    ensures MarkedBroker(A, b, bar) == MarkedBroker(B, b, bar)
  {
    hide Unrealized, BarDay;
  }

  // ------------------------------------------------------------ no look-ahead

  /** Entering bar t, the whole state is determined by bars 0 to t, and of bar t only its open and time matter. */
  lemma {:induction false} StateDeterminedByPast(A: Setup, B: Setup, t: nat)
    requires Comparable(A, B) && t < |A.bars| && t < |B.bars| && A.bars[..t] == B.bars[..t]
    requires SameFill(A.bars[t], B.bars[t])
    ensures Iterate(A, t) == Iterate(B, t)
  {
    hide Step;
    if t > 0 {
      assert A.bars[..t - 1] == A.bars[..t][..t - 1] && B.bars[..t - 1] == B.bars[..t][..t - 1];
      assert A.bars[t - 1] == A.bars[..t][t - 1] && B.bars[t - 1] == B.bars[..t][t - 1];
      StateDeterminedByPast(A, B, t - 1);
      if Iterate(A, t - 1).halt.None? {
        StepSeesFill(A, B, t - 1, Iterate(A, t - 1));
      }
    }
  }

  /**
   No look-ahead: two histories that agree on bars 0 to t give the same state entering bar t, the
   same account and equity sample at bar t, the same strategy call, and so the same answer.
   */
  lemma NoLookAhead(A: Setup, B: Setup, t: nat)
    requires Comparable(A, B) && t < |A.bars| && t < |B.bars| && A.bars[..t + 1] == B.bars[..t + 1]
    ensures Iterate(A, t) == Iterate(B, t)
    ensures AccountAt(A, t) == AccountAt(B, t)
    ensures Sample(t, AccountAt(A, t)) == Sample(t, AccountAt(B, t))
    ensures CallAt(A, t) == CallAt(B, t)
    ensures TurnAt(A, t) == TurnAt(B, t)
  {
    assert A.bars[t] == A.bars[..t + 1][t] && B.bars[t] == B.bars[..t + 1][t];
    assert A.bars[..t] == A.bars[..t + 1][..t] && B.bars[..t] == B.bars[..t + 1][..t];
    StateDeterminedByPast(A, B, t);
    hide Iterate, MarkedBroker, Snapshot, CheckBreaches;
    MarkedAlike(A, B, Iterate(A, t).book.broker, A.bars[t]);
  }

  /** Later bars only append to the record, and nothing at all once the run has halted. */
  lemma {:induction false} LaterExtends(setup: Setup, s: nat, u: nat)
    requires ValidSetup(setup) && s <= u < |setup.bars|
    ensures Iterate(setup, s).curve <= Iterate(setup, u).curve && Iterate(setup, s).calls <= Iterate(setup, u).calls
    ensures Iterate(setup, s).halt.Some? ==> Iterate(setup, u) == Iterate(setup, s)
  {
    hide Iterate, AccountAt, CallAt, Sample, Breaches;
    if s < u {
      LaterExtends(setup, s, u - 1);
      OneMoreBar(setup, u);
    }
  }

  /** The state a run ends in. */
  ghost function FinalState(setup: Setup): RunState
    requires ValidSetup(setup)
  {
    Iterate(setup, |setup.bars| - 1)
  }

  function FirstOf<T>(s: seq<T>, n: nat): seq<T> {
    if |s| <= n then s else s[..n]
  }

  /** What bar t adds to the record depends on no later bar. */
  lemma RecordsAgree(A: Setup, B: Setup, t: nat)
    requires Comparable(A, B) && t < |A.bars| - 1 && t < |B.bars| - 1 && A.bars[..t + 1] == B.bars[..t + 1]
    ensures Iterate(A, t) == Iterate(B, t)
    ensures Iterate(A, t).halt.None? ==>
              && Iterate(A, t + 1).curve == Iterate(B, t + 1).curve && |Iterate(A, t + 1).curve| == t + 1
              && Iterate(A, t + 1).calls == Iterate(B, t + 1).calls
              && (|Iterate(A, t + 1).calls| == t + 1 || (Iterate(A, t + 1).halt.Some? && Iterate(B, t + 1).halt.Some?))
              && |Iterate(A, t + 1).calls| <= t + 1
  {
    hide Iterate, AccountAt, CallAt, Sample, Breaches, TurnAt;
    NoLookAhead(A, B, t);
    OneMoreBar(A, t + 1);
    OneMoreBar(B, t + 1);
    RunRecords(A, t);
    assert Breaches(A.risk, AccountAt(A, t)) == Breaches(B.risk, AccountAt(B, t));
  }

  /**
   No look-ahead over whole runs: two histories that agree on bars 0 to t report the same equity
   samples 0 to t, and put the same calls to the strategy up to bar t, whatever follows.
   */
  lemma RunsAgreeOnThePast(A: Setup, B: Setup, t: nat)
    requires Comparable(A, B) && t < |A.bars| - 1 && t < |B.bars| - 1 && A.bars[..t + 1] == B.bars[..t + 1]
    ensures FirstOf(Run(A).curve, t + 1) == FirstOf(Run(B).curve, t + 1)
    ensures FirstOf(FinalState(A).calls, t + 1) == FirstOf(FinalState(B).calls, t + 1)
  {
    hide Iterate, Run, Finish, FinalState, StateSound;
    RecordsAgree(A, B, t);
    EndsInFinalState(A);
    EndsInFinalState(B);
    LaterExtends(A, t, |A.bars| - 1);
    LaterExtends(B, t, |B.bars| - 1);
    if Iterate(A, t).halt.Some? {
      RunRecords(A, t);
      HaltBeforeBar(A, t);
      FinishAlike(A, B, t, Iterate(A, t));
    } else {
      LaterExtends(A, t + 1, |A.bars| - 1);
      LaterExtends(B, t + 1, |B.bars| - 1);
    }
  }

  lemma HaltBeforeBar(setup: Setup, t: nat)
    requires ValidSetup(setup) && t < |setup.bars| && Iterate(setup, t).halt.Some?
    ensures Iterate(setup, t).halt.value.at < t
  {
  }

  /** The reported curve is that of the final state and one more sample. */
  lemma EndsInFinalState(setup: Setup)
    requires ValidSetup(setup)
    ensures FinalState(setup) == Iterate(setup, |setup.bars| - 1)
    ensures 0 <= LastBar(setup, FinalState(setup)) < |setup.bars|
    ensures Run(setup) == Finish(setup, FinalState(setup))
    ensures |Run(setup).curve| == |FinalState(setup).curve| + 1 && FinalState(setup).curve <= Run(setup).curve
  {
    hide Iterate, StateSound, Unrealized, StillOpen, MaxDrawdownPct;
    RunMoney.RunIsFinish(setup);
  }

  lemma FinishAlike(A: Setup, B: Setup, t: nat, st: RunState)
    requires Comparable(A, B) && t < |A.bars| && t < |B.bars| && A.bars[..t + 1] == B.bars[..t + 1]
    requires st.halt.Some? && st.halt.value.at < t && MarksTradeable(A.model, st.book.broker.marks)
    ensures Finish(A, st).curve == Finish(B, st).curve
  {
    var at := st.halt.value.at;
    assert A.bars[at] == A.bars[..t + 1][at] && B.bars[at] == B.bars[..t + 1][at];
    hide Unrealized, StillOpen, MaxDrawdownPct;
  }

  // ------------------------------------- where the next bar does reach a decision

  /** A signal that opens nothing leaves the account, the latch and the count as they were, whatever the next bar. */
  lemma {:induction false} SilentBeforeFirstOpen(setup: Setup, turn: Turn, signals: seq<Order>, n: nat,
                                                 current: Candle, a: Candle, b: Candle)
    requires setup.bars != [] && n <= |signals| && !turn.tripped
    requires Tradeable(setup.model, a.open) && Tradeable(setup.model, b.open)
    requires MarksTradeable(setup.model, turn.book.broker.marks)
    requires Shape(setup.Pair(), turn.book, turn.nextId)
    requires TakeSignals(setup, turn, signals, n, current, a).nextId == turn.nextId
    ensures TakeSignals(setup, turn, signals, n, current, b) == TakeSignals(setup, turn, signals, n, current, a)
    ensures TakeSignals(setup, turn, signals, n, current, a).account == turn.account
    ensures TakeSignals(setup, turn, signals, n, current, a).book == turn.book
  {
    hide Execute, Gate, CloseTrade, OpenTrade, ChainedLog, Snapshot;
    if n > 0 {
      NextIdGrows(setup, turn, signals, n - 1, current, a);
      NextIdGrowsOne(setup, TakeSignals(setup, turn, signals, n - 1, current, a), signals[n - 1], current, a);
      SilentBeforeFirstOpen(setup, turn, signals, n - 1, current, a, b);
      var before := TakeSignals(setup, turn, signals, n - 1, current, a);
      if !before.tripped {
        var (decision, ks) := Gate(setup.risk, before.ks, signals[n - 1], before.account);
        if signals[n - 1].pair == setup.Pair() && decision.Accepted() && decision.sizedOrder.Some? {
          GateKeepsPair(setup.risk, before.ks, signals[n - 1], before.account);
          var next := before.(ks := ks, accepted := before.accepted + 1);
          ExecuteCases(setup, next, decision.sizedOrder.value, current, a);
          ExecuteCases(setup, next, decision.sizedOrder.value, current, b);
        }
      }
    }
  }

  lemma NextIdGrowsOne(setup: Setup, turn: Turn, signal: Order, current: Candle, next: Candle)
    requires setup.bars != [] && Tradeable(setup.model, next.open)
         && MarksTradeable(setup.model, turn.book.broker.marks)
    ensures turn.nextId <= TakeSignal(setup, turn, signal, current, next).nextId <= turn.nextId + 1
  {
    hide Gate, CloseTrades, OpenTrade, Unrealized;
  }

  lemma {:induction false} NextIdGrows(setup: Setup, turn: Turn, signals: seq<Order>, n: nat, current: Candle,
                                       next: Candle)
    requires setup.bars != [] && n <= |signals| && Tradeable(setup.model, next.open)
    requires MarksTradeable(setup.model, turn.book.broker.marks)
    ensures TakeSignals(setup, turn, signals, n, current, next).nextId >= turn.nextId
  {
    hide TakeSignal;
    if n > 0 {
      NextIdGrows(setup, turn, signals, n - 1, current, next);
      NextIdGrowsOne(setup, TakeSignals(setup, turn, signals, n - 1, current, next), signals[n - 1], current, next);
    }
  }

  ghost predicate HoldsLotFilledAt(model: CostModel, lots: seq<Lot>, open: PositiveDecimal)
    requires Tradeable(model, open)
  {
    |lots| == 1 && lots[0].position.entryPrice == EntryPrice(lots[0].position.direction, open, model)
  }

  lemma SignalHoldsLotFilledHere(setup: Setup, t: nat, turn: Turn, signal: Order)
    requires ValidSetup(setup) && t < |setup.bars| - 1
    requires Sound(setup, t, turn.book, turn.nextId) && MarksTradeable(setup.model, turn.book.broker.marks)
    ensures var after := TakeSignal(setup, turn, signal, setup.bars[t], setup.bars[t + 1]);
            && after.nextId >= turn.nextId
            && (after.nextId > turn.nextId
                || HoldsLotFilledAt(setup.model, turn.book.broker.lots, setup.bars[t + 1].open) ==>
                  HoldsLotFilledAt(setup.model, after.book.broker.lots, setup.bars[t + 1].open))
  {
    hide Execute, Gate, ExplainedBy, CashAccounted, CashAttributed, CostsAccounted, ChainedLog, Unrealized,
      CommissionFor, AddFill, Pnl;
    var next := setup.bars[t + 1];
    var (decision, ks) := Gate(setup.risk, turn.ks, signal, turn.account);
    if signal.pair == setup.Pair() && decision.Accepted() && decision.sizedOrder.Some? {
      GateKeepsPair(setup.risk, turn.ks, signal, turn.account);
      ExecuteCases(setup, turn.(ks := ks, accepted := turn.accepted + 1), decision.sizedOrder.value, setup.bars[t],
                   next);
      if turn.book.broker.lots != [] {
        CloseForm(setup.Pair(), setup.model, turn.book, turn.nextId, next);
        hide CloseTrade;
      }
    }
  }

  lemma {:induction false} SignalsHoldLotFilledHere(setup: Setup, t: nat, turn: Turn, signals: seq<Order>, n: nat)
    requires ValidSetup(setup) && t < |setup.bars| - 1 && n <= |signals|
    requires Sound(setup, t, turn.book, turn.nextId) && Active(turn.book, turn.nextId)
    requires MarksTradeable(setup.model, turn.book.broker.marks)
    ensures var after := TakeSignals(setup, turn, signals, n, setup.bars[t], setup.bars[t + 1]);
            after.nextId > turn.nextId ==> HoldsLotFilledAt(setup.model, after.book.broker.lots, setup.bars[t + 1].open)
  {
    hide Sound, TakeSignal, HoldsLotFilledAt;
    if n > 0 {
      SignalsHoldLotFilledHere(setup, t, turn, signals, n - 1);
      SignalsSound(setup, t, turn, signals, n - 1);
      NextIdGrows(setup, turn, signals, n - 1, setup.bars[t], setup.bars[t + 1]);
      var before := TakeSignals(setup, turn, signals, n - 1, setup.bars[t], setup.bars[t + 1]);
      if !before.tripped {
        SignalHoldsLotFilledHere(setup, t, before, signals[n - 1]);
      }
    }
  }

  /** The turn after the first n of some signals at bar t. */
  ghost function TurnAfter(setup: Setup, t: nat, signals: seq<Order>, n: nat): (turn: Turn)
    requires ValidSetup(setup) && t < |setup.bars| - 1 && n <= |signals|
    ensures MarksTradeable(setup.model, turn.book.broker.marks)
  {
    TakeSignals(setup, TurnAt(setup, t), signals, n, setup.bars[t], setup.bars[t + 1])
  }

  lemma OpenedSinceHolds(setup: Setup, t: nat, signals: seq<Order>, n: nat)
    requires ValidSetup(setup) && t < |setup.bars| - 1 && n <= |signals| && Iterate(setup, t).halt.None?
    requires TurnAfter(setup, t, signals, n).nextId != TurnAt(setup, t).nextId
    ensures var positions := TurnAfter(setup, t, signals, n).account.positions;
            && |positions| == 1
            && positions[0].entryPrice == EntryPrice(positions[0].direction, setup.bars[t + 1].open, setup.model)
  {
    hide TurnAt, Iterate, Sound, TakeSignals, Unrealized;
    TurnAtIsSound(setup, t);
    NextIdGrows(setup, TurnAt(setup, t), signals, n, setup.bars[t], setup.bars[t + 1]);
    SignalsHoldLotFilledHere(setup, t, TurnAt(setup, t), signals, n);
    AccountFreshAtEverySignal(setup, t, signals, n);
  }

  lemma SilentTurnsAgree(A: Setup, B: Setup, t: nat, signals: seq<Order>, n: nat)
    requires Comparable(A, B) && t < |A.bars| - 1 && t < |B.bars| - 1 && A.bars[..t + 1] == B.bars[..t + 1]
    requires n <= |signals| && Iterate(A, t).halt.None?
    requires TurnAfter(A, t, signals, n).nextId == TurnAt(A, t).nextId
    ensures TurnAfter(A, t, signals, n) == TurnAfter(B, t, signals, n)
  {
    assert A.bars[t] == A.bars[..t + 1][t] && B.bars[t] == B.bars[..t + 1][t];
    assert A.bars[0] == A.bars[..t + 1][0] && B.bars[0] == B.bars[..t + 1][0];
    hide TurnAt, Iterate, TakeSignals, AccountAt, CallAt, Sample, Shape, Tradeable, WellFormedBars;
    NoLookAhead(A, B, t);
    TurnShape(A, t);
    var turn := TurnAt(A, t);
    SilentBeforeFirstOpen(A, turn, signals, n, A.bars[t], A.bars[t + 1], B.bars[t + 1]);
    SignalsSeeFill(A, B, turn, signals, n, A.bars[t], B.bars[t + 1], B.bars[t + 1]);
  }

  lemma TurnShape(setup: Setup, t: nat)
    requires ValidSetup(setup) && t < |setup.bars| - 1 && Iterate(setup, t).halt.None?
    ensures var turn := TurnAt(setup, t);
            !turn.tripped && MarksTradeable(setup.model, turn.book.broker.marks)
                && Shape(setup.Pair(), turn.book, turn.nextId)
  {
    hide Iterate, ExplainedBy, CashAccounted, CashAttributed, CostsAccounted, Shape, BeginBar, AccountAt;
    TurnAtIsSound(setup, t);
  }

  /**
   Exactly where the next bar reaches a risk decision. Take two histories that agree up to bar t
   but open the next bar at different prices: after n of bar t's signals, the account the next
   signal is evaluated against is the same in both if and only if none of the n opened a lot.
   */
  lemma NextOpenReachesDecisionsExactlyAfterAnOpen(A: Setup, B: Setup, t: nat, signals: seq<Order>, n: nat)
    requires Comparable(A, B) && t < |A.bars| - 1 && t < |B.bars| - 1 && A.bars[..t + 1] == B.bars[..t + 1]
    requires n <= |signals| && Iterate(A, t).halt.None?
    requires A.bars[t + 1].open != B.bars[t + 1].open
    ensures TurnAfter(A, t, signals, n).account == TurnAfter(B, t, signals, n).account <==>
              TurnAfter(A, t, signals, n).nextId == TurnAt(A, t).nextId
  {
    hide TurnAt, TurnAfter, Iterate;
    NoLookAhead(A, B, t);
    if TurnAfter(A, t, signals, n).nextId == TurnAt(A, t).nextId {
      SilentTurnsAgree(A, B, t, signals, n);
    } else {
      if TurnAfter(B, t, signals, n).nextId == TurnAt(B, t).nextId {
        SilentTurnsAgree(B, A, t, signals, n);
      }
      OpenedSinceHolds(A, t, signals, n);
      OpenedSinceHolds(B, t, signals, n);
    }
  }

  // ------------------------------------------------------------ a single slot

  lemma FullBookRejects(cfg: RiskConfig, ks: KillSwitch, order: Order, account: Account)
    requires |account.positions| >= cfg.maxConcurrentPositions
    ensures !Gate(cfg, ks, order, account).0.Accepted()
  {
    hide LimitsAt, GateOnCaps, Account.DrawdownPct, Account.DailyLossPct;
  }

  /** The gate blames the position cap exactly when nothing before it objects and the book is full. */
  lemma GateBlamesPositionCap(cfg: RiskConfig, ks: KillSwitch, order: Order, account: Account)
    requires ks.Released?
    ensures MaxConcurrentPositions in Gate(cfg, ks, order, account).0.rejectedBy <==>
              && order.StopDistance() > 0.0 && account.equity > 0.0 && !Breaches(cfg, account)
              && |account.positions| >= cfg.maxConcurrentPositions
  {
    hide Account.DrawdownPct, Account.DailyLossPct, LimitsAt, Sized, BreaksSomeGroup, NotionalIn, RiskAtStopOf,
      Order.Notional, Order.RiskAtStop;
  }

  /**
   The position cap in a run, signal by signal: it rejects exactly when it is set to one, a lot is
   held, and nothing earlier in the gate objects. At any higher setting it never rejects anything.
   */
  lemma PositionCapRejectsExactlyWhen(setup: Setup, t: nat, signals: seq<Order>, n: nat)
    requires ValidSetup(setup) && t < |setup.bars| - 1 && n < |signals| && Iterate(setup, t).halt.None?
    requires !Breaches(setup.risk, AccountAt(setup, t)) && !TurnAfter(setup, t, signals, n).tripped
    ensures var turn, signal := TurnAfter(setup, t, signals, n), signals[n];
            MaxConcurrentPositions in Gate(setup.risk, turn.ks, signal, turn.account).0.rejectedBy <==>
              && setup.risk.maxConcurrentPositions == 1 && turn.book.broker.lots != []
              && signal.StopDistance() > 0.0 && turn.account.equity > 0.0 && !Breaches(setup.risk, turn.account)
  {
    hide TurnAt, Iterate, Sound, TakeSignals, Unrealized, Gate, Breaches, AccountAt, Order.StopDistance;
    TurnAtIsSound(setup, t);
    TurnStartsReleased(setup, t);
    var start, current, next := TurnAt(setup, t), setup.bars[t], setup.bars[t + 1];
    AccountFreshAtEverySignal(setup, t, signals, n);
    SignalsSound(setup, t, start, signals, n);
    UntrippedTurnIsReleased(setup, start, signals, n, current, next);
    var turn := TurnAfter(setup, t, signals, n);
    AtMostOneLot(setup, t, turn.book, turn.nextId);
    GateBlamesPositionCap(setup.risk, turn.ks, signals[n], turn.account);
  }

  lemma TurnStartsReleased(setup: Setup, t: nat)
    requires ValidSetup(setup) && t < |setup.bars| - 1 && Iterate(setup, t).halt.None?
    requires !Breaches(setup.risk, AccountAt(setup, t))
    ensures TurnAt(setup, t).ks.Released? && !TurnAt(setup, t).tripped
  {
    hide Iterate, MarkedBroker, Snapshot, SoundBy, Account.DrawdownPct, Account.DailyLossPct;
    RunSound(setup, t);
  }

  lemma AtMostOneLot(setup: Setup, t: nat, book: Book, nextId: nat)
    requires setup.bars != [] && Sound(setup, t, book, nextId)
    ensures |book.broker.lots| <= 1
  {
  }

  lemma {:induction false} SignalsOpenAtMostOne(setup: Setup, t: nat, turn: Turn, signals: seq<Order>, n: nat)
    requires ValidSetup(setup) && t < |setup.bars| - 1 && n <= |signals| && setup.risk.maxConcurrentPositions == 1
    requires MarksTradeable(setup.model, turn.book.broker.marks)
    requires Sound(setup, t, turn.book, turn.nextId) && Active(turn.book, turn.nextId)
    requires Fresh(setup, turn, setup.bars[t].time) && turn.nextId <= 1
    ensures TakeSignals(setup, turn, signals, n, setup.bars[t], setup.bars[t + 1]).nextId <= 1
  {
    hide Sound, Execute, Gate, Unrealized;
    if n > 0 {
      SignalsOpenAtMostOne(setup, t, turn, signals, n - 1);
      SignalsKeepFresh(setup, t, turn, signals, n - 1);
      SignalsSound(setup, t, turn, signals, n - 1);
      var before := TakeSignals(setup, turn, signals, n - 1, setup.bars[t], setup.bars[t + 1]);
      if !before.tripped {
        NextIdGrowsOne(setup, before, signals[n - 1], setup.bars[t], setup.bars[t + 1]);
        if before.nextId == 1 {
          FullBookRejects(setup.risk, before.ks, signals[n - 1], before.account);
        }
      }
    }
  }

  /** A bar opens trades only through the signals its strategy answered with. */
  lemma StepOpensOnlyThroughSignals(setup: Setup, t: nat) returns (signals: seq<Order>)
    requires ValidSetup(setup) && t < |setup.bars| - 1 && Iterate(setup, t).halt.None?
    ensures TurnAt(setup, t).nextId == Iterate(setup, t).nextId
    ensures Iterate(setup, t + 1).nextId == TurnAfter(setup, t, signals, |signals|).nextId
  {
    hide MarkedBroker, Snapshot, CheckBreaches, FlattenAll, ApplySwap, TakeSignal;
    var st := Iterate(setup, t);
    var begun := BeginBar(setup, t, st, setup.bars[t]);
    assert Iterate(setup, t + 1) == Step(setup, t, st);
    signals := [];
    if begun.ks.Released? {
      var account := AccountAt(setup, t);
      var called := begun.(calls := begun.calls + [StrategyCall(setup.bars[..t + 1], account, setup.bars[t].time)]);
      assert StartTurn(called, account) == TurnAt(setup, t);
      if setup.strategy(called.calls).Some? {
        signals := setup.strategy(called.calls).value;
      }
    }
  }

  /**
   With a single position slot a run opens at most one trade: an opposite signal is judged while
   the lot it would close still fills the slot, so the position can never be flipped.
   */
  lemma {:induction false} SingleSlotNeverFlips(setup: Setup, t: nat)
    requires ValidSetup(setup) && t < |setup.bars| && setup.risk.maxConcurrentPositions == 1
    ensures Iterate(setup, t).nextId <= 1
  {
    hide TurnAt, Sound, Fresh, TakeSignals, Step;
    if t > 0 {
      SingleSlotNeverFlips(setup, t - 1);
      if Iterate(setup, t - 1).halt.None? {
        var signals := StepOpensOnlyThroughSignals(setup, t - 1);
        TurnAtIsSound(setup, t - 1);
        SignalsOpenAtMostOne(setup, t - 1, TurnAt(setup, t - 1), signals, |signals|);
      }
    }
  }
}
