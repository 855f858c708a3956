/** What an account says was realized today, read off the trade log. */
module RunDay {
  import opened Models
  import opened Costs
  import opened Rollover
  import opened Ledger
  import opened Engine
  import opened RunInvariant
  import opened RunSoundness
  import opened RunHistory
  import opened Causality
  import opened RunOrders
  import RiskGate

  /** What closing a trade realized: its profit less the commission on its exit. */
  function RealizedBy(record: TradeRecord): real {
    if record.exit.Some? then record.exit.value.realizedPnl - record.exit.value.commission else 0.0
  }

  function RealizedOf(log: seq<TradeRecord>): real {
    if log == [] then 0.0 else RealizedOf(log[..|log| - 1]) + RealizedBy(log[|log| - 1])
  }

  /** What was realized on one trading day, by the first n trades: those whose closing was decided that day. */
  function RealizedOnDay(setup: Setup, log: seq<TradeRecord>, ds: seq<nat>, n: nat, day: int): real
    requires n <= |log| && (n > 0 ==> n < |ds|) && forall k :: 0 <= k < |ds| ==> ds[k] < |setup.bars|
  {
    if n == 0 then 0.0
    else RealizedOnDay(setup, log, ds, n - 1, day)
         + (if BarDay(setup.bars[ds[n]].time, setup.hour) == day then RealizedBy(log[n - 1]) else 0.0)
  }

  // --------------------------------------------------------------- one bar

  /** From some books to later ones, the log only grows, and what it adds is what was added to the day. */
  ghost predicate Realizes(before: Book, after: Book) {
    && before.closed <= after.closed
    && after.broker.realizedToday - before.broker.realizedToday == RealizedOf(after.closed) - RealizedOf(before.closed)
  }

  lemma CloseRealizes(setup: Setup, book: Book, nextId: nat, next: Candle)
    requires setup.bars != [] && Shape(setup.Pair(), book, nextId) && book.broker.lots != []
    requires Tradeable(setup.model, next.open)
    ensures Realizes(book, CloseTrade(setup.model, book, 0, next))
  {
    hide CloseTrade, ExitAt;
    CloseForm(setup.Pair(), setup.model, book, nextId, next);
    var after := CloseTrade(setup.model, book, 0, next).closed;
    assert after[..|after| - 1] == book.closed;
  }

  lemma SignalRealizes(setup: Setup, t: nat, turn: Turn, signal: Order)
    requires ValidSetup(setup) && t < |setup.bars| - 1 && Shape(setup.Pair(), turn.book, turn.nextId)
    requires MarksTradeable(setup.model, turn.book.broker.marks)
    ensures Realizes(turn.book, TakeSignal(setup, turn, signal, setup.bars[t], setup.bars[t + 1]).book)
  {
    hide Execute, RiskGate.Gate, ChainedLog, Unrealized, CloseTrade, Aligned, AddFill, CommissionFor, MarksTradeable,
      WellFormedBars, RealizedOf;
    var (decision, ks) := RiskGate.Gate(setup.risk, turn.ks, signal, turn.account);
    if signal.pair == setup.Pair() && decision.Accepted() && decision.sizedOrder.Some? {
      GateKeepsPair(setup.risk, turn.ks, signal, turn.account);
      ExecuteCases(setup, turn.(ks := ks, accepted := turn.accepted + 1), decision.sizedOrder.value, setup.bars[t],
                   setup.bars[t + 1]);
      if turn.book.broker.lots != [] {
        CloseRealizes(setup, turn.book, turn.nextId, setup.bars[t + 1]);
      }
    }
  }

  lemma {:induction false} SignalsRealize(setup: Setup, t: nat, signals: seq<Order>, n: nat)
    requires ValidSetup(setup) && t < |setup.bars| - 1 && Iterate(setup, t).halt.None? && n <= |signals|
    ensures Realizes(TurnAt(setup, t).book, TurnAfter(setup, t, signals, n).book)
  {
    hide TurnAt, Iterate, TakeSignal, Shape, RealizedOf, WellFormedBars, Tradeable;
    if n > 0 {
      SignalsRealize(setup, t, signals, n - 1);
      TurnsShaped(setup, t, signals, n - 1);
      var before := TurnAfter(setup, t, signals, n - 1);
      if !before.tripped {
        SignalRealizes(setup, t, before, signals[n - 1]);
      }
    }
  }

  lemma FlattenRealizes(setup: Setup, t: nat, book: Book, nextId: nat)
    requires ValidSetup(setup) && t < |setup.bars| - 1 && Shape(setup.Pair(), book, nextId)
    ensures Realizes(book, FlattenAll(setup.model, book, setup.bars[t + 1]))
  {
    hide CloseTrade, FlattenAll, Shape, RealizedOf;
    FlattenCases(setup, book, nextId, setup.bars[t + 1]);
    if book.broker.lots != [] {
      CloseRealizes(setup, book, nextId, setup.bars[t + 1]);
    }
  }

  lemma BarRealizes(setup: Setup, t: nat)
    requires ValidSetup(setup) && t < |setup.bars| - 1 && Iterate(setup, t).halt.None?
    ensures Realizes(BeginBar(setup, t, Iterate(setup, t), setup.bars[t]).book, Iterate(setup, t + 1).book)
  {
    hide Iterate, MarkedBroker, Snapshot, CheckBreaches, FlattenAll, TakeSignals, Shape, AnswerAt, RealizedOf,
      Tradeable, WellFormedBars;
    BarFollowsItsTurn(setup, t);
    TurnShape(setup, t);
    BegunKeepsTrades(setup, t);
    var begun := BeginBar(setup, t, Iterate(setup, t), setup.bars[t]);
    if begun.ks.Engaged? || AnswerAt(setup, t).None? {
      FlattenRealizes(setup, t, begun.book, begun.nextId);
    } else {
      var signals := AnswerAt(setup, t).value;
      SignalsRealize(setup, t, signals, |signals|);
      TurnsShaped(setup, t, signals, |signals|);
      var turn := TurnAfter(setup, t, signals, |signals|);
      FlattenRealizes(setup, t, turn.book, turn.nextId);
    }
  }

  // ------------------------------------------------------------- whole runs

  /** Decisions of one bar all add to the same day. */
  lemma {:induction false} DayGrows(setup: Setup, log: seq<TradeRecord>, ds: seq<nat>, m: nat, n: nat, t: nat)
    requires m <= n <= |log| && (n > 0 ==> n < |ds|) && t < |setup.bars|
    requires forall k :: 0 <= k < |ds| ==> ds[k] < |setup.bars|
    requires forall k :: m < k < |ds| ==> ds[k] == t
    ensures var day := BarDay(setup.bars[t].time, setup.hour);
            RealizedOnDay(setup, log, ds, n, day)
              == RealizedOnDay(setup, log, ds, m, day) + RealizedOf(log[..n]) - RealizedOf(log[..m])
  {
    hide BarDay, RealizedBy;
    if m < n {
      DayGrows(setup, log, ds, m, n - 1, t);
      assert log[..n][..n - 1] == log[..n - 1];
    }
  }

  lemma {:induction false} DayKept(setup: Setup, log: seq<TradeRecord>, ds: seq<nat>, longer: seq<TradeRecord>,
                                   grown: seq<nat>, n: nat, day: int)
    requires n <= |log| && (n > 0 ==> n < |ds|) && log <= longer && ds <= grown
    requires forall k :: 0 <= k < |grown| ==> grown[k] < |setup.bars|
    ensures RealizedOnDay(setup, log, ds, n, day) == RealizedOnDay(setup, longer, grown, n, day)
  {
    hide BarDay, RealizedBy;
    if n > 0 {
      DayKept(setup, log, ds, longer, grown, n - 1, day);
    }
  }

  /** Nothing was realized on a day later than every decision. */
  lemma {:induction false} NothingOnLaterDays(setup: Setup, log: seq<TradeRecord>, ds: seq<nat>, n: nat, day: int)
    requires n <= |log| && (n > 0 ==> n < |ds|) && forall k :: 0 <= k < |ds| ==> ds[k] < |setup.bars|
    requires forall k :: 0 <= k < |ds| ==> BarDay(setup.bars[ds[k]].time, setup.hour) < day
    ensures RealizedOnDay(setup, log, ds, n, day) == 0.0
  {
    hide BarDay, RealizedBy;
    if n > 0 {
      NothingOnLaterDays(setup, log, ds, n - 1, day);
    }
  }

  lemma DaysInOrder(setup: Setup, d: nat, t: nat)
    requires ValidSetup(setup) && d <= t < |setup.bars|
    ensures BarDay(setup.bars[d].time, setup.hour) <= BarDay(setup.bars[t].time, setup.hour)
  {
    hide BarDay, Rollovers, Tradeable;
    BarDayCountsRollovers(setup.bars[d].time, setup.bars[t].time, setup.hour);
    RolloversOf(setup, d, t);
  }

  lemma RolloversOf(setup: Setup, d: nat, t: nat)
    requires ValidSetup(setup) && d <= t < |setup.bars|
    ensures Rollovers(setup.bars[d].time, setup.bars[t].time, setup.hour) >= 0
  {
    hide Tradeable, RolloversUpTo;
    assert d < t ==> setup.bars[d].time <= setup.bars[t].time;
    RolloversMonotone(setup.bars[d].time, setup.bars[t].time, setup.hour);
  }

  /** The day's total, as bar t begins, is what the log realized by decisions of earlier bars of the same day. */
  ghost predicate DayAccounted(setup: Setup, t: nat, book: Book, realized: real, ds: seq<nat>)
    requires t < |setup.bars|
  {
    && (book.closed != [] ==> |book.closed| < |ds|) && (forall k :: 0 <= k < |ds| ==> ds[k] < |setup.bars|)
    && realized == RealizedOnDay(setup, book.closed, ds, |book.closed|, BarDay(setup.bars[t].time, setup.hour))
  }

  lemma DecisionsReach(setup: Setup, t: nat, book: Book, nextId: nat, ds: seq<nat>)
    requires setup.bars != [] && SoundBy(setup, t, book, nextId, ds)
    ensures t < |setup.bars| && (book.closed != [] ==> |book.closed| < |ds|)
    ensures forall k :: 0 <= k < |ds| ==> ds[k] <= t < |setup.bars|
  {
    hide ClosedAt, OpenedAt, SwapOver, Aligned, ChainedLog;
  }

  /** Rolling the day at a bar forgets exactly what was realized on earlier days. */
  lemma BeginningAccountsDay(setup: Setup, t: nat, ds: seq<nat>)
    requires ValidSetup(setup) && 0 < t < |setup.bars| && Iterate(setup, t).halt.None?
    requires StateSoundBy(setup, t, Iterate(setup, t), ds)
    requires DayAccounted(setup, t - 1, Iterate(setup, t).book, Iterate(setup, t).book.broker.realizedToday, ds)
    ensures DayAccounted(setup, t, Iterate(setup, t).book,
                         BeginBar(setup, t, Iterate(setup, t), setup.bars[t]).book.broker.realizedToday, ds)
  {
    hide Iterate, BeginBar, BarDay, SoundBy, Rollovers, RealizedOnDay, Tradeable;
    DayResetsExactlyOnRollover(setup, t);
    BarDayCountsRollovers(setup.bars[t - 1].time, setup.bars[t].time, setup.hour);
    RolloversOf(setup, t - 1, t);
    var book := Iterate(setup, t).book;
    if Rollovers(setup.bars[t - 1].time, setup.bars[t].time, setup.hour) > 0 {
      forall k | 0 <= k < |ds|
        ensures BarDay(setup.bars[ds[k]].time, setup.hour) < BarDay(setup.bars[t].time, setup.hour)
      {
        DaysInOrder(setup, ds[k], t - 1);
      }
      NothingOnLaterDays(setup, book.closed, ds, |book.closed|, BarDay(setup.bars[t].time, setup.hour));
    }
  }

  /** The closes of a bar add to the day its account began with. */
  lemma BarAccountsDay(setup: Setup, t: nat, ds: seq<nat>, grown: seq<nat>)
    requires ValidSetup(setup) && t < |setup.bars| - 1 && Iterate(setup, t).halt.None?
    requires StateSoundBy(setup, t, Iterate(setup, t), ds) && Grown(ds, grown, t)
    requires StateSoundBy(setup, t + 1, Iterate(setup, t + 1), grown)
    requires DayAccounted(setup, t, Iterate(setup, t).book,
                          BeginBar(setup, t, Iterate(setup, t), setup.bars[t]).book.broker.realizedToday, ds)
    ensures DayAccounted(setup, t, Iterate(setup, t + 1).book, Iterate(setup, t + 1).book.broker.realizedToday, grown)
  {
    hide Iterate, BeginBar, BarDay, SoundBy, RealizedOnDay, RealizedOf, Tradeable, WellFormedBars, Active;
    var before, after := Iterate(setup, t).book, Iterate(setup, t + 1).book;
    var day := BarDay(setup.bars[t].time, setup.hour);
    BarRealizes(setup, t);
    BegunKeepsClosed(setup, t);
    DecisionsReach(setup, t + 1, after, Iterate(setup, t + 1).nextId, grown);
    DecisionsCover(setup, t, ds);
    DayKept(setup, before.closed, ds, after.closed, grown, |before.closed|, day);
    DayGrows(setup, after.closed, grown, |before.closed|, |after.closed|, t);
    assert after.closed[..|after.closed|] == after.closed && after.closed[..|before.closed|] == before.closed;
  }

  lemma BegunKeepsClosed(setup: Setup, t: nat)
    requires ValidSetup(setup) && t < |setup.bars| - 1 && Iterate(setup, t).halt.None?
    ensures BeginBar(setup, t, Iterate(setup, t), setup.bars[t]).book.closed == Iterate(setup, t).book.closed
  {
    hide Iterate, MarkedBroker, Snapshot, CheckBreaches;
  }

  /** Before a halt, every closing so far has been decided, and no decision is left over. */
  lemma DecisionsCover(setup: Setup, t: nat, ds: seq<nat>)
    requires ValidSetup(setup) && t < |setup.bars| && Iterate(setup, t).halt.None?
    requires StateSoundBy(setup, t, Iterate(setup, t), ds)
    ensures |ds| <= |Iterate(setup, t).book.closed| + 1
  {
    hide Iterate, ClosedAt, OpenedAt, SwapOver, Aligned, ChainedLog;
  }

  lemma {:induction false} DayOfEveryBar(setup: Setup, t: nat) returns (ds: seq<nat>)
    requires ValidSetup(setup) && t < |setup.bars|
    ensures StateSoundBy(setup, t, Iterate(setup, t), ds)
    ensures Iterate(setup, t).halt.None? ==>
              DayAccounted(setup, t, Iterate(setup, t).book,
                           BeginBar(setup, t, Iterate(setup, t), setup.bars[t]).book.broker.realizedToday, ds)
  {
    hide Iterate, BeginBar, SoundBy, DayAccounted, Grown, Tradeable, WellFormedBars;
    if t == 0 {
      ds := [];
      FirstDay(setup);
    } else {
      var earlier := DayOfEveryBar(setup, t - 1);
      ds := IterateSound(setup, t - 1, earlier);
      if Iterate(setup, t).halt.None? {
        OneMoreBar(setup, t);
        BarAccountsDay(setup, t - 1, earlier, ds);
        BeginningAccountsDay(setup, t, ds);
      }
    }
  }

  lemma FirstDay(setup: Setup)
    requires ValidSetup(setup)
    ensures StateSoundBy(setup, 0, Iterate(setup, 0), [])
    ensures DayAccounted(setup, 0, Iterate(setup, 0).book,
                         BeginBar(setup, 0, Iterate(setup, 0), setup.bars[0]).book.broker.realizedToday, [])
  {
    hide SoundBy, BarDay, Unrealized, CheckBreaches;
    InitialSound(setup);
  }

  /**
   What every account the strategy sees reports as realized today: the profit, less exit commission, of
   the trades whose closing was decided at an earlier bar of the same trading day.
   */
  lemma RealizedTodayFromLog(setup: Setup, t: nat) returns (ds: seq<nat>)
    requires ValidSetup(setup) && t < |setup.bars| && Iterate(setup, t).halt.None?
    ensures var log := Iterate(setup, t).book.closed;
            && (log != [] ==> |log| < |ds|) && (forall k :: 0 <= k < |ds| ==> ds[k] < t)
            && (forall k :: 0 <= k < |log| ==> ClosedAt(setup, log[k], ds[k], ds[k + 1]))
            && AccountAt(setup, t).realizedToday
                 == RealizedOnDay(setup, log, ds, |log|, BarDay(setup.bars[t].time, setup.hour))
  {
    hide Iterate, MarkedBroker, Unrealized, RealizedOnDay, BarDay, CheckBreaches, ClosedAt, OpenedAt, Shape,
      CashAccounted, CashAttributed, CostsAccounted;
    ds := DayOfEveryBar(setup, t);
  }
}
