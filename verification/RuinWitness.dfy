/**
 One concrete run on which several reported figures part: a leveraged long is held over a gap that
 crosses four rollovers, Wednesday's among them, marked far below its entry, and flattened.
 */
module RuinWitness {
  import opened Models
  import opened RiskGate
  import opened Costs
  import opened Rollover
  import opened Ledger
  import opened Engine
  import opened RunInvariant
  import opened RunSoundness
  import opened RunHistory
  import opened Causality
  import opened FirstOrder
  import RunMoney
  import RunTrades
  import RunSwap
  import RunDrawdown
  import RunEconomics

  const PAIR := "EURUSD"
  const FREE_BUT_FOR_SWAP := CostModel(0.0, 0.0, 0.0, -0.01, -0.01, 3)
  const NO_LIMITS := RiskConfig(1.0, 1.0, 5, 10.0, 10.0, [], 1.0, 1.0)
  const BUY_TWO_THOUSAND := Order(PAIR, Long, 2000.0, 1.0, 0.5)

  const MONDAY := Candle(PAIR, 0, 1.0, 1.0, 1.0, 1.0)
  const FRIDAY := Candle(PAIR, 4 * MICROS_PER_DAY, 1.0, 1.0, 0.4, 0.4)
  const AFTERWARDS := Candle(PAIR, 4 * MICROS_PER_DAY + 1_000_000, 0.4, 0.4, 0.4, 0.4)

  /** Monday midnight at 1.0; Friday midnight opening at 1.0 and closing at 0.4; a second later. */
  function Ruin(): Setup {
    Setup([MONDAY, FRIDAY, AFTERWARDS],
          (calls: seq<StrategyCall>) => Some([BUY_TWO_THOUSAND]), NO_LIMITS, FREE_BUT_FOR_SWAP, 1000.0, 21)
  }

  lemma RuinIsValid()
    ensures ValidSetup(Ruin()) && |Ruin().bars| == 3 && Ruin().Pair() == PAIR && Frictionless(Ruin().model)
    ensures Ruin().bars[0].close == 1.0 && Ruin().bars[1].open == 1.0 && Ruin().bars[1].close == 0.4
    ensures Ruin().bars[0].time == 0 && Ruin().bars[1].time == 4 * MICROS_PER_DAY
  {
    hide Tradeable;
    var bars := Ruin().bars;
    assert bars == [MONDAY, FRIDAY, AFTERWARDS];
    AtAnyPrice(MONDAY);
    AtAnyPrice(FRIDAY);
    AtAnyPrice(AFTERWARDS);
  }

  lemma AtAnyPrice(bar: Candle)
    ensures Tradeable(FREE_BUT_FOR_SWAP, bar.open) && Tradeable(FREE_BUT_FOR_SWAP, bar.close)
  {
  }

  lemma OrderIsApproved()
    ensures ValidSetup(Ruin()) && Approved(Ruin(), BUY_TWO_THOUSAND)
  {
    hide GateOnCaps, LimitsAt, ValidSetup;
    RuinIsValid();
    LooseLimits(NO_LIMITS);
    PassesCaps(0);
  }

  lemma PassesCaps(now: int)
    ensures GateOnCaps(Limits(1000.0, 10000.0, 10000.0, 1000.0, 5, []), BUY_TWO_THOUSAND, [], now)
         == Decision(Approve, Some(BUY_TWO_THOUSAND), [], None, now)
  {
    assert BUY_TWO_THOUSAND.RiskAtStop() == 1000.0;
    assert Sized(1000.0, BUY_TWO_THOUSAND) == BUY_TWO_THOUSAND;
  }

  /** The four days cross the rollovers of Monday to Thursday, each charged three times over. */
  lemma FourRolloversTripled()
    ensures ValidSetup(Ruin()) && |Ruin().bars| == 3
    ensures GapSwap(Ruin(), Long, 2000.0, 0) == -240.0
    ensures RunSwap.GapExcess(Ruin(), 0) == 3
  {
    RuinIsValid();
    hide ValidSetup;
    assert Rollovers(0, 4 * MICROS_PER_DAY, 21) == 4 && WednesdayRollovers(0, 4 * MICROS_PER_DAY, 21) == 1;
    assert SwapCharge(FREE_BUT_FOR_SWAP, Long, 2000.0, 4, 3) == -240.0;
  }

  /** Entering bar 1, the run holds the long and has paid the gap's swap. */
  lemma HeldIntoBarOne()
    ensures ValidSetup(Ruin()) && |Ruin().bars| == 3
    ensures var st := Iterate(Ruin(), 1);
            && st.halt.None? && st.ks.Released? && st.nextId == 1
            && st.book.broker.cash == 760.0 && st.book.broker.costs.swap == -240.0
            && st.book.broker.lots == [Lot(Filled(BUY_TWO_THOUSAND, 1.0), 0, 0.0, -240.0)]
  {
    hide TakeSignals, TurnAt, Approved, MarkedBroker, CheckBreaches, Snapshot, Tradeable, ApplySwap, GapSwap, Pnl,
      Account.DrawdownPct, Account.DailyLossPct, FlattenAll, WellFormedBars;
    RuinIsValid();
    OrderIsApproved();
    StartOfRun(Ruin());
    AfterFirstOrder(Ruin(), [BUY_TWO_THOUSAND]);
    var setup := Ruin();
    var turn := TurnAfter(setup, 0, [BUY_TWO_THOUSAND], 1);
    FirstStep(setup);
    FourRolloversTripled();
    SwapForm(setup, 0, turn.book.broker);
  }

  /** A bar without a breach, whose signals trip nothing, ends by charging swap. */
  lemma FirstStep(setup: Setup)
    requires setup == Ruin() && ValidSetup(setup) && |setup.bars| == 3
    requires !Breaches(setup.risk, AccountAt(setup, 0))
    requires TurnAt(setup, 0).ks == Released && !TurnAfter(setup, 0, [BUY_TWO_THOUSAND], 1).tripped
    ensures var turn := TurnAfter(setup, 0, [BUY_TWO_THOUSAND], 1);
            var st := Iterate(setup, 1);
            && st.halt.None? && st.nextId == turn.nextId && st.ks == turn.ks
            && st.book == turn.book.(broker :=
                  ApplySwap(setup.model, setup.hour, turn.book.broker, setup.bars[0], setup.bars[1]))
  {
    hide TakeSignals, MarkedBroker, CheckBreaches, Snapshot, Tradeable, ApplySwap, FlattenAll, Account.DrawdownPct,
      Account.DailyLossPct, WellFormedBars;
    assert Iterate(setup, 0) == InitialState(setup);
    assert Iterate(setup, 1) == Step(setup, 0, InitialState(setup));
  }

  /** At bar 1 the account is below zero, so the bar check halts the run. */
  lemma BelowZeroAtBarOne()
    ensures ValidSetup(Ruin()) && |Ruin().bars| == 3
    ensures AccountAt(Ruin(), 1).equity == -440.0 && Breaches(Ruin().risk, AccountAt(Ruin(), 1))
    ensures Iterate(Ruin(), 2).halt.Some? && Iterate(Ruin(), 2).halt.value.at == 1
    ensures Iterate(Ruin(), 2).nextId == 1 && Iterate(Ruin(), 2).book.broker.costs.swap == -240.0
  {
    hide Iterate, MarkedBroker, CheckBreaches, Tradeable, Equity, Pnl, ValidSetup;
    RuinIsValid();
    HeldIntoBarOne();
    var setup, st := Ruin(), Iterate(Ruin(), 1);
    AtAnyPrice(FRIDAY);
    assert setup.bars[1] == FRIDAY;
    MarkedOneLot(setup, st.book.broker, setup.bars[1]);
    LossOfTwoThousand();
    var marked := MarkedBroker(setup, st.book.broker, setup.bars[1]);
    OneLotEquity(setup.model, marked, marked.lots[0], 0.4);
    SnapshotFields(setup.model, marked, setup.bars[1].time);
    hide Snapshot;
    assert AccountAt(setup, 1).DrawdownPct() == 1.0;
    OneMoreBar(setup, 2);
    HaltAtTheBar(setup, st);
  }

  lemma LossOfTwoThousand()
    ensures Pnl(Long, 2000.0, 1.0, 0.4) == -1200.0
  {
  }

  lemma MarkedOneLot(setup: Setup, b: Broker, bar: Candle)
    requires MarksTradeable(setup.model, b.marks) && Tradeable(setup.model, bar.close)
    ensures var marked := MarkedBroker(setup, b, bar);
            && marked.lots == b.lots && marked.cash == b.cash && marked.costs == b.costs
            && bar.pair in marked.marks && marked.marks[bar.pair] == bar.close
            && MarksTradeable(setup.model, marked.marks)
  {
    hide BarDay, Tradeable, Unrealized;
  }

  /** A halt at the bar check flattens; flattening opens nothing and charges no swap. */
  lemma HaltAtTheBar(setup: Setup, st: RunState)
    requires setup == Ruin() && ValidSetup(setup) && |setup.bars| == 3 && st == Iterate(setup, 1) && st.halt.None?
    requires st.ks.Released? && Breaches(setup.risk, AccountAt(setup, 1))
    ensures Iterate(setup, 2).nextId == st.nextId
    ensures Iterate(setup, 2).book.broker.costs.swap == st.book.broker.costs.swap
  {
    hide MarkedBroker, CheckBreaches, Snapshot, FlattenAll, Trade, Account.DrawdownPct, Account.DailyLossPct,
      ValidSetup, SoundBy;
    RunSound(setup, 1);
    assert Iterate(setup, 2) == Step(setup, 1, st);
    MarkedOneLot(setup, st.book.broker, setup.bars[1]);
    CheckEngages(setup.risk, AccountAt(setup, 1));
    var ds :| StateSoundBy(setup, 1, st, ds);
    BeginSound(setup, 1, st, ds);
    var begun := BeginBar(setup, 1, st, setup.bars[1]);
    FlattenKeepsSwap(setup, 1, begun.book, begun.nextId);
  }

  lemma CheckEngages(risk: RiskConfig, account: Account)
    requires Breaches(risk, account)
    ensures CheckBreaches(risk, Released, account).Engaged?
  {
    hide Account.DrawdownPct, Account.DailyLossPct;
  }

  lemma FlattenKeepsSwap(setup: Setup, t: nat, book: Book, nextId: nat)
    requires ValidSetup(setup) && t < |setup.bars| - 1 && Sound(setup, t, book, nextId)
    ensures FlattenAll(setup.model, book, setup.bars[t + 1]).broker.costs.swap == book.broker.costs.swap
  {
    var next := setup.bars[t + 1];
    var ds :| SoundBy(setup, t, book, nextId, ds);
    hide SoundBy, FlattenAll, CloseTrade, AddFill;
    ShapeOf(setup, t, book, nextId, ds);
    FlattenCases(setup, book, nextId, next);
    if book.broker.lots != [] {
      CloseForm(setup.Pair(), setup.model, book, nextId, next);
      SwapUntouched(book.broker.costs, book.live[0].size, setup.model);
    }
  }

  lemma ShapeOf(setup: Setup, t: nat, book: Book, nextId: nat, ds: seq<nat>)
    requires setup.bars != [] && SoundBy(setup, t, book, nextId, ds)
    ensures Shape(setup.Pair(), book, nextId)
  {
  }

  // -------------------------------------------------------------- the witnesses

  /** The run samples a negative equity, and its two maximum drawdowns differ. */
  lemma DrawdownsDisagree()
    ensures ValidSetup(Ruin())
    ensures exists i :: 0 <= i < |Run(Ruin()).curve| && Run(Ruin()).curve[i].equity < 0.0
    ensures Run(Ruin()).maxDrawdownPct != Run(Ruin()).metrics.maxDrawdown
  {
    hide Iterate, AccountAt, Run, Finish, ValidSetup, Ruin;
    RuinIsValid();
    BelowZeroAtBarOne();
    EndsInFinalState(Ruin());
    RunRecords(Ruin(), 2);
    assert Run(Ruin()).curve[1].equity == -440.0;
    RunDrawdown.ReportsAgreeExactlyWhenSolvent(Ruin());
  }

  /** What the run reports about its one trade: closed, and charged the gap's swap. */
  lemma OneClosedTrade()
    ensures ValidSetup(Ruin()) && |Run(Ruin()).tradeLog| == 1 && RunEconomics.AllClosed(Run(Ruin()).tradeLog)
    ensures Run(Ruin()).tradeLog[0].swapPaid == Run(Ruin()).costs.swap == -240.0
  {
    hide Iterate, AccountAt, Run, Finish, Ruin, ValidSetup, RunTrades.WellShapedLog, RunMoney.DecidedAt;
    RuinIsValid();
    BelowZeroAtBarOne();
    var _ := RunTrades.TradeLogOfRun(Ruin());
    EndsInFinalState(Ruin());
    FinishFields(Ruin(), FinalState(Ruin()));
    RunMoney.CostBreakdownFromLog(Ruin());
    SwapOfOne(Run(Ruin()).tradeLog);
  }

  lemma FinishFields(setup: Setup, st: RunState)
    requires ValidSetup(setup) && MarksTradeable(setup.model, st.book.broker.marks)
    requires 0 <= LastBar(setup, st) < |setup.bars|
    ensures Finish(setup, st).costs == st.book.broker.costs && Finish(setup, st).halt == st.halt
  {
    hide Unrealized, StillOpen, MaxDrawdownPct;
  }

  lemma SwapOfOne(log: seq<TradeRecord>)
    requires |log| == 1
    ensures SwapOfLog(log) == log[0].swapPaid
  {
    assert log[..0] == [];
  }

  /** The trade paid more than the calendar's swap for the time it was held. */
  lemma SwapExceedsCalendar() returns (o: nat, c: nat)
    ensures ValidSetup(Ruin()) && |Run(Ruin()).tradeLog| == 1
    ensures RunSwap.ChargedOver(Ruin(), Run(Ruin()).tradeLog[0], o, c)
    ensures var trade := Run(Ruin()).tradeLog[0].trade;
            Abs(Run(Ruin()).tradeLog[0].swapPaid)
              > Abs(RunSwap.CalendarSwap(Ruin(), trade.direction, trade.size, o, c))
  {
    hide Run, Iterate, SwapOver, RunTrades.WellShapedLog, RunMoney.DecidedAt, RunSwap.CalendarSwap, RunSwap.GapExcess,
      ValidSetup;
    RuinIsValid();
    OneClosedTrade();
    FourRolloversTripled();
    var setup := Ruin();
    var ds := RunTrades.TradeLogOfRun(setup);
    var record := Run(setup).tradeLog[0];
    RunSwap.LogIsCharged(setup, Run(setup).tradeLog, ds, 2, 0);
    DecisionsBeforeTwo(setup, Run(setup).tradeLog, ds);
    o, c := ds[0], ds[1];
    NoGapNoSwap(setup, record, o, c);
    RunSwap.SwapMatchesCalendarExactlyWhen(setup, record, o, c);
    RunSwap.SwapNeverBelowCalendar(setup, record, o, c);
  }

  lemma DecisionsBeforeTwo(setup: Setup, log: seq<TradeRecord>, ds: seq<nat>)
    requires RunMoney.DecidedAt(setup, log, ds, 2) && |log| == 1 && log[0].exit.Some?
    ensures |ds| >= 2 && ds[0] <= ds[1] < 2
  {
    hide SwapOver, OpenedAt, ExitAt;
  }

  lemma NoGapNoSwap(setup: Setup, record: TradeRecord, o: nat, c: nat)
    requires RunSwap.ChargedOver(setup, record, o, c) && c < 2 && record.swapPaid != 0.0
    ensures o == 0 && c == 1
  {
  }

  /** The window's gross P&L and its net expectancy are both off, on a run that ended flat. */
  lemma EconomicsAreOff() returns (ds: seq<nat>)
    ensures ValidSetup(Ruin()) && 0 < Run(Ruin()).barsProcessed <= |Ruin().bars|
    ensures RunMoney.DecidedAt(Ruin(), Run(Ruin()).tradeLog, ds, 2)
    ensures RunMoney.Located(Ruin(), Run(Ruin()).tradeLog, ds)
    ensures var window := RunEconomics.WindowOfRun(Ruin());
            && window.grossPnl != RunEconomics.MidToMid(Ruin(), ds)
            && window.netExpectancy.Some? && window.netPnl != window.netExpectancy.value
  {
    hide Run, Iterate, RunTrades.WellShapedLog, RunMoney.DecidedAt, RunMoney.Located, RunEconomics.AllClosed,
      RunEconomics.WindowOfRun, RunEconomics.MidToMid, ValidSetup;
    RuinIsValid();
    OneClosedTrade();
    ds := RunTrades.TradeLogOfRun(Ruin());
    RunEconomics.GrossPnlOffByTwiceSwap(Ruin(), ds);
    RunEconomics.NetExpectancyOnFlatRuns(Ruin());
    RunMoney.CostBreakdownFromLog(Ruin());
    NothingChargedOnFills(Run(Ruin()).tradeLog);
  }

  lemma {:induction false} NothingChargedOnFills(log: seq<TradeRecord>)
    ensures ChargedOnFills(0.0, log) == 0.0
  {
    if log != [] {
      NothingChargedOnFills(log[..|log| - 1]);
    }
  }
}
