/**
 Two one-decision runs that differ only in the price bar 1 opens at, one of which halts at bar 0:
 the second order of bar 0 is evaluated after the first has been filled at bar 1's open.
 */
module LeakWitness {
  import opened Models
  import opened RiskGate
  import GateLaws
  import opened Costs
  import opened Ledger
  import opened Engine
  import opened RunSoundness
  import opened RunHistory
  import opened Causality
  import opened FirstOrder

  const PAIR := "EURUSD"
  const NO_FRICTION := CostModel(0.0, 0.0, 0.0, 0.0, 0.0, 3)
  const FIVE_PERCENT_DRAWDOWN := RiskConfig(1.0, 1.0, 5, 10.0, 10.0, [], 1.0, 0.05)
  const BUY_HUNDRED := Order(PAIR, Long, 100.0, 1.0, 0.5)

  function FlatBar(time: int, price: PositiveDecimal): Candle {
    Candle(PAIR, time, price, price, price, price)
  }

  /** One bar at 1.0, then one at the given price; the strategy sends the same order twice. */
  function TwiceLong(nextOpen: PositiveDecimal): Setup {
    Setup([FlatBar(0, 1.0), FlatBar(1, nextOpen)],
          (calls: seq<StrategyCall>) => Some([BUY_HUNDRED, BUY_HUNDRED]),
          FIVE_PERCENT_DRAWDOWN, NO_FRICTION, 1000.0, 21)
  }

  lemma TwiceLongIsValid(nextOpen: PositiveDecimal)
    ensures ValidSetup(TwiceLong(nextOpen)) && |TwiceLong(nextOpen).bars| == 2 && TwiceLong(nextOpen).Pair() == PAIR
  {
    var bars := TwiceLong(nextOpen).bars;
    assert bars == [FlatBar(0, 1.0), FlatBar(1, nextOpen)];
    FlatBarTradeable(0, 1.0);
    FlatBarTradeable(1, nextOpen);
    hide Tradeable;
  }

  lemma FlatBarTradeable(time: int, price: PositiveDecimal)
    ensures Tradeable(NO_FRICTION, FlatBar(time, price).open) && Tradeable(NO_FRICTION, FlatBar(time, price).close)
  {
  }

  lemma FirstIsApproved(nextOpen: PositiveDecimal)
    ensures ValidSetup(TwiceLong(nextOpen)) && Approved(TwiceLong(nextOpen), BUY_HUNDRED)
  {
    hide GateOnCaps, LimitsAt;
    TwiceLongIsValid(nextOpen);
    LooseLimits(FIVE_PERCENT_DRAWDOWN);
    PassesCaps(0);
  }

  lemma PassesCaps(now: int)
    ensures GateOnCaps(Limits(1000.0, 10000.0, 10000.0, 1000.0, 5, []), BUY_HUNDRED, [], now)
         == Decision(Approve, Some(BUY_HUNDRED), [], None, now)
  {
    assert BUY_HUNDRED.RiskAtStop() == 50.0;
    assert Sized(1000.0, BUY_HUNDRED) == BUY_HUNDRED;
  }

  lemma PnlOfHundred(open: real)
    ensures Pnl(Long, 100.0, open, 1.0) == (1.0 - open) * 100.0
  {
  }

  /** The second order trips the latch exactly when the fill of the first lost 5% of equity. */
  lemma SecondOrderTrips(nextOpen: PositiveDecimal)
    requires nextOpen == 1.0 || nextOpen == 2.0
    ensures ValidSetup(TwiceLong(nextOpen)) && |TwiceLong(nextOpen).bars| == 2
    ensures TurnAfter(TwiceLong(nextOpen), 0, [BUY_HUNDRED, BUY_HUNDRED], 2).tripped <==> nextOpen == 2.0
  {
    hide TurnAt, Gate, Execute, Approved, Pnl;
    TwiceLongIsValid(nextOpen);
    FirstIsApproved(nextOpen);
    AfterFirstOrder(TwiceLong(nextOpen), [BUY_HUNDRED, BUY_HUNDRED]);
    PnlOfHundred(nextOpen);
    var setup, signals := TwiceLong(nextOpen), [BUY_HUNDRED, BUY_HUNDRED];
    var before := TurnAfter(setup, 0, signals, 1);
    assert TurnAfter(setup, 0, signals, 2) == TakeSignal(setup, before, BUY_HUNDRED, setup.bars[0], setup.bars[1]);
    GateLaws.GateTripsExactlyOnBreach(FIVE_PERCENT_DRAWDOWN, Released, BUY_HUNDRED, before.account);
    assert before.account.DrawdownPct() == if nextOpen == 2.0 then 0.1 else 0.0;
    assert before.account.DailyLossPct() == if nextOpen == 2.0 then 0.1 else 0.0;
    var (decision, ks) := Gate(FIVE_PERCENT_DRAWDOWN, Released, BUY_HUNDRED, before.account);
    GateBlamesSwitchIffEngaged(FIVE_PERCENT_DRAWDOWN, Released, BUY_HUNDRED, before.account);
    if decision.Accepted() && decision.sizedOrder.Some? {
      ExecuteKeepsLatch(NO_FRICTION, before.(ks := ks, accepted := before.accepted + 1), decision.sizedOrder.value,
                        setup.bars[0], setup.bars[1]);
    }
  }

  lemma StartsInsideLimits(nextOpen: PositiveDecimal)
    ensures ValidSetup(TwiceLong(nextOpen)) && |TwiceLong(nextOpen).bars| == 2
    ensures !Breaches(FIVE_PERCENT_DRAWDOWN, AccountAt(TwiceLong(nextOpen), 0))
  {
    hide AccountAt, Breaches, TurnAt;
    TwiceLongIsValid(nextOpen);
    StartOfRun(TwiceLong(nextOpen));
  }

  lemma HaltFollowsTrip(nextOpen: PositiveDecimal)
    requires ValidSetup(TwiceLong(nextOpen)) && |TwiceLong(nextOpen).bars| == 2
    requires !Breaches(FIVE_PERCENT_DRAWDOWN, AccountAt(TwiceLong(nextOpen), 0))
    ensures Iterate(TwiceLong(nextOpen), 1).halt
         == if TurnAfter(TwiceLong(nextOpen), 0, [BUY_HUNDRED, BUY_HUNDRED], 2).tripped
            then Some(Halt(0, TrippedInEvaluate)) else None
  {
    hide TakeSignals, FlattenAll, ApplySwap, MarkedBroker, Snapshot, Account.DrawdownPct, Account.DailyLossPct;
    var setup := TwiceLong(nextOpen);
    assert Iterate(setup, 0) == InitialState(setup);
    assert Iterate(setup, 1) == Step(setup, 0, InitialState(setup));
  }

  /**
   The equity curve and the strategy's calls never look ahead, but a halt can: these two histories
   agree on bar 0, and whether the run halts at bar 0 is decided by the open of bar 1.
   */
  lemma NextOpenCanHaltThisBar() returns (A: Setup, B: Setup)
    ensures Comparable(A, B) && |A.bars| == |B.bars| == 2 && A.bars[0] == B.bars[0]
    ensures Iterate(A, 1).halt.None?
    ensures Iterate(B, 1).halt == Some(Halt(0, TrippedInEvaluate))
  {
    hide Iterate, TurnAfter, TurnAt, AccountAt, Breaches, ValidSetup;
    A, B := TwiceLong(1.0), TwiceLong(2.0);
    StartsInsideLimits(1.0);
    StartsInsideLimits(2.0);
    SecondOrderTrips(1.0);
    SecondOrderTrips(2.0);
    HaltFollowsTrip(1.0);
    HaltFollowsTrip(2.0);
    SameStrategy();
  }

  lemma SameStrategy()
    ensures TwiceLong(2.0) == TwiceLong(1.0).(bars := TwiceLong(2.0).bars)
  {
  }
}
