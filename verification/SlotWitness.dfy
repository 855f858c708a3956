/** A run with one position slot whose second, opposite signal is rejected for the slot, so that it cannot flip. */
module SlotWitness {
  import opened Models
  import opened RiskGate
  import opened Costs
  import opened Engine
  import opened RunHistory
  import opened Causality
  import opened FirstOrder
  import LeakWitness

  const ONE_SLOT := RiskConfig(1.0, 1.0, 1, 10.0, 10.0, [], 1.0, 1.0)
  const SELL_HUNDRED := Order(LeakWitness.PAIR, Short, 100.0, 1.0, 1.5)

  const SIGNALS := [LeakWitness.BUY_HUNDRED, SELL_HUNDRED]

  /** Two bars at one price; the strategy buys and then sells. */
  function LongThenShort(): Setup {
    Setup([LeakWitness.FlatBar(0, 1.0), LeakWitness.FlatBar(1, 1.0)], (calls: seq<StrategyCall>) => Some(SIGNALS),
          ONE_SLOT, LeakWitness.NO_FRICTION, 1000.0, 21)
  }

  lemma LongThenShortIsValid()
    ensures ValidSetup(LongThenShort()) && |LongThenShort().bars| == 2
    ensures LongThenShort().Pair() == LeakWitness.PAIR && Frictionless(LongThenShort().model)
    ensures LongThenShort().bars[0].close == LongThenShort().bars[1].open == 1.0
  {
    hide Tradeable;
    var bars := LongThenShort().bars;
    assert bars == [LeakWitness.FlatBar(0, 1.0), LeakWitness.FlatBar(1, 1.0)];
    LeakWitness.FlatBarTradeable(0, 1.0);
    LeakWitness.FlatBarTradeable(1, 1.0);
  }

  lemma BuyIsApproved()
    ensures ValidSetup(LongThenShort()) && Approved(LongThenShort(), LeakWitness.BUY_HUNDRED)
  {
    hide GateOnCaps, LimitsAt, ValidSetup;
    LongThenShortIsValid();
    LooseLimits(ONE_SLOT);
    PassesCaps(0);
  }

  lemma PassesCaps(now: int)
    ensures GateOnCaps(Limits(1000.0, 10000.0, 10000.0, 1000.0, 1, []), LeakWitness.BUY_HUNDRED, [], now)
         == Decision(Approve, Some(LeakWitness.BUY_HUNDRED), [], None, now)
  {
    assert LeakWitness.BUY_HUNDRED.RiskAtStop() == 50.0;
    assert Sized(1000.0, LeakWitness.BUY_HUNDRED) == LeakWitness.BUY_HUNDRED;
  }

  /** The sell would close the long, but is judged while the long fills the only slot. */
  lemma FlipIsRejected()
    ensures ValidSetup(LongThenShort()) && |LongThenShort().bars| == 2
    ensures var turn := TurnAfter(LongThenShort(), 0, SIGNALS, 1);
            && |turn.book.broker.lots| == 1 && turn.book.broker.lots[0].position.direction != SIGNALS[1].direction
            && MaxConcurrentPositions in Gate(ONE_SLOT, turn.ks, SIGNALS[1], turn.account).0.rejectedBy
  {
    hide TurnAt, TurnAfter, Iterate, Gate, Approved, ValidSetup, Breaches, AccountAt;
    LongThenShortIsValid();
    BuyIsApproved();
    var setup := LongThenShort();
    StartOfRun(setup);
    StartsRunning(setup);
    AfterFirstOrder(setup, SIGNALS);
    NoLoss();
    var turn := TurnAfter(setup, 0, SIGNALS, 1);
    InsideLimits(ONE_SLOT, turn.account);
    PositionCapRejectsExactlyWhen(setup, 0, SIGNALS, 1);
  }

  lemma NoLoss()
    ensures Pnl(Long, 100.0, 1.0, 1.0) == 0.0
  {
  }

  lemma StartsRunning(setup: Setup)
    requires ValidSetup(setup)
    ensures Iterate(setup, 0).halt.None?
  {
  }
}
