/** The single gated path from a strategy signal to a paper fill, and what any history of using it keeps. */
module Execution {
  import opened Models
  import opened RiskGate
  import opened PaperLedger
  import PaperBroker
  import PaperLaws
  import GateLaws

  datatype ExecutionResult = ExecutionResult(decision: Decision, fill: Option<Fill>, placedOrder: Option<Order>)

  /** The latch and the broker's ledger. */
  datatype World = World(ks: KillSwitch, paper: Paper)

  /** What the price provider answers during one submission: to the account read, then to the placement. */
  datatype Answers = Answers(read: Quotes, place: Feed)

  /** One submission: refuse when latched, fetch the account, gate, place; a broker failure engages the latch. */
  ghost function Submitted(risk: RiskConfig, cfg: PaperConfig, w: World, order: Order, answers: Answers, now: int)
    : (ExecutionResult, World)
  {
    var refused := ExecutionResult(RejectFor([KillSwitchEngaged], now), None, None);
    if w.ks.Engaged? then (refused, w)
    else
      var (state, paper) := AccountState(answers.read, w.paper, now);
      if state.Err? then (refused, World(Tripped(w.ks, BrokerFailed("get_account_state"), "exception", now), paper))
      else
        var (decision, ks) := Gate(risk, w.ks, order, state.value);
        if !decision.Accepted() || decision.sizedOrder.None? then
          (ExecutionResult(decision, None, None), World(ks, paper))
        else
          var sized := decision.sizedOrder.value;
          var (fill, placed) := PlaceOrder(cfg, answers.place, paper, sized);
          if fill.Err? then
            (ExecutionResult(decision, None, Some(sized)),
             World(Tripped(ks, BrokerFailed("place_order"), "exception", now), placed))
          else (ExecutionResult(decision, Some(fill.value), Some(sized)), World(ks, placed))
  }

  class ExecutionEngine {
    const broker: PaperBroker.PaperBroker
    const riskManager: RiskManager

    constructor (broker: PaperBroker.PaperBroker, riskManager: RiskManager)
      ensures this.broker == broker && this.riskManager == riskManager
    {
      this.broker, this.riskManager := broker, riskManager;
    }

    function State(): World
      reads this, broker, riskManager
    {
      World(riskManager.killSwitch, broker.State())
    }

    method Submit(order: Order, answers: Answers, now: int) returns (result: ExecutionResult)
      modifies broker, riskManager
      ensures (result, State()) == Submitted(riskManager.config, broker.config, old(State()), order, answers, now)
    {
      hide Gate, Unrealized, PlaceOrder;
      if riskManager.killSwitch.Engaged? {
        return ExecutionResult(RejectFor([KillSwitchEngaged], now), None, None);
      }
      var account := broker.GetAccountState(answers.read, now);
      if account.Err? {
        riskManager.Trip(BrokerFailed("get_account_state"), "exception", now);
        return ExecutionResult(RejectFor([KillSwitchEngaged], now), None, None);
      }
      var decision := riskManager.Evaluate(order, account.value);
      if !decision.Accepted() || decision.sizedOrder.None? {
        return ExecutionResult(decision, None, None);
      }
      var fill := broker.PlaceOrder(decision.sizedOrder.value, answers.place);
      if fill.Err? {
        riskManager.Trip(BrokerFailed("place_order"), "exception", now);
        return ExecutionResult(decision, None, decision.sizedOrder);
      }
      result := ExecutionResult(decision, Some(fill.value), decision.sizedOrder);
    }
  }

  // ---------------------------------------------------------- one submission

  lemma GateKeepsTerms(cfg: RiskConfig, ks: KillSwitch, order: Order, account: Account)
    ensures var (decision, ks') := Gate(cfg, ks, order, account);
            && (ks.Engaged? ==> ks' == ks && !decision.Accepted())
            && (decision.Accepted() ==>
                  && ks' == ks && decision.sizedOrder.Some? && |account.positions| < cfg.maxConcurrentPositions
                  && decision.sizedOrder.value == order.WithSize(decision.sizedOrder.value.size)
                  && decision.sizedOrder.value.size <= order.size)
  {
    if order.StopDistance() > 0.0 && account.equity > 0.0 {
      LimitsPositive(cfg, account.equity);
      GateLaws.SizedFitsTradeLimit(LimitsAt(cfg, account.equity).trade, order);
    }
    hide LimitsAt, Sized, BrokenAggregateCap, Account.DrawdownPct, Account.DailyLossPct, Order.RiskAtStop;
  }

  /** The order was cleared by the gate, and its placement priced and paid for. */
  predicate Reached(cfg: PaperConfig, w: World, result: ExecutionResult, answers: Answers) {
    result.placedOrder.Some? && PaperLaws.PaidFor(cfg, answers.place, w.paper.cash, result.placedOrder.value)
  }

  /** A submission only ever hands the broker the gate's own clipped order, with a slot free and the latch released. */
  lemma OnlyClearedOrdersArePlaced(risk: RiskConfig, cfg: PaperConfig, w: World, order: Order, answers: Answers,
                                   now: int)
    ensures var result := Submitted(risk, cfg, w, order, answers, now).0;
            result.placedOrder.Some? ==>
              && w.ks.Released? && result.decision.Accepted() && result.placedOrder == result.decision.sizedOrder
              && result.placedOrder.value == order.WithSize(result.placedOrder.value.size)
              && result.placedOrder.value.size <= order.size
              && |w.paper.positions| < risk.maxConcurrentPositions
  {
    hide Gate, Unrealized, PlaceOrder;
    if w.ks.Released? {
      var (state, paper) := AccountState(answers.read, w.paper, now);
      if state.Ok? {
        GateKeepsTerms(risk, w.ks, order, state.value);
      }
    }
  }

  /**
   What a submission does to the book: it appends the position of the order it handed over exactly
   when that order was priced and paid for, and changes nothing otherwise. A reported fill is of
   that very position, so a fill never comes without it.
   */
  lemma SubmitBooksExactlyWhatItPaysFor(risk: RiskConfig, cfg: PaperConfig, w: World, order: Order, answers: Answers,
                                        now: int)
    ensures var (result, after) := Submitted(risk, cfg, w, order, answers, now);
            && (!Reached(cfg, w, result, answers) ==> after.paper.positions == w.paper.positions && result.fill.None?)
            && (Reached(cfg, w, result, answers) ==>
                  var p := PaperLaws.Booking(cfg, answers.place, result.placedOrder.value);
                  && after.paper.positions == w.paper.positions + [p]
                  && (result.fill.Some? ==> after.ks == w.ks && PaperLaws.Reports(cfg, result.fill.value, p)))
  {
    hide Gate, Unrealized, PlaceOrder, OpenPrice, PaperLaws.Reports, Quoted;
    if w.ks.Released? {
      var (state, paper) := AccountState(answers.read, w.paper, now);
      if state.Ok? {
        GateKeepsTerms(risk, w.ks, order, state.value);
        var result := Submitted(risk, cfg, w, order, answers, now).0;
        if result.placedOrder.Some? {
          var sized := result.placedOrder.value;
          PaperLaws.PlaceBooksExactlyWhenPaidFor(cfg, answers.place, paper, sized);
          var fill := PlaceOrder(cfg, answers.place, paper, sized).0;
          assert fill.Ok? ==> PaperLaws.Reports(cfg, fill.value, PaperLaws.Booking(cfg, answers.place, sized));
        }
      }
    }
  }

  /**
   A position can be booked that no fill reports: exactly when the order was priced and paid for and
   some position of the enlarged book has lost its quote by the time the broker marks it.
   */
  lemma BookedUnreportedExactlyWhen(risk: RiskConfig, cfg: PaperConfig, w: World, order: Order, answers: Answers,
                                    now: int)
    ensures var (result, after) := Submitted(risk, cfg, w, order, answers, now);
            result.fill.None? && |after.paper.positions| > |w.paper.positions| <==>
              && Reached(cfg, w, result, answers)
              && !(Quoted(answers.place.mark, w.paper.positions) && order.pair in answers.place.mark)
  {
    hide Gate, Unrealized, PlaceOrder, PaperLaws.PaidFor, Quoted;
    OnlyClearedOrdersArePlaced(risk, cfg, w, order, answers, now);
    if w.ks.Released? {
      var (state, paper) := AccountState(answers.read, w.paper, now);
      assert paper.positions == w.paper.positions && paper.cash == w.paper.cash;
      var result := Submitted(risk, cfg, w, order, answers, now).0;
      if result.placedOrder.Some? {
        var sized := result.placedOrder.value;
        PaperLaws.PlaceFailsAfterBookingExactlyWhen(cfg, answers.place, paper, sized);
        PaperLaws.PlaceBooksExactlyWhenPaidFor(cfg, answers.place, paper, sized);
      }
    }
  }

  /**
   A submission that was cleared but not filled, or that could not read the account, leaves the latch engaged
   by that failure; and an engaged latch refuses everything.
   */
  lemma FailuresEngageTheLatch(risk: RiskConfig, cfg: PaperConfig, w: World, order: Order, answers: Answers, now: int)
    ensures var (result, after) := Submitted(risk, cfg, w, order, answers, now);
            && (result.placedOrder.Some? && result.fill.None? ==>
                  after.ks == Engaged(BrokerFailed("place_order"), "exception", now))
            && (w.ks.Released? && AccountState(answers.read, w.paper, now).0.Err? ==>
                  after.ks == Engaged(BrokerFailed("get_account_state"), "exception", now)
                  && result.decision.rejectedBy == [KillSwitchEngaged])
            && (w.ks.Engaged? ==>
                  && after == w && result.fill.None? && result.placedOrder.None?
                  && result.decision.rejectedBy == [KillSwitchEngaged])
  {
    hide Gate, Unrealized, PlaceOrder;
    if w.ks.Released? {
      var (state, paper) := AccountState(answers.read, w.paper, now);
      if state.Ok? {
        GateKeepsTerms(risk, w.ks, order, state.value);
      }
    }
  }

  /**
   A placed order was cleared against the account as it was read, so it is clipped to the
   per-trade cap and with it the book is within every configured cap.
   */
  lemma PlacementsAreWithinCaps(risk: RiskConfig, cfg: PaperConfig, w: World, order: Order, answers: Answers, now: int)
    requires Submitted(risk, cfg, w, order, answers, now).0.placedOrder.Some?
    ensures Quoted(answers.read, w.paper.positions)
    ensures var placed := Submitted(risk, cfg, w, order, answers, now).0.placedOrder.value;
            && GateLaws.IsClipped(risk, Equity(answers.read, w.paper), order, placed.size)
            && GateLaws.WithinConfig(risk, Equity(answers.read, w.paper), placed, w.paper.positions)
  {
    hide Gate, Unrealized, PlaceOrder, GateLaws.WithinConfig, GateLaws.IsClipped, GateLaws.AccountClear;
    var (state, paper) := AccountState(answers.read, w.paper, now);
    GateLaws.AcceptanceIsSound(risk, w.ks, order, state.value);
  }

  // ---------------------------------------------------------------- a witness

  const LOOSE_RISK := RiskConfig(1.0, 1.0, 5, 10.0, 10.0, [], 1.0, 1.0)
  const BOTH_PAIRS: Quotes := map["EURUSD" := RawQuote(1.0, 1.0), "USDJPY" := RawQuote(1.0, 1.0)]
  const EURO_ORDER := Order("EURUSD", Long, 1.0, 1.0, 0.5)

  /** A yen position is open and quoted when the account is read, and has lost its quote when the order is placed. */
  lemma SubmitCanBookUnreported(now: int)
    ensures var w := World(Released, Paper(1000.0, [PaperLaws.YEN_LONG], 0.0, 1000.0, 1000.0));
            var (result, after) := Submitted(LOOSE_RISK, PaperLaws.FREE_BROKER, w, EURO_ORDER,
                                             Answers(BOTH_PAIRS, Frozen(PaperLaws.EURO_ONLY)), now);
            && result.fill.None? && result.placedOrder == Some(EURO_ORDER)
            && |after.paper.positions| == 2 && after.ks.Engaged?
  {
    var cfg, answers := PaperLaws.FREE_BROKER, Answers(BOTH_PAIRS, Frozen(PaperLaws.EURO_ONLY));
    var w := World(Released, Paper(1000.0, [PaperLaws.YEN_LONG], 0.0, 1000.0, 1000.0));
    WitnessAccount(now);
    WitnessAccepted(now);
    hide Gate, AccountState, PlaceOrder, Quoted;
    var paper := w.paper;
    PaperLaws.OpenCanFailAfterBooking(paper, EURO_ORDER);
  }

  lemma WitnessAccount(now: int)
    ensures var paper := Paper(1000.0, [PaperLaws.YEN_LONG], 0.0, 1000.0, 1000.0);
            AccountState(BOTH_PAIRS, paper, now)
              == (Ok(Account(1000.0, 1000.0, [PaperLaws.YEN_LONG], 0.0, 0.0, 1000.0, 1000.0, now)), paper)
  {
    var positions := [PaperLaws.YEN_LONG];
    assert positions[1..] == [];
    assert Mark(BOTH_PAIRS["USDJPY"], PaperLaws.YEN_LONG) == 0.0;
    assert Unrealized(BOTH_PAIRS, positions) == 0.0;
  }

  lemma WitnessAccepted(now: int)
    ensures var account := Account(1000.0, 1000.0, [PaperLaws.YEN_LONG], 0.0, 0.0, 1000.0, 1000.0, now);
            var (decision, ks) := Gate(LOOSE_RISK, Released, EURO_ORDER, account);
            decision.Accepted() && decision.sizedOrder == Some(EURO_ORDER) && ks == Released
  {
    hide Gate, GateOnCaps, LimitsAt, Sized, GateLaws.CapsAccept;
    var account := Account(1000.0, 1000.0, [PaperLaws.YEN_LONG], 0.0, 0.0, 1000.0, 1000.0, now);
    LooseLimits(LOOSE_RISK);
    WitnessPassesCaps(now);
    WitnessClear(account);
    GateLaws.AcceptsOnClearAccount(LOOSE_RISK, LimitsAt(LOOSE_RISK, 1000.0), EURO_ORDER, account);
    GateLaws.AcceptedThroughLimits(LOOSE_RISK, Released, EURO_ORDER, account);
    GateKeepsTerms(LOOSE_RISK, Released, EURO_ORDER, account);
  }

  lemma WitnessClear(account: Account)
    requires account.equity == account.peak == account.dayStart == 1000.0
    ensures GateLaws.AccountClear(LOOSE_RISK, Released, account) && EURO_ORDER.StopDistance() > 0.0
  {
  }

  lemma WitnessPassesCaps(now: int)
    ensures GateOnCaps(Limits(1000.0, 10000.0, 10000.0, 1000.0, 5, []), EURO_ORDER, [PaperLaws.YEN_LONG],
                       now).Accepted()
    ensures Sized(1000.0, EURO_ORDER) == EURO_ORDER
  {
    hide NotionalIn, RiskAtStopOf;
    WitnessExposure();
    assert EURO_ORDER.RiskAtStop() == 0.5 && EURO_ORDER.Notional() == 1.0;
  }

  lemma WitnessExposure()
    ensures NotionalIn([PaperLaws.YEN_LONG], {"EURUSD"}) == 0.0 && RiskAtStopOf([PaperLaws.YEN_LONG]) == 0.5
  {
    var positions := [PaperLaws.YEN_LONG];
    assert positions[1..] == [];
    assert NotionalIn(positions[1..], {"EURUSD"}) == 0.0 && RiskAtStopOf(positions[1..]) == 0.0;
  }

  // ---------------------------------------------------------------- histories

  /** Whatever reaches the broker or the latch. Every broker call carries its own answers, or their absence. */
  datatype Event =
    | SubmitOrder(order: Order, answers: Answers, now: int)
    | ReadAccount(quotes: Quotes, now: int)
    | CloseOpen(position: Position, feed: Feed)
    | TripSwitch(reason: TripReason, trippedBy: string, now: int)
    | ResetSwitch(confirmation: string)

  ghost function Apply(risk: RiskConfig, cfg: PaperConfig, w: World, e: Event): World {
    match e
    case SubmitOrder(order, answers, now) => Submitted(risk, cfg, w, order, answers, now).1
    case ReadAccount(quotes, now) => w.(paper := AccountState(quotes, w.paper, now).1)
    case CloseOpen(position, feed) => w.(paper := ClosePosition(cfg, feed, w.paper, position).1)
    case TripSwitch(reason, trippedBy, now) => w.(ks := Tripped(w.ks, reason, trippedBy, now))
    case ResetSwitch(confirmation) => w.(ks := AfterReset(w.ks, confirmation))
  }

  ghost function After(risk: RiskConfig, cfg: PaperConfig, w: World, history: seq<Event>): World {
    if history == [] then w
    else Apply(risk, cfg, After(risk, cfg, w, history[..|history| - 1]), history[|history| - 1])
  }

  predicate Releases(e: Event) {
    e.ResetSwitch? && e.confirmation == RESET_TOKEN
  }

  /** One event under an engaged latch: only a confirmed reset moves it, and nothing is opened. */
  lemma LatchedStep(risk: RiskConfig, cfg: PaperConfig, w: World, e: Event)
    requires w.ks.Engaged?
    ensures Apply(risk, cfg, w, e).ks == if Releases(e) then Released else w.ks
    ensures multiset(Apply(risk, cfg, w, e).paper.positions) <= multiset(w.paper.positions)
  {
    match e
    case CloseOpen(p, feed) =>
      hide ClosePosition;
      PaperLaws.CloseRemovesOne(cfg, feed, w.paper, p);
    case SubmitOrder(order, answers, now) => FailuresEngageTheLatch(risk, cfg, w, order, answers, now);
    case ReadAccount(quotes, now) => hide Unrealized;
    case _ =>
  }

  /**
   Once the latch is engaged, and until an operator confirms a reset, no history of submissions,
   account reads, closes and further trips, whatever the provider answers or fails to answer to each
   call, opens anything or replaces the first cause.
   */
  lemma {:induction false} NothingOpensWhileLatched(risk: RiskConfig, cfg: PaperConfig, w: World, history: seq<Event>)
    requires w.ks.Engaged?
    requires forall i :: 0 <= i < |history| ==> !Releases(history[i])
    ensures After(risk, cfg, w, history).ks == w.ks
    ensures multiset(After(risk, cfg, w, history).paper.positions) <= multiset(w.paper.positions)
  {
    hide Apply, Releases;
    if history != [] {
      NothingOpensWhileLatched(risk, cfg, w, history[..|history| - 1]);
      LatchedStep(risk, cfg, After(risk, cfg, w, history[..|history| - 1]), history[|history| - 1]);
    }
  }

  lemma StepKeepsPositionsBounded(risk: RiskConfig, cfg: PaperConfig, w: World, e: Event)
    requires |w.paper.positions| <= risk.maxConcurrentPositions
    ensures |Apply(risk, cfg, w, e).paper.positions| <= risk.maxConcurrentPositions
  {
    match e
    case CloseOpen(p, feed) =>
      hide ClosePosition;
      PaperLaws.CloseRemovesOne(cfg, feed, w.paper, p);
      assert |multiset(w.paper.positions)| == |w.paper.positions|;
      var after := ClosePosition(cfg, feed, w.paper, p).1.positions;
      assert |multiset(after)| == |after|;
    case SubmitOrder(order, answers, now) =>
      hide Submitted, PaperLaws.PaidFor;
      OnlyClearedOrdersArePlaced(risk, cfg, w, order, answers, now);
      SubmitBooksExactlyWhatItPaysFor(risk, cfg, w, order, answers, now);
    case ReadAccount(quotes, now) => hide Unrealized;
    case _ =>
  }

  /** No history whatsoever holds more positions than the cap allows. */
  lemma {:induction false} PositionsNeverExceedCap(risk: RiskConfig, cfg: PaperConfig, w: World, history: seq<Event>)
    requires |w.paper.positions| <= risk.maxConcurrentPositions
    ensures |After(risk, cfg, w, history).paper.positions| <= risk.maxConcurrentPositions
  {
    hide Apply;
    if history != [] {
      PositionsNeverExceedCap(risk, cfg, w, history[..|history| - 1]);
      StepKeepsPositionsBounded(risk, cfg, After(risk, cfg, w, history[..|history| - 1]), history[|history| - 1]);
    }
  }

  // ------------------------------------------------------------ cash, over histories

  /** The commission an event pays on opening a position, whether or not a fill reports it. */
  ghost function OpenCommission(risk: RiskConfig, cfg: PaperConfig, w: World, e: Event): real {
    match e
    case SubmitOrder(order, answers, now) =>
      var result := Submitted(risk, cfg, w, order, answers, now).0;
      if Reached(cfg, w, result, answers) then result.placedOrder.value.size * cfg.commissionPerUnit else 0.0
    case _ => 0.0
  }

  ghost function OpenCommissions(risk: RiskConfig, cfg: PaperConfig, w: World, history: seq<Event>): real {
    if history == [] then 0.0
    else
      var earlier := history[..|history| - 1];
      OpenCommissions(risk, cfg, w, earlier)
      + OpenCommission(risk, cfg, After(risk, cfg, w, earlier), history[|history| - 1])
  }

  lemma SubmitKeepsCashAccounted(risk: RiskConfig, cfg: PaperConfig, w: World, order: Order, answers: Answers,
                                 now: int, paid: real)
    requires PaperLaws.CashAccounted(cfg, w.paper, paid)
    ensures var e := SubmitOrder(order, answers, now);
            PaperLaws.CashAccounted(cfg, Apply(risk, cfg, w, e).paper, paid + OpenCommission(risk, cfg, w, e))
  {
    hide Gate, Unrealized, OpenPrice, Quoted;
  }

  lemma StepKeepsCashAccounted(risk: RiskConfig, cfg: PaperConfig, w: World, e: Event, paid: real)
    requires PaperLaws.CashAccounted(cfg, w.paper, paid)
    ensures PaperLaws.CashAccounted(cfg, Apply(risk, cfg, w, e).paper, paid + OpenCommission(risk, cfg, w, e))
  {
    match e
    case CloseOpen(p, feed) =>
      hide ClosePosition, PaperLaws.CashAccounted;
      PaperLaws.PerformKeepsCashAccounted(cfg, feed, w.paper, PaperLaws.Close(p), paid);
    case SubmitOrder(order, answers, now) =>
      hide Apply, OpenCommission, PaperLaws.CashAccounted;
      SubmitKeepsCashAccounted(risk, cfg, w, order, answers, now, paid);
    case ReadAccount(quotes, now) => hide Unrealized;
    case _ =>
  }

  /**
   Over any history, cash is the starting balance plus realized P&L less the commission of every
   position it booked, reported or not.
   */
  lemma {:induction false} CashOverHistory(risk: RiskConfig, cfg: PaperConfig, ks: KillSwitch, history: seq<Event>)
    ensures var start := World(ks, NewPaper(cfg));
            PaperLaws.CashAccounted(cfg, After(risk, cfg, start, history).paper,
                                    OpenCommissions(risk, cfg, start, history))
  {
    hide Apply, OpenCommission;
    var start := World(ks, NewPaper(cfg));
    if history != [] {
      var earlier := history[..|history| - 1];
      CashOverHistory(risk, cfg, ks, earlier);
      StepKeepsCashAccounted(risk, cfg, After(risk, cfg, start, earlier), history[|history| - 1],
                             OpenCommissions(risk, cfg, start, earlier));
    }
  }
}
