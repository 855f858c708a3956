/**
 The highest equity the paper broker has looked at: what the peak is after any history, and what the
 drawdown check therefore stops.
 */
module PeakLaws {
  import opened Models
  import opened RiskGate
  import opened PaperLedger
  import opened Execution
  import PaperLaws
  import GateLaws

  // ------------------------------------------------------------ the account read

  /** The highest of a first equity and some later ones. */
  ghost predicate IsHighest(peak: real, start: real, looks: seq<real>) {
    && start <= peak && (forall look :: look in looks ==> look <= peak)
    && (peak == start || peak in looks)
  }

  /** The equity a look finds, when every open position has a quote. */
  function LookAt(quotes: Quotes, s: Paper): seq<real> {
    if Quoted(quotes, s.positions) then [s.cash + Unrealized(quotes, s.positions)] else []
  }

  /** What an account read reports, and what it leaves behind; one that finds a quote missing leaves no trace. */
  lemma AccountReports(quotes: Quotes, s: Paper, now: int)
    ensures var (read, after) := AccountState(quotes, s, now);
            && (read.Ok? <==> Quoted(quotes, s.positions) && s.dayStart > 0.0)
            && (read == Err(NoQuote) <==> !Quoted(quotes, s.positions))
            && after == s.(peak := after.peak) && IsHighest(after.peak, s.peak, LookAt(quotes, s))
            && (read.Ok? ==>
                  var unrealized := Unrealized(quotes, s.positions);
                  read.value == Account(s.cash, s.cash + unrealized, s.positions, s.realizedToday, unrealized,
                                        after.peak, s.dayStart, now))
  {
    hide Unrealized;
  }

  lemma HighestOfNone(start: real)
    ensures IsHighest(start, start, [])
  {
  }

  lemma HighestComposes(peak: real, middle: real, start: real, looks: seq<real>, more: seq<real>)
    requires IsHighest(middle, start, looks) && IsHighest(peak, middle, more)
    ensures IsHighest(peak, start, looks + more)
  {
  }

  // ------------------------------------------------------------ looks, over histories

  /** The equities an event looks at: an account read, and the book as a booked trade leaves it. */
  ghost function LooksOf(risk: RiskConfig, cfg: PaperConfig, w: World, e: Event): seq<real> {
    match e
    case ReadAccount(quotes, _) => LookAt(quotes, w.paper)
    case SubmitOrder(order, answers, now) =>
      if w.ks.Engaged? then []
      else
        var (result, after) := Submitted(risk, cfg, w, order, answers, now);
        LookAt(answers.read, w.paper)
        + if Reached(cfg, w, result, answers) then LookAt(answers.place.mark, after.paper) else []
    case CloseOpen(p, feed) =>
      var after := ClosePosition(cfg, feed, w.paper, p).1;
      if |after.positions| < |w.paper.positions| then LookAt(feed.mark, after) else []
    case _ => []
  }

  ghost function Looks(risk: RiskConfig, cfg: PaperConfig, w: World, history: seq<Event>): seq<real> {
    if history == [] then []
    else
      var earlier := history[..|history| - 1];
      Looks(risk, cfg, w, earlier) + LooksOf(risk, cfg, After(risk, cfg, w, earlier), history[|history| - 1])
  }

  lemma PlaceLooks(cfg: PaperConfig, feed: Feed, s: Paper, order: Order)
    ensures var after := PlaceOrder(cfg, feed, s, order).1;
            && after.dayStart == s.dayStart
            && IsHighest(after.peak, s.peak,
                         if PaperLaws.PaidFor(cfg, feed, s.cash, order) then LookAt(feed.mark, after) else [])
  {
    hide OpenPrice, Unrealized, Quoted;
  }

  lemma CloseLooks(cfg: PaperConfig, feed: Feed, s: Paper, p: Position)
    ensures var after := ClosePosition(cfg, feed, s, p).1;
            && after.dayStart == s.dayStart
            && IsHighest(after.peak, s.peak,
                         if |after.positions| < |s.positions| then LookAt(feed.mark, after) else [])
  {
    hide Commission, ClosePnl, ClosePrice, Unrealized, Quoted;
    var i := IndexOf(s.positions, p);
    if i < |s.positions| {
      assert |s.positions[..i] + s.positions[i + 1..]| < |s.positions|;
    }
  }

  lemma SubmissionLooks(risk: RiskConfig, cfg: PaperConfig, w: World, order: Order, answers: Answers, now: int)
    ensures var after := Submitted(risk, cfg, w, order, answers, now).1;
            && after.paper.dayStart == w.paper.dayStart
            && IsHighest(after.paper.peak, w.paper.peak,
                         LooksOf(risk, cfg, w, SubmitOrder(order, answers, now)))
  {
    hide Gate, Unrealized, PlaceOrder, PaperLaws.PaidFor, IsHighest, Quoted;
    var (result, after) := Submitted(risk, cfg, w, order, answers, now);
    if w.ks.Engaged? {
      HighestOfNone(w.paper.peak);
    } else {
      AccountReports(answers.read, w.paper, now);
      var (read, paper) := AccountState(answers.read, w.paper, now);
      var first := LookAt(answers.read, w.paper);
      if result.placedOrder.Some? {
        PlaceLooks(cfg, answers.place, paper, result.placedOrder.value);
        var second := if Reached(cfg, w, result, answers) then LookAt(answers.place.mark, after.paper) else [];
        HighestComposes(after.paper.peak, paper.peak, w.paper.peak, first, second);
      } else {
        assert first + [] == first;
      }
    }
  }

  lemma StepLooks(risk: RiskConfig, cfg: PaperConfig, w: World, e: Event)
    ensures var after := Apply(risk, cfg, w, e);
            && after.paper.dayStart == w.paper.dayStart
            && IsHighest(after.paper.peak, w.paper.peak, LooksOf(risk, cfg, w, e))
  {
    match e
    case ReadAccount(quotes, now) => AccountReports(quotes, w.paper, now); hide Unrealized;
    case CloseOpen(p, feed) => CloseLooks(cfg, feed, w.paper, p); hide ClosePosition;
    case SubmitOrder(order, answers, now) =>
      SubmissionLooks(risk, cfg, w, order, answers, now); hide Submitted, LooksOf, IsHighest;
    case _ =>
  }

  /**
   After any history of a new broker, its peak is the highest of the starting balance and every equity
   it has looked at since, and the equity its day began with is still the configured one.
   */
  lemma {:induction false} PeakIsHighestLook(risk: RiskConfig, cfg: PaperConfig, ks: KillSwitch, history: seq<Event>)
    ensures var start := World(ks, NewPaper(cfg));
            var after := After(risk, cfg, start, history);
            && IsHighest(after.paper.peak, cfg.startingBalance, Looks(risk, cfg, start, history))
            && after.paper.dayStart
                 == if cfg.dayStartEquity.Some? then cfg.dayStartEquity.value else cfg.startingBalance
  {
    hide Apply, LooksOf;
    var start := World(ks, NewPaper(cfg));
    if history != [] {
      hide IsHighest;
      var earlier := history[..|history| - 1];
      PeakIsHighestLook(risk, cfg, ks, earlier);
      var before := After(risk, cfg, start, earlier);
      StepLooks(risk, cfg, before, history[|history| - 1]);
      HighestComposes(After(risk, cfg, start, history).paper.peak, before.paper.peak, cfg.startingBalance,
                      Looks(risk, cfg, start, earlier), LooksOf(risk, cfg, before, history[|history| - 1]));
    }
  }

  // ------------------------------------------------------------ what the drawdown check stops

  /**
   A submission whose account read finds the equity down by the drawdown limit from anything looked at
   before, or from the starting balance, hands the broker nothing, books nothing, and leaves the latch
   engaged unless the order has no stop distance or the equity is gone, which are refused earlier.
   */
  lemma DeepFallPlacesNothing(risk: RiskConfig, cfg: PaperConfig, ks: KillSwitch, history: seq<Event>,
                              order: Order, answers: Answers, now: int, high: real)
    requires var start := World(ks, NewPaper(cfg));
             var w := After(risk, cfg, start, history);
             && (high == cfg.startingBalance || high in Looks(risk, cfg, start, history))
             && Quoted(answers.read, w.paper.positions)
             && high - (w.paper.cash + Unrealized(answers.read, w.paper.positions)) >= risk.maxDrawdown * high
    ensures var w := After(risk, cfg, World(ks, NewPaper(cfg)), history);
            var (result, after) := Submitted(risk, cfg, w, order, answers, now);
            && result.placedOrder.None? && result.fill.None? && after.paper.positions == w.paper.positions
            && (&& order.entryPrice != order.stopPrice
                && w.paper.cash + Unrealized(answers.read, w.paper.positions) > 0.0
                ==> after.ks.Engaged?)
  {
    PeakIsHighestLook(risk, cfg, ks, history);
    var w := After(risk, cfg, World(ks, NewPaper(cfg)), history);
    hide Gate, Unrealized, PlaceOrder, After, Looks;
    if w.ks.Released? {
      AccountReports(answers.read, w.paper, now);
      var (read, paper) := AccountState(answers.read, w.paper, now);
      if read.Ok? {
        var account := read.value;
        StillBelow(risk.maxDrawdown, high, account.peak, account.equity);
        GateLaws.GateTripsExactlyOnBreach(risk, w.ks, order, account);
        RefusedWhenDeep(risk, w.ks, order, account);
      }
    }
  }

  lemma StillBelow(limit: LossPercent, high: real, peak: real, equity: real)
    requires high <= peak && high - equity >= limit * high
    ensures peak - equity >= limit * peak
  {
    ScaleLess(high, peak, 1.0 - limit);
    assert (1.0 - limit) * peak == peak - limit * peak && (1.0 - limit) * high == high - limit * high;
  }

  lemma RefusedWhenDeep(risk: RiskConfig, ks: KillSwitch, order: Order, account: Account)
    requires account.peak - account.equity >= risk.maxDrawdown * account.peak
    ensures !Gate(risk, ks, order, account).0.Accepted()
    ensures Gate(risk, ks, order, account).0.sizedOrder.None?
  {
    hide Gate, GateLaws.IsClipped, GateLaws.WithinConfig;
    GateLaws.AcceptedExactlyWhen(risk, ks, order, account);
    GateLaws.DecisionRecords(risk, ks, order, account);
  }
}
