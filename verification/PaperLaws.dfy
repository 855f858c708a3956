/** What the paper broker's operations conserve, over any sequence of them. */
module PaperLaws {
  import opened Models
  import opened PaperLedger

  // ------------------------------------------------------------- one trade

  /** What opening a position costs, in equity at the same quotes. */
  function OpenCost(cfg: PaperConfig, quote: Quote, size: real): real {
    size * (quote.ask - quote.bid + cfg.extraHalfSpread) + size * cfg.commissionPerUnit
  }

  /** What closing one costs, in equity at the same quotes: the markup the marks leave out, and commission. */
  function CloseCost(cfg: PaperConfig, size: real): real {
    size * cfg.extraHalfSpread + size * cfg.commissionPerUnit
  }

  lemma CostsNonnegative(cfg: PaperConfig, quote: Quote, size: PositiveDecimal)
    ensures OpenCost(cfg, quote, size) >= 0.0 && CloseCost(cfg, size) >= 0.0
  {
    NonnegativeProduct(size, quote.ask - quote.bid + cfg.extraHalfSpread);
    NonnegativeProduct(size, cfg.extraHalfSpread);
    NonnegativeProduct(size, cfg.commissionPerUnit);
  }

  lemma NonnegativeProduct(x: real, y: real)
    requires x >= 0.0 && y >= 0.0
    ensures x * y >= 0.0
  {
  }

  /** A fresh position is marked below its fill by the spread and the markup, on top of its commission. */
  lemma FreshMark(cfg: PaperConfig, quote: Quote, p: Position)
    requires p.entryPrice == OpenPrice(cfg, quote, p.direction)
    ensures Mark(quote, p) - p.size * cfg.commissionPerUnit == -OpenCost(cfg, quote, p.size)
  {
    var gap := quote.ask - quote.bid + cfg.extraHalfSpread;
    if p.direction.Long? {
      assert quote.bid - p.entryPrice == -gap;
    } else {
      assert p.entryPrice - quote.ask == -gap;
    }
    assert (-gap) * p.size == -(p.size * gap);
  }

  /** Closing nets the mark less the markup and the commission. */
  lemma CloseRealizesMark(cfg: PaperConfig, quote: Quote, p: Position)
    ensures ClosePnl(cfg, quote, p) - p.size * cfg.commissionPerUnit == Mark(quote, p) - CloseCost(cfg, p.size)
  {
    if p.direction.Long? {
      Distribute(quote.bid - p.entryPrice, cfg.extraHalfSpread, p.size);
      assert ClosePrice(cfg, quote, Long) - p.entryPrice == (quote.bid - p.entryPrice) - cfg.extraHalfSpread;
    } else {
      Distribute(p.entryPrice - quote.ask, cfg.extraHalfSpread, p.size);
      assert p.entryPrice - ClosePrice(cfg, quote, Short) == (p.entryPrice - quote.ask) - cfg.extraHalfSpread;
    }
  }

  lemma {:induction false} UnrealizedOfInsert(quotes: Quotes, positions: seq<Position>, i: nat, p: Position)
    requires i <= |positions| && Quoted(quotes, positions[..i] + [p] + positions[i..])
    ensures Quoted(quotes, positions) && p.pair in quotes
    ensures Unrealized(quotes, positions[..i] + [p] + positions[i..])
         == Unrealized(quotes, positions) + Mark(quotes[p.pair], p)
  {
    hide Mark;
    var inserted := positions[..i] + [p] + positions[i..];
    assert forall q :: q in positions ==> q in inserted;
    assert inserted[i] == p;
    if i == 0 {
      assert inserted[1..] == positions;
    } else {
      assert inserted[1..] == positions[1..][..i - 1] + [p] + positions[1..][i - 1..];
      UnrealizedOfInsert(quotes, positions[1..], i - 1, p);
    }
  }

  // ------------------------------------------------------------ one operation

  datatype Trade = Open(order: Order) | Close(position: Position)

  function Perform(cfg: PaperConfig, feed: Feed, s: Paper, trade: Trade): (Result<Fill, Failure>, Paper) {
    match trade
    case Open(order) => PlaceOrder(cfg, feed, s, order)
    case Close(position) => ClosePosition(cfg, feed, s, position)
  }

  /** The equity a trade consumes at quotes that stand still; one that fails consumes nothing. */
  function CostOf(cfg: PaperConfig, quotes: Quotes, s: Paper, trade: Trade): real {
    var result := Perform(cfg, Frozen(quotes), s, trade).0;
    if result.Err? then 0.0
    else
      match trade
      case Open(order) => if order.pair in quotes then OpenCost(cfg, quotes[order.pair], order.size) else 0.0
      case Close(position) => CloseCost(cfg, position.size)
  }

  /** With every open position quoted and the peak caught up, as it is after any snapshot. */
  predicate Settled(quotes: Quotes, s: Paper) {
    Quoted(quotes, s.positions) && Equity(quotes, s) <= s.peak
  }

  lemma OpenConsumesCost(cfg: PaperConfig, quotes: Quotes, s: Paper, order: Order)
    requires Settled(quotes, s)
    ensures var (result, after) := PlaceOrder(cfg, Frozen(quotes), s, order);
            && Settled(quotes, after) && after.peak == s.peak
            && Equity(quotes, after) == Equity(quotes, s) - CostOf(cfg, quotes, s, Open(order))
            && (result.Err? ==> after == s)
  {
    hide Mark, OpenPrice, OpenCost;
    var (result, after) := PlaceOrder(cfg, Frozen(quotes), s, order);
    if order.pair in quotes && OpenPrice(cfg, quotes[order.pair], order.direction) > 0.0
        && order.size * cfg.commissionPerUnit <= s.cash {
      var quote := quotes[order.pair];
      var p := Position(order.pair, order.direction, order.size, OpenPrice(cfg, quote, order.direction),
                        order.stopPrice);
      FreshMark(cfg, quote, p);
      CostsNonnegative(cfg, quote, order.size);
      var positions := s.positions;
      assert positions[..|positions|] + [p] + positions[|positions|..] == positions + [p];
      QuotedExtends(quotes, positions, p);
      UnrealizedOfInsert(quotes, positions, |positions|, p);
      hide Unrealized, Quoted;
    }
  }

  lemma QuotedExtends(quotes: Quotes, positions: seq<Position>, p: Position)
    ensures Quoted(quotes, positions + [p]) <==> Quoted(quotes, positions) && p.pair in quotes
  {
    assert forall q :: q in positions + [p] <==> q in positions || q == p;
  }

  /** Taking one position out of a quoted book takes its mark out of the total. */
  lemma RemovalTakesMark(quotes: Quotes, positions: seq<Position>, i: nat)
    requires Quoted(quotes, positions) && i < |positions|
    ensures var rest := positions[..i] + positions[i + 1..];
            && Quoted(quotes, rest) && positions[i].pair in quotes
            && Unrealized(quotes, positions) == Unrealized(quotes, rest) + Mark(quotes[positions[i].pair], positions[i])
  {
    var rest := positions[..i] + positions[i + 1..];
    assert rest[..i] + [positions[i]] + rest[i..] == positions;
    UnrealizedOfInsert(quotes, rest, i, positions[i]);
  }

  lemma CloseConsumesCost(cfg: PaperConfig, quotes: Quotes, s: Paper, p: Position)
    requires Settled(quotes, s)
    ensures var (result, after) := ClosePosition(cfg, Frozen(quotes), s, p);
            && Settled(quotes, after) && after.peak == s.peak
            && Equity(quotes, after) == Equity(quotes, s) - CostOf(cfg, quotes, s, Close(p))
            && (result.Err? ==> after == s)
  {
    hide Mark, ClosePnl, ClosePrice, CloseCost, Unrealized, Quoted, IndexOf;
    var i := IndexOf(s.positions, p);
    if i < |s.positions| {
      RemovalTakesMark(quotes, s.positions, i);
      CloseRealizesMark(cfg, quotes[p.pair], p);
      CostsNonnegative(cfg, quotes[p.pair], p.size);
    }
  }

  // --------------------------------------------------------------- sequences

  function PerformAll(cfg: PaperConfig, quotes: Quotes, s: Paper, trades: seq<Trade>): Paper {
    if trades == [] then s
    else Perform(cfg, Frozen(quotes), PerformAll(cfg, quotes, s, trades[..|trades| - 1]), trades[|trades| - 1]).1
  }

  function TotalCost(cfg: PaperConfig, quotes: Quotes, s: Paper, trades: seq<Trade>): real {
    if trades == [] then 0.0
    else
      var earlier := trades[..|trades| - 1];
      TotalCost(cfg, quotes, s, earlier)
      + CostOf(cfg, quotes, PerformAll(cfg, quotes, s, earlier), trades[|trades| - 1])
  }

  lemma CostOfNonnegative(cfg: PaperConfig, quotes: Quotes, s: Paper, trade: Trade)
    ensures CostOf(cfg, quotes, s, trade) >= 0.0
  {
    match trade
    case Open(order) =>
      if order.pair in quotes {
        CostsNonnegative(cfg, quotes[order.pair], order.size);
      }
      hide OpenCost, CloseCost, PlaceOrder, ClosePosition;
    case Close(p) =>
      CostsNonnegative(cfg, RawQuote(1.0, 1.0), p.size);
      hide OpenCost, CloseCost, PlaceOrder, ClosePosition;
  }

  /**
   No money pump: at frozen quotes, any sequence of opens and closes loses exactly the spread,
   markup and commission of the trades that filled, and leaves the peak where it was.
   */
  lemma {:induction false} NoMoneyPump(cfg: PaperConfig, quotes: Quotes, s: Paper, trades: seq<Trade>)
    requires Settled(quotes, s)
    ensures var after := PerformAll(cfg, quotes, s, trades);
            && Settled(quotes, after) && after.peak == s.peak
            && Equity(quotes, after) == Equity(quotes, s) - TotalCost(cfg, quotes, s, trades)
    ensures TotalCost(cfg, quotes, s, trades) >= 0.0
  {
    hide PlaceOrder, ClosePosition, CostOf, Equity, Unrealized;
    if trades != [] {
      var earlier, last := trades[..|trades| - 1], trades[|trades| - 1];
      NoMoneyPump(cfg, quotes, s, earlier);
      var before := PerformAll(cfg, quotes, s, earlier);
      CostOfNonnegative(cfg, quotes, before, last);
      match last
      case Open(order) => OpenConsumesCost(cfg, quotes, before, order);
      case Close(p) => CloseConsumesCost(cfg, quotes, before, p);
    }
  }

  // -------------------------------------------------------------- accounting

  /** Cash beyond the starting balance is realized P&L less the commissions paid on opening. */
  predicate CashAccounted(cfg: PaperConfig, s: Paper, openCommissions: real) {
    s.cash == cfg.startingBalance + s.realizedToday - openCommissions
  }

  /** The commission an operation pays on opening, whatever its result: a late failure has already paid it. */
  function OpenCommissionOf(cfg: PaperConfig, feed: Feed, s: Paper, trade: Trade): real {
    match trade
    case Open(order) =>
      if |PlaceOrder(cfg, feed, s, order).1.positions| > |s.positions| then order.size * cfg.commissionPerUnit else 0.0
    case Close(_) => 0.0
  }

  /** Any operation, at any quotes, even one that fails half way, keeps the account of cash. */
  lemma PerformKeepsCashAccounted(cfg: PaperConfig, feed: Feed, s: Paper, trade: Trade, openCommissions: real)
    requires CashAccounted(cfg, s, openCommissions)
    ensures CashAccounted(cfg, Perform(cfg, feed, s, trade).1, openCommissions + OpenCommissionOf(cfg, feed, s, trade))
  {
    hide Unrealized, ClosePnl, OpenPrice, ClosePrice;
  }

  lemma RemoveOne<T>(xs: seq<T>, i: nat)
    requires i < |xs|
    ensures multiset(xs) == multiset(xs[..i] + xs[i + 1..]) + multiset{xs[i]}
  {
    assert xs == xs[..i] + [xs[i]] + xs[i + 1..];
  }

  /** A close either removes exactly one position equal to the given one, or changes nothing. */
  lemma CloseRemovesOne(cfg: PaperConfig, feed: Feed, s: Paper, p: Position)
    ensures var after := ClosePosition(cfg, feed, s, p).1;
            || after == s
            || (p in s.positions && multiset(s.positions) == multiset(after.positions) + multiset{p})
  {
    hide Unrealized, ClosePnl, ClosePrice, IndexOf, Quoted;
    var i := IndexOf(s.positions, p);
    if i < |s.positions| {
      RemoveOne(s.positions, i);
    }
  }

  // --------------------------------------------- failures that come too late

  /** A trade books itself before it marks the book, so a quote missing from the marks fails it too late. */
  lemma CloseFailsAfterBookingExactlyWhen(cfg: PaperConfig, feed: Feed, s: Paper, p: Position)
    ensures var (result, after) := ClosePosition(cfg, feed, s, p);
            var i := IndexOf(s.positions, p);
            result.Err? && after != s <==>
              && i < |s.positions| && p.pair in feed.fill && ClosePrice(cfg, feed.fill[p.pair], p.direction) > 0.0
              && !Quoted(feed.mark, s.positions[..i] + s.positions[i + 1..])
  {
    hide ClosePnl, ClosePrice, Unrealized;
    var i := IndexOf(s.positions, p);
    if i < |s.positions| {
      assert |s.positions[..i] + s.positions[i + 1..]| < |s.positions|;
    }
  }

  /** An open is priced, paid for and appended exactly under the guards it checks, whether or not it then fails. */
  lemma PlaceBooksExactlyWhenPaidFor(cfg: PaperConfig, feed: Feed, s: Paper, order: Order)
    ensures var (result, after) := PlaceOrder(cfg, feed, s, order);
            && (PaidFor(cfg, feed, s.cash, order) ==>
                  && after.positions == s.positions + [Booking(cfg, feed, order)]
                  && after.cash == s.cash - order.size * cfg.commissionPerUnit)
            && (!PaidFor(cfg, feed, s.cash, order) ==> after == s && result.Err?)
            && (result.Ok? ==> Reports(cfg, result.value, Booking(cfg, feed, order)))
  {
    hide OpenPrice, Unrealized, Quoted;
  }

  /** The guards of an open: a quote to fill at, a positive price, and cash for the commission. */
  predicate PaidFor(cfg: PaperConfig, feed: Feed, cash: real, order: Order) {
    && order.pair in feed.fill && OpenPrice(cfg, feed.fill[order.pair], order.direction) > 0.0
    && order.size * cfg.commissionPerUnit <= cash
  }

  /** The fill an open reports of the position it booked. */
  predicate Reports(cfg: PaperConfig, fill: Fill, p: Position) {
    fill == Fill(p.pair, p.direction, p.size, p.entryPrice, p.size * cfg.commissionPerUnit)
  }

  /** The position an open books. */
  function Booking(cfg: PaperConfig, feed: Feed, order: Order): Position
    requires order.pair in feed.fill && OpenPrice(cfg, feed.fill[order.pair], order.direction) > 0.0
  {
    Position(order.pair, order.direction, order.size, OpenPrice(cfg, feed.fill[order.pair], order.direction),
             order.stopPrice)
  }

  /** It reports an error after that exactly when some position of the enlarged book has no quote at the mark. */
  lemma PlaceFailsAfterBookingExactlyWhen(cfg: PaperConfig, feed: Feed, s: Paper, order: Order)
    ensures var (result, after) := PlaceOrder(cfg, feed, s, order);
            result.Err? && |after.positions| > |s.positions| <==>
              PaidFor(cfg, feed, s.cash, order) && !(Quoted(feed.mark, s.positions) && order.pair in feed.mark)
  {
    hide OpenPrice, Unrealized, Quoted;
    if PaidFor(cfg, feed, s.cash, order) {
      QuotedExtends(feed.mark, s.positions, Booking(cfg, feed, order));
    }
  }

  /** What a trade reports when it fails: the first obstacle it meets, or the quote it misses at the end. */
  lemma FailuresAreNamed(cfg: PaperConfig, feed: Feed, s: Paper, order: Order, p: Position)
    ensures var result := PlaceOrder(cfg, feed, s, order).0;
            result.Err? ==>
              result.error == if order.pair !in feed.fill then NoQuote
                              else if OpenPrice(cfg, feed.fill[order.pair], order.direction) <= 0.0 then NonPositiveFill
                              else if order.size * cfg.commissionPerUnit > s.cash then InsufficientCash
                              else NoQuote
    ensures var result := ClosePosition(cfg, feed, s, p).0;
            result.Err? ==>
              result.error == if p !in s.positions then PositionNotOpen
                              else if p.pair !in feed.fill then NoQuote
                              else if ClosePrice(cfg, feed.fill[p.pair], p.direction) <= 0.0 then NonPositiveFill
                              else NoQuote
  {
    hide OpenPrice, ClosePrice, ClosePnl, Unrealized, Quoted;
  }

  /** The fill a close reports: the other side of the position, at the side of the quote it closes at and marked up. */
  lemma CloseReports(cfg: PaperConfig, feed: Feed, s: Paper, p: Position)
    ensures var result := ClosePosition(cfg, feed, s, p).0;
            result.Ok? ==>
              && p.pair in feed.fill
              && var quote, long := feed.fill[p.pair], p.direction == Long;
                 && result.value.pair == p.pair && result.value.direction == (if long then Short else Long)
                 && result.value.size == p.size && result.value.commission == p.size * cfg.commissionPerUnit
                 && result.value.fillPrice
                      == (if long then quote.bid - cfg.extraHalfSpread else quote.ask + cfg.extraHalfSpread)
  {
    hide ClosePnl, Unrealized, Quoted;
  }

  const EURO_LONG := Position("EURUSD", Long, 1.0, 1.0, 0.5)
  const YEN_LONG := Position("USDJPY", Long, 1.0, 1.0, 0.5)
  const EURO_ONLY: Quotes := map["EURUSD" := RawQuote(1.0, 1.0)]
  const FREE_BROKER := PaperConfig(1000.0, 0.0, 0.0, None)

  /** With a second position whose quote has gone missing, a close reports an error after it has been booked. */
  lemma CloseCanFailAfterBooking(s: Paper)
    requires s.positions == [EURO_LONG, YEN_LONG]
    ensures var (result, after) := ClosePosition(FREE_BROKER, Frozen(EURO_ONLY), s, EURO_LONG);
            result.Err? && after.positions == [YEN_LONG]
  {
    hide ClosePnl;
    assert IndexOf(s.positions, EURO_LONG) == 0;
    assert s.positions[..0] + s.positions[1..] == [YEN_LONG] && YEN_LONG in [YEN_LONG];
  }

  /** And so does an open. */
  lemma OpenCanFailAfterBooking(s: Paper, order: Order)
    requires s.positions == [YEN_LONG] && s.cash >= 0.0 && order.pair == "EURUSD"
    ensures var (result, after) := PlaceOrder(FREE_BROKER, Frozen(EURO_ONLY), s, order);
            result.Err? && |after.positions| == 2 && after.positions[0] == YEN_LONG
  {
    hide Unrealized;
    assert YEN_LONG in s.positions;
    PlaceFailsAfterBookingExactlyWhen(FREE_BROKER, Frozen(EURO_ONLY), s, order);
    PlaceBooksExactlyWhenPaidFor(FREE_BROKER, Frozen(EURO_ONLY), s, order);
  }
}
