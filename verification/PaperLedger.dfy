/** The paper broker's ledger as a value, with one function per operation. */
module PaperLedger {
  import opened Models

  // ----------------------------------------------------------------- quotes

  datatype RawQuote = RawQuote(bid: PositiveDecimal, ask: PositiveDecimal)

  /** A quote is never inverted. */
  type Quote = q: RawQuote | q.bid <= q.ask witness RawQuote(1.0, 1.0)

  /** What the price provider answers at one moment; a pair without a quote makes it raise. */
  type Quotes = map<string, Quote>

  /** What it answers to one trade, which asks twice: to price the fill, and later to mark the whole book. */
  datatype Feed = Feed(fill: Quotes, mark: Quotes)

  /** A provider whose answers stand still. */
  function Frozen(quotes: Quotes): Feed {
    Feed(quotes, quotes)
  }

  datatype Fill = Fill(pair: string, direction: Direction, size: PositiveDecimal,
                       fillPrice: PositiveDecimal, commission: real)

  datatype Failure = NoQuote | NonPositiveFill | InsufficientCash | PositionNotOpen | InvalidAccount

  datatype PaperConfig = PaperConfig(startingBalance: PositiveDecimal, commissionPerUnit: NonNegativeDecimal,
                                     extraHalfSpread: NonNegativeDecimal, dayStartEquity: Option<real>)

  // ----------------------------------------------------------------- ledger

  datatype Paper = Paper(cash: real, positions: seq<Position>, realizedToday: real,
                         peak: PositiveDecimal, dayStart: real)

  function NewPaper(cfg: PaperConfig): Paper {
    Paper(cfg.startingBalance, [], 0.0, cfg.startingBalance,
          if cfg.dayStartEquity.Some? then cfg.dayStartEquity.value else cfg.startingBalance)
  }

  /** Marked against the side the position would close at, without the broker's own markup. */
  function Mark(quote: Quote, p: Position): real {
    if p.direction.Long? then (quote.bid - p.entryPrice) * p.size else (p.entryPrice - quote.ask) * p.size
  }

  predicate Quoted(quotes: Quotes, positions: seq<Position>) {
    forall p :: p in positions ==> p.pair in quotes
  }

  function Unrealized(quotes: Quotes, positions: seq<Position>): real
    requires Quoted(quotes, positions)
  {
    if positions == [] then 0.0
    else Mark(quotes[positions[0].pair], positions[0]) + Unrealized(quotes, positions[1..])
  }

  function Equity(quotes: Quotes, s: Paper): real
    requires Quoted(quotes, s.positions)
  {
    s.cash + Unrealized(quotes, s.positions)
  }

  /** The peak after looking at equity; a missing quote makes the look itself fail, changing nothing. */
  function BumpPeak(quotes: Quotes, s: Paper): Paper {
    if Quoted(quotes, s.positions) && Equity(quotes, s) > s.peak then s.(peak := Equity(quotes, s)) else s
  }

  /** The account snapshot: it bumps the peak, and fails on a missing quote or a day that began without equity. */
  function AccountState(quotes: Quotes, s: Paper, now: int): (Result<Account, Failure>, Paper) {
    if !Quoted(quotes, s.positions) then (Err(NoQuote), s)
    else
      var s' := BumpPeak(quotes, s);
      if s.dayStart <= 0.0 then (Err(InvalidAccount), s')
      else
        (Ok(Account(s.cash, Equity(quotes, s), s.positions, s.realizedToday, Unrealized(quotes, s.positions),
                    s'.peak, s.dayStart, now)), s')
  }

  function OpenPrice(cfg: PaperConfig, quote: Quote, direction: Direction): real {
    if direction.Long? then quote.ask + cfg.extraHalfSpread else quote.bid - cfg.extraHalfSpread
  }

  function ClosePrice(cfg: PaperConfig, quote: Quote, direction: Direction): real {
    if direction.Long? then quote.bid - cfg.extraHalfSpread else quote.ask + cfg.extraHalfSpread
  }

  function Commission(cfg: PaperConfig, size: real): real {
    size * cfg.commissionPerUnit
  }

  function Opposite(direction: Direction): Direction {
    if direction.Long? then Short else Long
  }

  /** The result of a trade that books its change and then looks at the peak, which can still fail. */
  function Booked(marks: Quotes, s: Paper, fill: Fill): (Result<Fill, Failure>, Paper) {
    (if Quoted(marks, s.positions) then Ok(fill) else Err(NoQuote), BumpPeak(marks, s))
  }

  /** Opens a position at the quote for its fill. */
  function PlaceOrder(cfg: PaperConfig, feed: Feed, s: Paper, order: Order): (Result<Fill, Failure>, Paper) {
    if order.pair !in feed.fill then (Err(NoQuote), s)
    else
      var price := OpenPrice(cfg, feed.fill[order.pair], order.direction);
      var commission := Commission(cfg, order.size);
      if price <= 0.0 then (Err(NonPositiveFill), s)
      else if commission > s.cash then (Err(InsufficientCash), s)
      else
        var position := Position(order.pair, order.direction, order.size, price, order.stopPrice);
        Booked(feed.mark, s.(cash := s.cash - commission, positions := s.positions + [position]),
               Fill(order.pair, order.direction, order.size, price, commission))
  }

  function ClosePnl(cfg: PaperConfig, quote: Quote, p: Position): real {
    if p.direction.Long? then (ClosePrice(cfg, quote, p.direction) - p.entryPrice) * p.size
    else (p.entryPrice - ClosePrice(cfg, quote, p.direction)) * p.size
  }

  /** Closes the first position equal to the given one at the quote for its fill. */
  function ClosePosition(cfg: PaperConfig, feed: Feed, s: Paper, p: Position): (Result<Fill, Failure>, Paper) {
    var i := IndexOf(s.positions, p);
    if i == |s.positions| then (Err(PositionNotOpen), s)
    else if p.pair !in feed.fill then (Err(NoQuote), s)
    else
      var price := ClosePrice(cfg, feed.fill[p.pair], p.direction);
      if price <= 0.0 then (Err(NonPositiveFill), s)
      else
        var net := ClosePnl(cfg, feed.fill[p.pair], p) - Commission(cfg, p.size);
        Booked(feed.mark,
               s.(cash := s.cash + net, realizedToday := s.realizedToday + net,
                  positions := s.positions[..i] + s.positions[i + 1..]),
               Fill(p.pair, Opposite(p.direction), p.size, price, Commission(cfg, p.size)))
  }
}
