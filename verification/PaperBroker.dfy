/**
 The in-memory paper broker, each method proved against the ledger operation it performs. What the
 price provider answers to a method's calls is passed to the method.
 */
module PaperBroker {
  import opened Models
  import opened PaperLedger

  class PaperBroker {
    const config: PaperConfig
    var cash: real
    var openPositions: seq<Position>
    var realizedPnlToday: real
    var peakEquity: PositiveDecimal
    var dayStartEquity: real

    function State(): Paper
      reads this
    {
      Paper(cash, openPositions, realizedPnlToday, peakEquity, dayStartEquity)
    }

    constructor (config: PaperConfig)
      ensures this.config == config && State() == NewPaper(config)
    {
      this.config := config;
      cash, openPositions, realizedPnlToday := config.startingBalance, [], 0.0;
      peakEquity := config.startingBalance;
      dayStartEquity := if config.dayStartEquity.Some? then config.dayStartEquity.value else config.startingBalance;
    }

    /** The sum of the open positions' marks, or no answer when a quote is missing. */
    method UnrealizedTotal(quotes: Quotes) returns (total: Option<real>)
      ensures total == if Quoted(quotes, openPositions) then Some(Unrealized(quotes, openPositions)) else None
    {
      var sum := 0.0;
      var i := |openPositions|;
      while i > 0
        invariant 0 <= i <= |openPositions|
        invariant Quoted(quotes, openPositions[i..]) && sum == Unrealized(quotes, openPositions[i..])
      {
        i := i - 1;
        var p := openPositions[i];
        assert openPositions[i..][1..] == openPositions[i + 1..];
        if p.pair !in quotes {
          return None;
        }
        sum := Mark(quotes[p.pair], p) + sum;
      }
      assert openPositions[0..] == openPositions;
      return Some(sum);
    }

    method MaybeBumpPeak(quotes: Quotes) returns (ok: bool)
      modifies this`peakEquity
      ensures ok <==> Quoted(quotes, openPositions)
      ensures State() == BumpPeak(quotes, old(State()))
    {
      var unrealized := UnrealizedTotal(quotes);
      if unrealized.None? {
        return false;
      }
      if cash + unrealized.value > peakEquity {
        peakEquity := cash + unrealized.value;
      }
      return true;
    }

    method GetAccountState(quotes: Quotes, now: int) returns (r: Result<Account, Failure>)
      modifies this`peakEquity
      ensures (r, State()) == AccountState(quotes, old(State()), now)
    {
      hide Unrealized;
      var unrealized := UnrealizedTotal(quotes);
      if unrealized.None? {
        return Err(NoQuote);
      }
      var equity := cash + unrealized.value;
      if equity > peakEquity {
        peakEquity := equity;
      }
      if dayStartEquity <= 0.0 {
        return Err(InvalidAccount);
      }
      return Ok(Account(cash, equity, openPositions, realizedPnlToday, unrealized.value, peakEquity, dayStartEquity,
                        now));
    }

    method PlaceOrder(order: Order, feed: Feed) returns (r: Result<Fill, Failure>)
      modifies this`cash, this`openPositions, this`peakEquity
      ensures (r, State()) == PaperLedger.PlaceOrder(config, feed, old(State()), order)
    {
      hide Unrealized, Commission;
      if order.pair !in feed.fill {
        return Err(NoQuote);
      }
      var quote := feed.fill[order.pair];
      var fillPrice := OpenPrice(config, quote, order.direction);
      if fillPrice <= 0.0 {
        return Err(NonPositiveFill);
      }
      var commission := Commission(config, order.size);
      if commission > cash {
        return Err(InsufficientCash);
      }
      cash := cash - commission;
      openPositions := openPositions + [Position(order.pair, order.direction, order.size, fillPrice, order.stopPrice)];
      var ok := MaybeBumpPeak(feed.mark);
      r := if ok then Ok(Fill(order.pair, order.direction, order.size, fillPrice, commission)) else Err(NoQuote);
    }

    method ClosePosition(position: Position, feed: Feed) returns (r: Result<Fill, Failure>)
      modifies this`cash, this`openPositions, this`realizedPnlToday, this`peakEquity
      ensures (r, State()) == PaperLedger.ClosePosition(config, feed, old(State()), position)
    {
      hide Unrealized, Commission, ClosePnl;
      var i := IndexOf(openPositions, position);
      if i == |openPositions| {
        return Err(PositionNotOpen);
      }
      if position.pair !in feed.fill {
        return Err(NoQuote);
      }
      var fillPrice := ClosePrice(config, feed.fill[position.pair], position.direction);
      var pnl := ClosePnl(config, feed.fill[position.pair], position);
      if fillPrice <= 0.0 {
        return Err(NonPositiveFill);
      }
      var commission := Commission(config, position.size);
      cash := cash + (pnl - commission);
      realizedPnlToday := realizedPnlToday + (pnl - commission);
      openPositions := openPositions[..i] + openPositions[i + 1..];
      var ok := MaybeBumpPeak(feed.mark);
      r := if ok then Ok(Fill(position.pair, Opposite(position.direction), position.size, fillPrice, commission))
          else Err(NoQuote);
    }
  }
}
