/**
 The frozen domain values shared by the risk gate, the two brokers and the
 backtest engine. Money and prices are exact reals; times are microseconds
 counted from 0001-01-01 00:00 UTC, which was a Monday.
 */
module Models {

  datatype Option<+T> = None | Some(value: T)

  datatype Result<+T, +E> = Ok(value: T) | Err(error: E)

  type PositiveDecimal = x: real | x > 0.0 witness 1.0

  type NonNegativeDecimal = x: real | x >= 0.0

  /** A loss-side fraction of equity. */
  type LossPercent = x: real | 0.0 < x <= 1.0 witness 1.0

  type PositiveCount = n: int | n >= 1 witness 1

  datatype Direction = Long | Short

  function Abs(x: real): real {
    if x < 0.0 then -x else x
  }

  function Max(x: real, y: real): real {
    if x < y then y else x
  }

  lemma Distribute(x: real, y: real, k: real)
    ensures (x + y) * k == x * k + y * k
  {
  }

  /** Position of the first x, or the length when there is none. */
  function IndexOf<T(==)>(xs: seq<T>, x: T): (i: nat)
    ensures i <= |xs|
    ensures i < |xs| ==> xs[i] == x && x !in xs[..i]
    ensures i == |xs| <==> x !in xs
  {
    if xs == [] || xs[0] == x then 0
    else
      assert xs[..1 + IndexOf(xs[1..], x)] == [xs[0]] + xs[1..][..IndexOf(xs[1..], x)];
      1 + IndexOf(xs[1..], x)
  }

  datatype Candle = Candle(pair: string, time: int, open: PositiveDecimal, high: PositiveDecimal,
                           low: PositiveDecimal, close: PositiveDecimal)

  datatype Position = Position(pair: string, direction: Direction, size: PositiveDecimal,
                               entryPrice: PositiveDecimal, stopPrice: PositiveDecimal) {

    /** Loss in quote currency if the stop fills exactly at the stop price. */
    function RiskAtStop(): real {
      size * Abs(entryPrice - stopPrice)
    }

    function Notional(): real {
      size * entryPrice
    }
  }

  datatype Order = Order(pair: string, direction: Direction, size: PositiveDecimal,
                         entryPrice: PositiveDecimal, stopPrice: PositiveDecimal) {

    function StopDistance(): real {
      Abs(entryPrice - stopPrice)
    }

    function RiskAtStop(): real {
      size * StopDistance()
    }

    function Notional(): real {
      size * entryPrice
    }

    function WithSize(newSize: PositiveDecimal): Order {
      this.(size := newSize)
    }
  }

  /** A snapshot of the account at decision time. */
  datatype Account = Account(balance: real, equity: real, positions: seq<Position>,
                             realizedToday: real, unrealized: real,
                             peak: PositiveDecimal, dayStart: PositiveDecimal, asOf: int) {

    /** Drawdown from the peak as a fraction of it, saturating at 1 when equity is gone. */
    function DrawdownPct(): real {
      if equity <= 0.0 then 1.0
      else if equity >= peak then 0.0
      else (peak - equity) / peak
    }

    /** Loss since the start of the day, as a fraction of the equity the day began with. */
    function DailyLossPct(): real {
      if equity >= dayStart then 0.0
      else if equity <= 0.0 then 1.0
      else (dayStart - equity) / dayStart
    }
  }

  /** Notional of the positions whose pair is among the members. */
  function NotionalIn(positions: seq<Position>, members: set<string>): real {
    if positions == [] then 0.0
    else (if positions[0].pair in members then positions[0].Notional() else 0.0)
         + NotionalIn(positions[1..], members)
  }

  function RiskAtStopOf(positions: seq<Position>): real {
    if positions == [] then 0.0
    else positions[0].RiskAtStop() + RiskAtStopOf(positions[1..])
  }

  /** Inserting a position anywhere adds its own notional and nothing else. */
  lemma {:induction false} NotionalOfInsert(positions: seq<Position>, i: nat, p: Position, members: set<string>)
    requires i <= |positions|
    ensures NotionalIn(positions[..i] + [p] + positions[i..], members)
         == NotionalIn(positions, members) + (if p.pair in members then p.Notional() else 0.0)
  {
    var inserted := positions[..i] + [p] + positions[i..];
    if i == 0 {
      assert inserted[1..] == positions;
    } else {
      assert inserted[1..] == positions[1..][..i - 1] + [p] + positions[1..][i - 1..];
      NotionalOfInsert(positions[1..], i - 1, p, members);
    }
  }

  lemma {:induction false} RiskOfInsert(positions: seq<Position>, i: nat, p: Position)
    requires i <= |positions|
    ensures RiskAtStopOf(positions[..i] + [p] + positions[i..]) == RiskAtStopOf(positions) + p.RiskAtStop()
  {
    var inserted := positions[..i] + [p] + positions[i..];
    if i == 0 {
      assert inserted[1..] == positions;
    } else {
      assert inserted[1..] == positions[1..][..i - 1] + [p] + positions[1..][i - 1..];
      RiskOfInsert(positions[1..], i - 1, p);
    }
  }
}
