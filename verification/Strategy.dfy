/**
 The strategy's window onto the bars, and the reference crossover strategy as one instance of the engine's
 interface.
 */
module Strategy {
  import opened Models
  import opened Engine
  import Metrics

  // ------------------------------------------------------- the bounded window

  datatype ViewError = NegativeEnd | EndBeyondData | LookAhead

  /** The bars visible at decision time; later bars are not part of it. */
  datatype PointInTimeView = PointInTimeView(visible: seq<Candle>) {

    static function Create(bars: seq<Candle>, end: int): Result<PointInTimeView, ViewError> {
      if end < 0 then Err(NegativeEnd)
      else if end >= |bars| then Err(EndBeyondData)
      else Ok(PointInTimeView(bars[..end + 1]))
    }

    /** Indexing; a negative index counts back from the latest visible bar. */
    function At(i: int): Result<Candle, ViewError> {
      var actual := if i < 0 then i + |visible| else i;
      if actual < 0 || actual >= |visible| then Err(LookAhead) else Ok(visible[actual])
    }

    /** The most recent n visible bars, oldest first, capped at what is visible. */
    function Lookback(n: int): seq<Candle> {
      if n <= 0 then [] else if n >= |visible| then visible else visible[|visible| - n..]
    }

    function Closes(n: Option<int>): seq<real> {
      var bars := if n.None? then visible else Lookback(n.value);
      seq(|bars|, i requires 0 <= i < |bars| => bars[i].close)
    }
  }

  /** A view answers from the bars up to its end and from nothing else. */
  lemma ViewAnswersFromThePast(bars: seq<Candle>, end: int, i: int, n: int)
    requires 0 <= end < |bars|
    ensures var view := PointInTimeView.Create(bars, end);
            && view.Ok?
            && (view.value.At(i).Ok? <==> -(end + 1) <= i <= end)
            && (view.value.At(i).Ok? ==> view.value.At(i).value == bars[if i < 0 then end + 1 + i else i])
            && view.value.At(-1) == Ok(bars[end])
            && |view.value.Lookback(n)| == (if n <= 0 then 0 else if n <= end + 1 then n else end + 1)
            && view.value.Lookback(n) == bars[end + 1 - |view.value.Lookback(n)|..end + 1]
  {
    var view := PointInTimeView.Create(bars, end).value;
    assert bars[..end + 1][|view.visible| - |view.Lookback(n)|..] == bars[end + 1 - |view.Lookback(n)|..end + 1];
  }

  /**
   Indexing alone tells two views apart exactly when their pasts differ: no query reaches a later
   bar, and every past bar can be reached. So a strategy's answer can depend on the past and on
   nothing beyond it.
   */
  lemma IndexingRevealsExactlyThePast(bars: seq<Candle>, other: seq<Candle>, end: nat)
    requires end < |bars| && end < |other|
    ensures var view, view' := PointInTimeView.Create(bars, end).value, PointInTimeView.Create(other, end).value;
            (forall i :: view.At(i) == view'.At(i)) <==> forall k :: 0 <= k <= end ==> bars[k] == other[k]
  {
    var view, view' := PointInTimeView.Create(bars, end).value, PointInTimeView.Create(other, end).value;
    if forall i :: view.At(i) == view'.At(i) {
      forall k | 0 <= k <= end ensures bars[k] == other[k] {
        assert view.At(k) == Ok(bars[k]) && view'.At(k) == Ok(other[k]);
      }
    }
  }

  // -------------------------------------------------------------- the strategy

  datatype RawCrossover = RawCrossover(pair: string, fast: int, slow: int, size: real, stopDistance: real) {

    /** What the constructor demands. */
    predicate Accepted() {
      0 < fast < slow && size > 0.0 && stopDistance > 0.0
    }
  }

  type Crossover = c: RawCrossover | c.Accepted() witness RawCrossover("EUR_USD", 1, 2, 1.0, 1.0)

  /** Fast average less slow average over the latest closes. */
  function Spread(c: Crossover, view: PointInTimeView): real
    requires |view.visible| >= c.slow
  {
    var closes := view.Closes(Some(c.slow));
    Metrics.Sum(closes[|closes| - c.fast..]) / c.fast as real - Metrics.Sum(closes) / c.slow as real
  }

  function Cross(before: real, now: real): Option<Direction> {
    if before <= 0.0 && now > 0.0 then Some(Long)
    else if before >= 0.0 && now < 0.0 then Some(Short)
    else None
  }

  /** One answer and the spread remembered after it. None when the order is not a valid one, which raises. */
  function Answer(c: Crossover, before: Option<real>, view: PointInTimeView): (Option<seq<Order>>, Option<real>) {
    if |view.visible| < c.slow then (Some([]), before)
    else
      var now := Spread(c, view);
      var signal := if before.Some? then Cross(before.value, now) else None;
      if signal.None? then (Some([]), Some(now))
      else
        var close := view.visible[|view.visible| - 1].close;
        var stop := if signal.value.Long? then close - c.stopDistance else close + c.stopDistance;
        if stop <= 0.0 then (None, before)
        else (Some([Order(c.pair, signal.value, c.size, close, stop)]), Some(now))
  }

  /** What the strategy remembers after a history of calls. */
  function Remembered(c: Crossover, calls: seq<StrategyCall>): Option<real> {
    if calls == [] then None
    else Answer(c, Remembered(c, calls[..|calls| - 1]), PointInTimeView(calls[|calls| - 1].view)).1
  }

  /** The strategy as the engine sees it: its answer as a function of every call so far. */
  function Response(c: Crossover, calls: seq<StrategyCall>): Option<seq<Order>> {
    if calls == [] then Some([])
    else Answer(c, Remembered(c, calls[..|calls| - 1]), PointInTimeView(calls[|calls| - 1].view)).0
  }

  class MovingAverageCrossover {
    const config: Crossover
    var prevDiff: Option<real>
    ghost var calls: seq<StrategyCall>

    ghost predicate Valid()
      reads this
    {
      prevDiff == Remembered(config, calls)
    }

    constructor (config: Crossover)
      ensures Valid() && this.config == config && calls == []
    {
      this.config, prevDiff, calls := config, None, [];
    }

    /** Answers a call from its one remembered number, exactly as the history function would. */
    method Decide(call: StrategyCall) returns (signals: Option<seq<Order>>)
      requires Valid()
      modifies this
      ensures Valid() && calls == old(calls) + [call]
      ensures signals == Response(config, calls)
    {
      hide Spread;
      var bars := PointInTimeView(call.view);
      calls := calls + [call];
      assert calls[..|calls| - 1] == old(calls);
      if |bars.visible| < config.slow {
        return Some([]);
      }
      var diff := Spread(config, bars);
      var orders: seq<Order> := [];
      if prevDiff.Some? {
        var close := bars.visible[|bars.visible| - 1].close;
        if prevDiff.value <= 0.0 && diff > 0.0 {
          if close - config.stopDistance <= 0.0 {
            return None;
          }
          orders := [Order(config.pair, Long, config.size, close, close - config.stopDistance)];
        } else if prevDiff.value >= 0.0 && diff < 0.0 {
          orders := [Order(config.pair, Short, config.size, close, close + config.stopDistance)];
        }
      }
      prevDiff := Some(diff);
      signals := Some(orders);
    }
  }

  // ------------------------------------------------------------- what it answers

  /** The sum of the closes of the bars from one index up to another. */
  function CloseTotal(bars: seq<Candle>, from: nat, to: nat): real
    requires from <= to <= |bars|
  {
    if from == to then 0.0 else CloseTotal(bars, from, to - 1) + bars[to - 1].close
  }

  /** The average close of the latest n bars. */
  function LatestAverage(bars: seq<Candle>, n: int): real
    requires 0 < n <= |bars|
  {
    CloseTotal(bars, |bars| - n, |bars|) / n as real
  }

  lemma {:induction false} SumIsCloseTotal(bars: seq<Candle>, closes: seq<real>, from: nat, to: nat)
    requires from <= to <= |bars| && |closes| == to - from
    requires forall i :: 0 <= i < |closes| ==> closes[i] == bars[from + i].close
    ensures Metrics.Sum(closes) == CloseTotal(bars, from, to)
  {
    if closes != [] {
      var earlier, last := closes[..|closes| - 1], closes[|closes| - 1];
      SumIsCloseTotal(bars, earlier, from, to - 1);
      Metrics.SumOfConcat(earlier, [last]);
      assert closes == earlier + [last] && [last][1..] == [];
    }
  }

  /** The spread is the average of the latest fast closes less that of the latest slow ones. */
  lemma SpreadOfLatestCloses(c: Crossover, view: PointInTimeView)
    requires |view.visible| >= c.slow
    ensures Spread(c, view) == LatestAverage(view.visible, c.fast) - LatestAverage(view.visible, c.slow)
  {
    hide Metrics.Sum, CloseTotal;
    var bars, closes := view.visible, view.Closes(Some(c.slow));
    SumIsCloseTotal(bars, closes, |bars| - c.slow, |bars|);
    SumIsCloseTotal(bars, closes[|closes| - c.fast..], |bars| - c.fast, |bars|);
  }

  /** The order a cross calls for: at the latest close, with its stop on the losing side. */
  function CrossOrder(c: Crossover, direction: Direction, close: PositiveDecimal): Option<Order> {
    var stop := if direction == Long then close - c.stopDistance else close + c.stopDistance;
    if stop > 0.0 then Some(Order(c.pair, direction, c.size, close, stop)) else None
  }

  /**
   How each call is answered. Until it sees the slow length it answers nothing and remembers nothing new.
   Then it goes long when the averages' difference has turned positive since the one it remembers,
   and short when it has turned negative; an order whose stop would not be positive makes it raise
   and keep what it remembered.
   */
  lemma CallAnsweredExactly(c: Crossover, calls: seq<StrategyCall>, call: StrategyCall)
    ensures Remembered(c, []) == None
    ensures var view, before := call.view, Remembered(c, calls);
            var answer, remembered := Response(c, calls + [call]), Remembered(c, calls + [call]);
            if |view| < c.slow then answer == Some([]) && remembered == before
            else
              var now := LatestAverage(view, c.fast) - LatestAverage(view, c.slow);
              var close := view[|view| - 1].close;
              if before.Some? && before.value <= 0.0 < now then
                var order := CrossOrder(c, Long, close);
                if order.Some? then answer == Some([order.value]) && remembered == Some(now)
                else answer == None && remembered == before
              else if before.Some? && now < 0.0 <= before.value then
                answer == Some([Order(c.pair, Short, c.size, close, close + c.stopDistance)]) && remembered == Some(now)
              else answer == Some([]) && remembered == Some(now)
  {
    hide Spread, LatestAverage;
    assert (calls + [call])[..|calls|] == calls;
    if |call.view| >= c.slow {
      SpreadOfLatestCloses(c, PointInTimeView(call.view));
    }
  }

  // --------------------------------------------------------------- alternation

  function CrossAt(spreads: seq<real>, k: nat): Option<Direction>
    requires 0 < k < |spreads|
  {
    Cross(spreads[k - 1], spreads[k])
  }

  /** Until the next signal the spread stays, weakly, on the side of the last one. */
  lemma {:induction false} SideHeld(spreads: seq<real>, i: nat, k: nat)
    requires 0 < i <= k < |spreads| && CrossAt(spreads, i).Some?
    requires forall m :: i < m <= k ==> CrossAt(spreads, m).None?
    ensures if CrossAt(spreads, i).value.Long? then spreads[k] >= 0.0 else spreads[k] <= 0.0
  {
    if i < k {
      SideHeld(spreads, i, k - 1);
      assert CrossAt(spreads, k).None?;
    }
  }

  /**
   Successive signals alternate unless the spread touched zero exactly and returned to the side it
   came from: only then does a direction repeat.
   */
  lemma SignalRepeatsExactlyAfterTouch(spreads: seq<real>, i: nat, j: nat)
    requires 0 < i < j < |spreads| && CrossAt(spreads, i).Some? && CrossAt(spreads, j).Some?
    requires forall m :: i < m < j ==> CrossAt(spreads, m).None?
    ensures CrossAt(spreads, i) == CrossAt(spreads, j)
       <==> spreads[j - 1] == 0.0 && (spreads[j] > 0.0 <==> CrossAt(spreads, i).value.Long?)
  {
    SideHeld(spreads, i, j - 1);
  }
}
