/** Drawdown and trade metrics of a finished run. */
module Metrics {
  import opened Models

  // ------------------------------------------------------------- drawdown

  /** The highest value so far. */
  function Peak(es: seq<real>): real
    requires es != []
  {
    if |es| == 1 then es[0] else Max(Peak(es[..|es| - 1]), es[|es| - 1])
  }

  /** How far the last value lies below the peak, as a fraction of the peak. */
  function FallFromPeak(es: seq<real>): real
    requires es != [] && Peak(es) > 0.0
  {
    (Peak(es) - es[|es| - 1]) / Peak(es)
  }

  lemma {:induction false} PeakFromFirst(es: seq<real>)
    requires es != []
    ensures Peak(es) >= es[0]
  {
    if |es| > 1 {
      PeakFromFirst(es[..|es| - 1]);
    }
  }

  /** The deepest fall from a running peak, at least zero. */
  function ScanDrawdown(es: seq<real>): real
    requires es != [] && es[0] > 0.0
  {
    PeakFromFirst(es);
    if |es| == 1 then 0.0 else Max(ScanDrawdown(es[..|es| - 1]), FallFromPeak(es))
  }

  /** The one-pass scan over the equity samples. */
  method MaxDrawdown(es: seq<real>) returns (maxDd: real)
    requires es != [] && es[0] > 0.0
    ensures maxDd == ScanDrawdown(es)
  {
    var peak := es[0];
    maxDd := 0.0;
    assert es[..1] == [es[0]];
    for i := 0 to |es|
      invariant i == 0 ==> peak == es[0] && maxDd == 0.0
      invariant i > 0 ==> peak == Peak(es[..i]) && maxDd == ScanDrawdown(es[..i])
    {
      var e := es[i];
      assert i > 0 ==> es[..i + 1][..i] == es[..i];
      if e > peak {
        peak := e;
      }
      PeakFromFirst(es[..i + 1]);
      if peak > 0.0 {
        var dd := (peak - e) / peak;
        if dd > maxDd {
          maxDd := dd;
        }
      }
    }
    assert es[..|es|] == es;
  }

  // -------------------------------------------------------- trade metrics

  function Sum(xs: seq<real>): real {
    if xs == [] then 0.0 else xs[0] + Sum(xs[1..])
  }

  function Wins(pnls: seq<real>): seq<real> {
    if pnls == [] then [] else (if pnls[0] > 0.0 then [pnls[0]] else []) + Wins(pnls[1..])
  }

  function Losses(pnls: seq<real>): seq<real> {
    if pnls == [] then [] else (if pnls[0] < 0.0 then [pnls[0]] else []) + Losses(pnls[1..])
  }

  function GrossWins(pnls: seq<real>): real {
    Sum(Wins(pnls))
  }

  function GrossLosses(pnls: seq<real>): real {
    Abs(Sum(Losses(pnls)))
  }

  /** Win rate, profit factor (none when infinite), average and count of the closed trades. */
  datatype TradeMetrics = TradeMetrics(winRate: real, profitFactor: Option<real>, avgTrade: real, tradeCount: nat)

  /** What the metrics are made of: the total, gross wins and losses, and the counts. */
  datatype Tally = Tally(total: real, grossWins: real, grossLosses: real, wins: nat, losses: nat, trades: nat)

  function TallyOf(pnls: seq<real>): Tally {
    Tally(Sum(pnls), GrossWins(pnls), GrossLosses(pnls), |Wins(pnls)|, |Losses(pnls)|, |pnls|)
  }

  function MetricsOfTally(t: Tally): TradeMetrics {
    if t.trades == 0 then TradeMetrics(0.0, Some(0.0), 0.0, 0)
    else
      var count := t.trades as real;
      var factor := if t.grossLosses > 0.0 then Some(t.grossWins / t.grossLosses)
                    else if t.grossWins > 0.0 then None else Some(0.0);
      TradeMetrics(t.wins as real / count, factor, t.total / count, t.trades)
  }

  function MetricsOf(pnls: seq<real>): TradeMetrics {
    MetricsOfTally(TallyOf(pnls))
  }

  /** What a log's own tally satisfies. */
  predicate Consistent(t: Tally) {
    && t.wins + t.losses <= t.trades
    && t.total == t.grossWins - t.grossLosses
    && t.grossWins >= 0.0 && t.grossLosses >= 0.0
    && (t.grossWins > 0.0 <==> t.wins > 0)
    && (t.grossLosses > 0.0 <==> t.losses > 0)
  }

  lemma {:induction false} WinSums(pnls: seq<real>)
    ensures GrossWins(pnls) >= 0.0 && (GrossWins(pnls) > 0.0 <==> Wins(pnls) != [])
  {
    if pnls != [] {
      var first, rest := pnls[0], pnls[1..];
      WinSums(rest);
      SumOfConcat(if first > 0.0 then [first] else [], Wins(rest));
      assert Sum([first]) == first by { assert [first][1..] == []; }
    }
  }

  lemma {:induction false} LossSums(pnls: seq<real>)
    ensures Sum(Losses(pnls)) <= 0.0 && (Sum(Losses(pnls)) < 0.0 <==> Losses(pnls) != [])
    ensures Sum(pnls) == GrossWins(pnls) + Sum(Losses(pnls))
  {
    if pnls != [] {
      var first, rest := pnls[0], pnls[1..];
      LossSums(rest);
      SumOfConcat(if first > 0.0 then [first] else [], Wins(rest));
      SumOfConcat(if first < 0.0 then [first] else [], Losses(rest));
      assert Sum([first]) == first by { assert [first][1..] == []; }
    }
  }

  lemma {:induction false} WinAndLossCounts(pnls: seq<real>)
    ensures |Wins(pnls)| + |Losses(pnls)| <= |pnls|
    ensures |Wins(pnls)| + |Losses(pnls)| == |pnls| <==> forall i :: 0 <= i < |pnls| ==> pnls[i] != 0.0
  {
    if pnls != [] {
      var first, rest := pnls[0], pnls[1..];
      WinAndLossCounts(rest);
      assert forall i :: 0 <= i < |rest| ==> rest[i] == pnls[i + 1];
      if forall i :: 0 <= i < |rest| ==> rest[i] != 0.0 {
        assert forall i :: 1 <= i < |pnls| ==> pnls[i] == rest[i - 1];
      }
    }
  }

  /** Every trade is a win, a loss or even, and the sums split accordingly. */
  lemma WinsAndLosses(pnls: seq<real>)
    ensures Consistent(TallyOf(pnls))
    ensures |Wins(pnls)| + |Losses(pnls)| == |pnls| <==> forall i :: 0 <= i < |pnls| ==> pnls[i] != 0.0
  {
    hide Wins, Losses, Sum;
    WinSums(pnls);
    LossSums(pnls);
    WinAndLossCounts(pnls);
  }

  /**
   What trade metrics measure of a tally: the share of winners, the gross wins as a multiple of the gross
   losses, which has no value when nothing was lost, and the average of all trades.
   */
  predicate Measures(m: TradeMetrics, t: Tally) {
    && m.tradeCount == t.trades && (t.trades == 0 ==> m.winRate == 0.0 && m.avgTrade == 0.0)
    && m.winRate * t.trades as real == t.wins as real && m.avgTrade * t.trades as real == t.total
    && (m.profitFactor.None? <==> t.wins > 0 && t.losses == 0)
    && (m.profitFactor.Some? ==>
          && m.profitFactor.value * t.grossLosses == t.grossWins
          && (t.losses == 0 ==> m.profitFactor.value == 0.0))
  }

  lemma TallyMeasured(t: Tally)
    requires Consistent(t)
    ensures Measures(MetricsOfTally(t), t)
  {
    if t.trades > 0 {
      Requotient(t.wins as real, t.trades as real);
      Requotient(t.total, t.trades as real);
      if t.grossLosses > 0.0 {
        Requotient(t.grossWins, t.grossLosses);
      }
    }
  }

  lemma Requotient(x: real, n: real)
    requires n != 0.0
    ensures x / n * n == x
  {
  }

  /** The trade metrics of a log measure its own wins and losses. */
  lemma MetricsMeasureTrades(pnls: seq<real>)
    ensures Measures(MetricsOf(pnls), TallyOf(pnls))
  {
    hide MetricsOfTally, TallyOf, Measures, Consistent;
    WinsAndLosses(pnls);
    TallyMeasured(TallyOf(pnls));
  }

  lemma {:induction false} SumOfConcat(xs: seq<real>, ys: seq<real>)
    ensures Sum(xs + ys) == Sum(xs) + Sum(ys)
  {
    if xs == [] {
      assert xs + ys == ys;
    } else {
      assert (xs + ys)[1..] == xs[1..] + ys;
      SumOfConcat(xs[1..], ys);
    }
  }

  /** The trade block of the metric pack. */
  method ComputeTradeMetrics(pnls: seq<real>) returns (metrics: TradeMetrics)
    ensures metrics == MetricsOf(pnls)
  {
    if pnls == [] {
      return TradeMetrics(0.0, Some(0.0), 0.0, 0);
    }
    var wins, losses := Wins(pnls), Losses(pnls);
    var grossWins, grossLossesAbs := Sum(wins), Abs(Sum(losses));
    var profitFactor;
    if grossLossesAbs > 0.0 {
      profitFactor := Some(grossWins / grossLossesAbs);
    } else {
      profitFactor := if grossWins > 0.0 then None else Some(0.0);
    }
    metrics := TradeMetrics(|wins| as real / |pnls| as real, profitFactor, Sum(pnls) / |pnls| as real, |pnls|);
  }

  // ------------------------------------------------------- the metric pack

  datatype RunMetrics = RunMetrics(totalReturn: real, maxDrawdown: real, trades: TradeMetrics)

  /** With fewer than two samples, or no principal, no metric means anything and all are zero. */
  function RunMetricsOf(equities: seq<real>, pnls: seq<real>): RunMetrics {
    if |equities| < 2 || equities[0] <= 0.0 then RunMetrics(0.0, 0.0, TradeMetrics(0.0, Some(0.0), 0.0, 0))
    else RunMetrics((equities[|equities| - 1] - equities[0]) / equities[0], ScanDrawdown(equities), MetricsOf(pnls))
  }

  method ComputeMetrics(equities: seq<real>, pnls: seq<real>) returns (metrics: RunMetrics)
    ensures metrics == RunMetricsOf(equities, pnls)
  {
    if |equities| < 2 || equities[0] <= 0.0 {
      return RunMetrics(0.0, 0.0, TradeMetrics(0.0, Some(0.0), 0.0, 0));
    }
    var maxDd := MaxDrawdown(equities);
    var trades := ComputeTradeMetrics(pnls);
    metrics := RunMetrics((equities[|equities| - 1] - equities[0]) / equities[0], maxDd, trades);
  }

  // -------------------------------------------- the pairwise meaning of drawdown

  /** The fall from one sample to another, as a fraction of the first. */
  function Fall(from: real, to: real): real
    requires from > 0.0
  {
    (from - to) / from
  }

  /** d is the deepest fall from a sample to itself or a later one. */
  ghost predicate IsDeepestFall(es: seq<real>, d: real) {
    && (forall i, j :: 0 <= i <= j < |es| && es[i] > 0.0 ==> Fall(es[i], es[j]) <= d)
    && (exists i, j :: 0 <= i <= j < |es| && es[i] > 0.0 && Fall(es[i], es[j]) == d)
  }

  lemma {:induction false} PeakIsAttained(es: seq<real>) returns (i: nat)
    requires es != []
    ensures i < |es| && es[i] == Peak(es)
    ensures forall j :: 0 <= j < |es| ==> es[j] <= Peak(es)
  {
    i := 0;
    if |es| > 1 {
      i := PeakIsAttained(es[..|es| - 1]);
      assert forall j :: 0 <= j < |es| - 1 ==> es[..|es| - 1][j] == es[j];
      if es[|es| - 1] > es[i] {
        i := |es| - 1;
      }
    }
  }

  lemma FallGrowsWithHeight(low: real, high: real, to: real)
    requires 0.0 < low <= high && to >= 0.0
    ensures Fall(low, to) <= Fall(high, to)
  {
    FallIsComplement(low, to);
    FallIsComplement(high, to);
    QuotientShrinks(to, low, high);
  }

  lemma FallIsComplement(from: real, to: real)
    requires from > 0.0
    ensures Fall(from, to) == 1.0 - to / from
  {
    var q := to / from;
    assert q * from == to;
    QuotientIs(from - to, from, 1.0 - q);
  }

  lemma QuotientIs(x: real, y: real, q: real)
    requires y != 0.0 && x == q * y
    ensures x / y == q
  {
    ProductOverFactor(q, y);
  }

  lemma ProductOverFactor(x: real, k: real)
    requires k != 0.0
    ensures x * k / k == x
  {
  }

  lemma QuotientShrinks(to: real, low: real, high: real)
    requires 0.0 < low <= high && to >= 0.0
    ensures to / high <= to / low
  {
    var q := to / low;
    assert q * low == to && q >= 0.0;
    assert q * high >= q * low;
    assert to / high <= q by {
      QuotientBound(to, high, q);
    }
  }

  lemma QuotientBound(x: real, y: real, q: real)
    requires y > 0.0 && x <= q * y
    ensures x / y <= q
  {
    assert x / y * y == x;
    if x / y > q {
      StrictProduct(q, x / y, y);
    }
  }

  lemma StrictProduct(a: real, b: real, k: real)
    ensures a < b && 0.0 < k ==> a * k < b * k
  {
  }

  /** With no negative sample, the one-pass scan finds the deepest fall between any two samples. */
  lemma {:induction false} ScanFindsDeepestFall(es: seq<real>)
    requires es != [] && es[0] > 0.0
    requires forall i :: 0 <= i < |es| ==> es[i] >= 0.0
    ensures IsDeepestFall(es, ScanDrawdown(es))
  {
    if |es| == 1 {
      assert Fall(es[0], es[0]) == 0.0;
    } else {
      var shorter, last := es[..|es| - 1], es[|es| - 1];
      ScanFindsDeepestFall(shorter);
      PeakFromFirst(es);
      var top := PeakIsAttained(es);
      var d := ScanDrawdown(es);
      assert FallFromPeak(es) == Fall(es[top], last);
      forall i, j | 0 <= i <= j < |es| && es[i] > 0.0 ensures Fall(es[i], es[j]) <= d {
        if j == |es| - 1 {
          FallGrowsWithHeight(es[i], es[top], last);
        } else {
          assert shorter[i] == es[i] && shorter[j] == es[j];
        }
      }
      if d == FallFromPeak(es) {
        assert Fall(es[top], es[|es| - 1]) == d;
      } else {
        var i, j :| 0 <= i <= j < |shorter| && shorter[i] > 0.0
            && Fall(shorter[i], shorter[j]) == ScanDrawdown(shorter);
        assert Fall(es[i], es[j]) == d;
      }
    }
  }
}
