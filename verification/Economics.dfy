/** Per-window economics derived from stored metrics alone, without recomputing the run. */
module Economics {
  import opened Models
  import opened Metrics

  /**
   Recovers gross average win and loss magnitudes from win rate, profit factor (none when there
   are no losses), per-trade expectancy and trade count.
   */
  function DecomposeAvgWinLoss(winRate: real, profitFactor: Option<real>, expectancy: real, tradeCount: nat)
    : (Option<real>, Option<real>)
  {
    if tradeCount == 0 then (None, None)
    else
      var n := tradeCount as real;
      var winners := winRate * n;
      var losers := n - winners;
      var sumRealized := expectancy * n;
      match profitFactor
      case None => (if winners > 0.0 then Some(sumRealized / winners) else None, Some(0.0))
      case Some(pf) =>
        if pf == 1.0 || winners <= 0.0 || losers <= 0.0 then (None, None)
        else
          var grossLoss := sumRealized / (pf - 1.0);
          var grossWins := pf * grossLoss;
          (Some(Abs(grossWins / winners)), Some(Abs(grossLoss / losers)))
  }

  function DecomposeMetrics(m: TradeMetrics): (Option<real>, Option<real>) {
    DecomposeAvgWinLoss(m.winRate, m.profitFactor, m.avgTrade, m.tradeCount)
  }

  datatype WindowEconomics = WindowEconomics(netPnl: real, grossPnl: real, returnPct: real,
                                             netExpectancy: Option<real>, costPerTrade: Option<real>,
                                             avgWin: Option<real>, avgLoss: Option<real>,
                                             costToEdge: Option<real>, costsExceedGross: bool)

  /** The window's economics from its evidence: balances, total cost and trade metrics. */
  function WindowOf(startingBalance: real, endingEquity: real, costTotal: real, m: TradeMetrics): WindowEconomics {
    var netPnl := endingEquity - startingBalance;
    var grossPnl := netPnl + costTotal;
    var costPerTrade := if m.tradeCount > 0 then Some(costTotal / m.tradeCount as real) else None;
    var (avgWin, avgLoss) := DecomposeMetrics(m);
    WindowEconomics(netPnl, grossPnl,
                    if startingBalance != 0.0 then netPnl / startingBalance else 0.0,
                    if costPerTrade.Some? then Some(m.avgTrade - costPerTrade.value) else None, costPerTrade,
                    avgWin, avgLoss,
                    if grossPnl > 0.0 then Some(costTotal / grossPnl) else None, grossPnl <= 0.0)
  }

  /** What a window's shares are shares of: each of them times its base is the amount it stands for. */
  lemma WindowShares(startingBalance: PositiveDecimal, endingEquity: real, costTotal: real, m: TradeMetrics)
    ensures var w := WindowOf(startingBalance, endingEquity, costTotal, m);
            var gross := endingEquity - startingBalance + costTotal;
            && w.returnPct * startingBalance == endingEquity - startingBalance
            && (w.costToEdge.Some? <==> gross > 0.0) && (w.costsExceedGross <==> gross <= 0.0)
            && (w.costToEdge.Some? ==> w.costToEdge.value * gross == costTotal)
            && (w.costPerTrade.Some? <==> m.tradeCount > 0)
            && (w.costPerTrade.Some? ==> w.costPerTrade.value * m.tradeCount as real == costTotal)
            && (w.avgWin, w.avgLoss) == DecomposeMetrics(m)
  {
    hide DecomposeMetrics;
    Requotient(endingEquity - startingBalance, startingBalance);
    var gross := endingEquity - startingBalance + costTotal;
    if gross > 0.0 {
      Requotient(costTotal, gross);
    }
    if m.tradeCount > 0 {
      Requotient(costTotal, m.tradeCount as real);
    }
  }

  // -------------------------------------------------- inverting the metrics

  /** From G and H, the profit factor G/H and the difference G-H determine both. */
  lemma RecoverGross(g: real, h: real)
    requires h > 0.0 && g / h != 1.0
    ensures (g - h) / (g / h - 1.0) == h
    ensures g / h * h == g
  {
    Requotient(g, h);
    var pf := g / h;
    assert g - h == h * (pf - 1.0);
    QuotientIs(g - h, pf - 1.0, h);
  }

  lemma UnitQuotient(g: real, h: real)
    requires h > 0.0
    ensures g / h == 1.0 <==> g == h
  {
    Requotient(g, h);
    if g == h {
      QuotientIs(g, h, 1.0);
    }
  }

  /** The intermediate quantities of the decomposition, on a tally's own metrics. */
  lemma Intermediates(t: Tally)
    requires t.trades > 0
    ensures var m := MetricsOfTally(t);
            && m.winRate * t.trades as real == t.wins as real
            && m.avgTrade * t.trades as real == t.total
            && m.tradeCount == t.trades
  {
    Requotient(t.wins as real, t.trades as real);
    Requotient(t.total, t.trades as real);
  }

  /** There is a winner, and either no loss or gross wins different from gross losses. */
  predicate Decomposable(t: Tally) {
    t.wins > 0 && (t.losses == 0 || t.grossWins != t.grossLosses)
  }

  /** What the decomposition is meant to recover: gross per winner, gross per non-winner. */
  predicate Recovers(t: Tally, avgWin: real, avgLoss: real) {
    && avgWin * t.wins as real == t.grossWins
    && avgLoss * (t.trades - t.wins) as real == t.grossLosses
    && (t.losses == 0 ==> avgLoss == 0.0)
  }

  lemma DecompositionInvertsTally(t: Tally)
    requires Consistent(t)
    ensures var (avgWin, avgLoss) := DecomposeMetrics(MetricsOfTally(t));
            && (avgWin.Some? <==> Decomposable(t)) && (avgLoss.Some? <==> Decomposable(t))
            && (Decomposable(t) ==> Recovers(t, avgWin.value, avgLoss.value))
  {
    if t.trades > 0 {
      Intermediates(t);
      assert (t.trades - t.wins) as real == t.trades as real - t.wins as real;
      if t.losses > 0 {
        WithLosses(t);
      } else if t.wins > 0 {
        Requotient(t.total, t.wins as real);
      }
    }
  }

  lemma WithLosses(t: Tally)
    requires Consistent(t) && t.losses > 0
    ensures var (avgWin, avgLoss) := DecomposeMetrics(MetricsOfTally(t));
            && (avgWin.Some? <==> Decomposable(t)) && (avgLoss.Some? <==> Decomposable(t))
            && (Decomposable(t) ==> Recovers(t, avgWin.value, avgLoss.value))
  {
    hide MetricsOfTally, DecomposeAvgWinLoss;
    Intermediates(t);
    FactorOf(t);
    var m, g, h, w := MetricsOfTally(t), t.grossWins, t.grossLosses, t.wins as real;
    var rest := t.trades as real - w;
    assert (t.trades - t.wins) as real == rest;
    UnitQuotient(g, h);
    if t.wins > 0 && g != h {
      DecomposeWithFactor(m.winRate, g / h, m.avgTrade, t.trades, w, g, h);
      AverageOf(g, w);
      AverageOf(h, rest);
    } else {
      DecomposeDegenerate(m.winRate, g / h, m.avgTrade, t.trades);
    }
  }

  lemma FactorOf(t: Tally)
    requires t.trades > 0 && t.grossLosses > 0.0
    ensures MetricsOfTally(t).profitFactor == Some(t.grossWins / t.grossLosses)
  {
  }

  lemma AverageOf(total: real, count: real)
    requires total >= 0.0 && count > 0.0
    ensures Abs(total / count) * count == total
  {
    Requotient(total, count);
    QuotientNonnegative(total, count);
  }

  lemma DecomposeDegenerate(rate: real, pf: real, avg: real, n: nat)
    requires pf == 1.0 || rate * n as real <= 0.0
    ensures DecomposeAvgWinLoss(rate, Some(pf), avg, n) == (None, None)
  {
  }

  lemma QuotientNonnegative(x: real, y: real)
    requires x >= 0.0 && y > 0.0
    ensures x / y >= 0.0
  {
  }

  lemma DecomposeWithFactor(rate: real, pf: real, avg: real, n: nat, w: real, g: real, h: real)
    requires n > 0 && rate * n as real == w && avg * n as real == g - h
    requires h > 0.0 && pf == g / h && pf != 1.0 && w > 0.0 && n as real - w > 0.0
    ensures DecomposeAvgWinLoss(rate, Some(pf), avg, n) == (Some(Abs(g / w)), Some(Abs(h / (n as real - w))))
  {
    RecoverGross(g, h);
  }

  /**
   The decomposition inverts the metrics: it answers exactly on the decomposable logs, with the
   gross wins per winner and the gross losses per non-winner (zero when nothing was lost).
   */
  lemma DecompositionInvertsMetrics(pnls: seq<real>)
    ensures var t := TallyOf(pnls); var (avgWin, avgLoss) := DecomposeMetrics(MetricsOf(pnls));
            && (avgWin.Some? <==> Decomposable(t)) && (avgLoss.Some? <==> Decomposable(t))
            && (Decomposable(t) ==> Recovers(t, avgWin.value, avgLoss.value))
  {
    hide DecomposeMetrics, MetricsOfTally, TallyOf, Decomposable, Recovers;
    WinsAndLosses(pnls);
    DecompositionInvertsTally(TallyOf(pnls));
  }

  /** Whenever the decomposition answers, win rate times win minus loss rate times loss is the average trade. */
  lemma DecompositionReconstructsExpectancy(pnls: seq<real>)
    ensures var m := MetricsOf(pnls); var (avgWin, avgLoss) := DecomposeMetrics(m);
            avgWin.Some? && avgLoss.Some? ==> m.winRate * avgWin.value - (1.0 - m.winRate) * avgLoss.value == m.avgTrade
  {
    hide DecomposeMetrics, MetricsOfTally, TallyOf;
    DecompositionInvertsMetrics(pnls);
    WinsAndLosses(pnls);
    var t, m := TallyOf(pnls), MetricsOf(pnls);
    var (avgWin, avgLoss) := DecomposeMetrics(m);
    if avgWin.Some? && avgLoss.Some? {
      Intermediates(t);
      Reconstruct(m.winRate, avgWin.value, avgLoss.value, m.avgTrade, t);
    }
  }

  lemma Reconstruct(rate: real, win: real, loss: real, avg: real, t: Tally)
    requires t.wins <= t.trades && t.trades > 0
    requires rate * t.trades as real == t.wins as real && avg * t.trades as real == t.grossWins - t.grossLosses
    requires win * t.wins as real == t.grossWins && loss * (t.trades - t.wins) as real == t.grossLosses
    ensures rate * win - (1.0 - rate) * loss == avg
  {
    var rn := t.trades as real;
    assert (t.trades - t.wins) as real == rn - t.wins as real;
    assert (rate * win - (1.0 - rate) * loss) * rn == (rate * rn) * win - (rn - rate * rn) * loss;
    CancelFactor(rate * win - (1.0 - rate) * loss, avg, rn);
  }

  lemma CancelFactor(x: real, y: real, k: real)
    requires k != 0.0 && x * k == y * k
    ensures x == y
  {
    ProductOverFactor(x, k);
    ProductOverFactor(y, k);
  }

  /** The recovered loss is the true average loss exactly when no trade broke even. */
  lemma RecoveredLossIsAverageLossExactlyWhen(pnls: seq<real>)
    requires Decomposable(TallyOf(pnls)) && Losses(pnls) != []
    ensures var avgLoss := DecomposeMetrics(MetricsOf(pnls)).1;
            avgLoss.Some? && (avgLoss.value * |Losses(pnls)| as real == GrossLosses(pnls) <==>
                              forall i :: 0 <= i < |pnls| ==> pnls[i] != 0.0)
  {
    hide DecomposeMetrics, MetricsOfTally, Wins, Losses, GrossWins, GrossLosses;
    DecompositionInvertsMetrics(pnls);
    WinsAndLosses(pnls);
    var t, avgLoss := TallyOf(pnls), DecomposeMetrics(MetricsOf(pnls)).1.value;
    SameFactor(avgLoss, t.losses as real, (t.trades - t.wins) as real, t.grossLosses);
  }

  lemma SameFactor(x: real, a: real, b: real, product: real)
    requires product > 0.0 && x * b == product
    ensures x * a == product <==> a == b
  {
    if x * a == product {
      assert x != 0.0;
      CancelFactor(a, b, x);
    }
  }
}
