/** The engine's running-peak drawdown, the metric scan and the deepest pairwise fall, compared. */
module RunDrawdown {
  import opened Models
  import opened Costs
  import opened Rollover
  import opened Ledger
  import opened Engine
  import opened Metrics
  import opened RunSoundness
  import opened RunHistory
  import RunMoney

  /** The drawdown the engine reports for the last of some equity samples. */
  function ReportedDrawdown(es: seq<real>): real
    requires es != [] && es[0] > 0.0
  {
    PeakFromFirst(es);
    if es[|es| - 1] <= 0.0 then 1.0 else FallFromPeak(es)
  }

  /** Every sample of a curve carries the drawdown from the running peak of the equities up to it. */
  predicate PeaksTracked(curve: seq<EquityPoint>) {
    curve == [] ||
    (&& PeaksTracked(curve[..|curve| - 1])
     && curve[0].equity > 0.0
     && curve[|curve| - 1].drawdownPct == ReportedDrawdown(Equities(curve)))
  }

  lemma DrawdownFromPeak(account: Account, es: seq<real>)
    requires es != [] && es[0] > 0.0 && account.equity == es[|es| - 1] && account.peak == Peak(es)
    ensures account.DrawdownPct() == ReportedDrawdown(es)
  {
    PeakFromFirst(es);
    if account.equity > 0.0 && account.equity >= account.peak {
      var i := PeakIsAttained(es);
      assert account.equity == account.peak;
    }
  }

  lemma EquitiesExtend(curve: seq<EquityPoint>, point: EquityPoint)
    ensures Equities(curve + [point]) == Equities(curve) + [point.equity]
  {
  }

  /** The peak after marking is the running peak with the new equity included. */
  lemma MarkBumpsPeak(setup: Setup, st: RunState, bar: Candle, es: seq<real>)
    requires MarksTradeable(setup.model, st.book.broker.marks) && Tradeable(setup.model, bar.close)
    requires st.book.broker.peak == if es == [] then AccountAtBar(setup, st, bar).equity else Peak(es)
    ensures AccountAtBar(setup, st, bar).peak == Peak(es + [AccountAtBar(setup, st, bar).equity])
  {
    hide BarDay, Unrealized;
    var e := AccountAtBar(setup, st, bar).equity;
    assert (es + [e])[..|es|] == es;
  }

  lemma StartEquity(setup: Setup)
    requires ValidSetup(setup)
    ensures AccountAt(setup, 0).equity == setup.startingBalance == Iterate(setup, 0).book.broker.peak
  {
    hide BarDay;
  }

  lemma PeakAfterStep(setup: Setup, t: nat)
    requires ValidSetup(setup) && 0 < t < |setup.bars| && Iterate(setup, t - 1).halt.None?
    ensures Iterate(setup, t).book.broker.peak == AccountAt(setup, t - 1).peak
  {
    hide Step, MarkedBroker, CheckBreaches, Unrealized;
    var st := Iterate(setup, t - 1);
    StepKeepsClock(setup, t - 1, st);
  }

  /** The broker's peak is the running peak of the samples taken, and every sample was judged against it. */
  lemma {:induction false} PeakTracksCurve(setup: Setup, t: nat)
    requires ValidSetup(setup) && t < |setup.bars|
    ensures var st := Iterate(setup, t);
            && PeaksTracked(st.curve)
            && (if st.curve == [] then t == 0 && st.book.broker.peak == setup.startingBalance
                else st.book.broker.peak == Peak(Equities(st.curve)) && st.curve[0].equity == setup.startingBalance)
  {
    hide Iterate, AccountAt, CallAt, Sample, Breaches, PeaksTracked;
    if t == 0 {
      StartOfCurve(setup);
    } else {
      PeakTracksCurve(setup, t - 1);
      OneMoreBar(setup, t);
      if Iterate(setup, t - 1).halt.None? {
        RunRecords(setup, t - 1);
        PeakAfterStep(setup, t);
        OneMoreSample(setup, t - 1);
      }
    }
  }

  lemma StartOfCurve(setup: Setup)
    requires ValidSetup(setup)
    ensures Iterate(setup, 0).curve == [] && PeaksTracked([])
    ensures Iterate(setup, 0).book.broker.peak == setup.startingBalance
  {
  }

  lemma SampleOf(t: nat, account: Account)
    ensures Sample(t, account).equity == account.equity && Sample(t, account).drawdownPct == account.DrawdownPct()
  {
  }

  lemma OneMoreSample(setup: Setup, t: nat)
    requires ValidSetup(setup) && t < |setup.bars| - 1 && Iterate(setup, t).halt.None?
    requires var st := Iterate(setup, t);
             && PeaksTracked(st.curve) && |st.curve| == t
             && (if st.curve == [] then t == 0 && st.book.broker.peak == setup.startingBalance
                 else st.book.broker.peak == Peak(Equities(st.curve)) && st.curve[0].equity == setup.startingBalance)
    ensures var curve := Iterate(setup, t).curve + [Sample(t, AccountAt(setup, t))];
            && PeaksTracked(curve) && curve[0].equity == setup.startingBalance
            && AccountAt(setup, t).peak == Peak(Equities(curve))
  {
    hide Iterate, AccountAtBar, Sample, PeaksTracked, Tradeable, WellFormedBars;
    var st, account := Iterate(setup, t), AccountAt(setup, t);
    StartEquity(setup);
    var es := Equities(st.curve);
    MarkBumpsPeak(setup, st, setup.bars[t], es);
    SampleOf(t, account);
    EquitiesExtend(st.curve, Sample(t, account));
    ExtendTracked(st.curve, Sample(t, account), account);
  }

  lemma ExtendTracked(curve: seq<EquityPoint>, point: EquityPoint, account: Account)
    requires PeaksTracked(curve) && point.equity == account.equity && point.drawdownPct == account.DrawdownPct()
    requires (curve + [point])[0].equity > 0.0
    requires account.peak == Peak(Equities(curve) + [point.equity])
    ensures PeaksTracked(curve + [point])
  {
    var longer := curve + [point];
    EquitiesExtend(curve, point);
    assert longer[..|longer| - 1] == curve;
    DrawdownFromPeak(account, Equities(longer));
  }

  /** Every run's reported curve starts at the starting balance and tracks its own running peak. */
  lemma ReportedCurveTracked(setup: Setup)
    requires ValidSetup(setup)
    ensures var r := Run(setup);
            && |r.curve| >= 2 && PeaksTracked(r.curve) && r.curve[0].equity == setup.startingBalance
            && r.peakEquity == Peak(Equities(r.curve))
  {
    hide Run, Iterate, Finish, StateSound, PeaksTracked, Sample;
    RunMoney.RunIsFinish(setup);
    var last := |setup.bars| - 1;
    var st := Iterate(setup, last);
    FinishShape(setup, st);
    PeakTracksCurve(setup, last);
    RunRecords(setup, last);
    var account := Snapshot(setup.model, RunMoney.FinalBook(setup, st).broker, setup.bars[LastBar(setup, st)].time);
    FinalPeak(setup, st, Equities(st.curve));
    SampleOf(LastBar(setup, st), account);
    EquitiesExtend(st.curve, Sample(LastBar(setup, st), account));
    ExtendTracked(st.curve, Sample(LastBar(setup, st), account), account);
  }

  lemma FinalPeak(setup: Setup, st: RunState, es: seq<real>)
    requires ValidSetup(setup) && MarksTradeable(setup.model, st.book.broker.marks)
    requires 0 <= LastBar(setup, st) < |setup.bars| && es != [] && st.book.broker.peak == Peak(es)
    ensures var account := Snapshot(setup.model, RunMoney.FinalBook(setup, st).broker,
                                    setup.bars[LastBar(setup, st)].time);
            account.peak == Peak(es + [account.equity])
  {
    hide Unrealized;
    var account := Snapshot(setup.model, RunMoney.FinalBook(setup, st).broker, setup.bars[LastBar(setup, st)].time);
    assert (es + [account.equity])[..|es|] == es;
  }

  // ------------------------------------------------------------ comparison

  lemma EquitiesPrefix(curve: seq<EquityPoint>, i: nat)
    requires i <= |curve|
    ensures Equities(curve[..i]) == Equities(curve)[..i]
  {
  }

  /** While no sample is negative, the engine's maximum and the metric scan move together. */
  lemma {:induction false} MaximaAgree(curve: seq<EquityPoint>)
    requires curve != [] && PeaksTracked(curve)
    requires forall i :: 0 <= i < |curve| ==> curve[i].equity >= 0.0
    ensures Equities(curve)[0] > 0.0 && MaxDrawdownPct(curve) == ScanDrawdown(Equities(curve))
  {
    var es, n := Equities(curve), |curve|;
    PeakFromFirst(es);
    if es[n - 1] == 0.0 {
      QuotientIs(Peak(es) - 0.0, Peak(es), 1.0);
    }
    assert curve[n - 1].drawdownPct == FallFromPeak(es);
    if n == 1 {
      QuotientIs(0.0, Peak(es), 0.0);
    } else {
      MaximaAgree(curve[..n - 1]);
      EquitiesPrefix(curve, n - 1);
    }
  }

  lemma ReportedAtMostOne(es: seq<real>)
    requires es != [] && es[0] > 0.0
    ensures ReportedDrawdown(es) <= 1.0
  {
    PeakFromFirst(es);
    if es[|es| - 1] > 0.0 {
      QuotientBound(Peak(es) - es[|es| - 1], Peak(es), 1.0);
    }
  }

  lemma {:induction false} MaximumAtMostOne(curve: seq<EquityPoint>)
    requires PeaksTracked(curve)
    ensures MaxDrawdownPct(curve) <= 1.0
  {
    if curve != [] {
      MaximumAtMostOne(curve[..|curve| - 1]);
      ReportedAtMostOne(Equities(curve));
    }
  }

  lemma {:induction false} NegativeSampleScansAboveOne(es: seq<real>, i: nat)
    requires es != [] && es[0] > 0.0 && i < |es| && es[i] < 0.0
    ensures ScanDrawdown(es) > 1.0
  {
    if |es| > 1 {
      PeakFromFirst(es);
      if i == |es| - 1 {
        ScanExceedsOne(Peak(es), es[i]);
      } else {
        NegativeSampleScansAboveOne(es[..|es| - 1], i);
      }
    }
  }

  lemma ScanExceedsOne(peak: real, e: real)
    requires peak > 0.0 && e < 0.0
    ensures (peak - e) / peak > 1.0
  {
    var q := (peak - e) / peak;
    assert q * peak == peak - e;
    if q <= 1.0 {
      OneOrLess(q, peak);
    }
  }

  lemma OneOrLess(q: real, k: real)
    ensures q <= 1.0 && k > 0.0 ==> q * k <= k
  {
  }

  /**
   The engine's maximum drawdown and the metric pack's agree exactly on the runs that never sample
   a negative equity: the engine saturates at one, while the scan keeps counting.
   */
  lemma ReportsAgreeExactlyWhenSolvent(setup: Setup)
    requires ValidSetup(setup)
    ensures var r := Run(setup);
            r.maxDrawdownPct == r.metrics.maxDrawdown <==> forall i :: 0 <= i < |r.curve| ==> r.curve[i].equity >= 0.0
  {
    hide Run, PeaksTracked;
    ReportedCurveTracked(setup);
    var r := Run(setup);
    ReportFields(setup);
    if forall i :: 0 <= i < |r.curve| ==> r.curve[i].equity >= 0.0 {
      MaximaAgree(r.curve);
    } else {
      var i :| 0 <= i < |r.curve| && r.curve[i].equity < 0.0;
      NegativeSampleScansAboveOne(Equities(r.curve), i);
      MaximumAtMostOne(r.curve);
    }
  }

  lemma ReportFields(setup: Setup)
    requires ValidSetup(setup) && |Run(setup).curve| >= 2 && Run(setup).curve[0].equity > 0.0
    ensures var r := Run(setup);
            && Equities(r.curve)[0] > 0.0
            && r.maxDrawdownPct == MaxDrawdownPct(r.curve)
            && r.metrics.maxDrawdown == ScanDrawdown(Equities(r.curve))
  {
    hide Iterate, Unrealized, StillOpen, MaxDrawdownPct, ScanDrawdown, MetricsOf, ClosedPnls;
  }

  /** On those runs, all three are the deepest fall from one sample to a later one. */
  lemma ReportedDrawdownIsDeepestFall(setup: Setup)
    requires ValidSetup(setup)
    requires forall i :: 0 <= i < |Run(setup).curve| ==> Run(setup).curve[i].equity >= 0.0
    ensures IsDeepestFall(Equities(Run(setup).curve), Run(setup).maxDrawdownPct)
  {
    hide Run, PeaksTracked;
    ReportedCurveTracked(setup);
    ReportFields(setup);
    ReportsAgreeExactlyWhenSolvent(setup);
    ScanFindsDeepestFall(Equities(Run(setup).curve));
  }
}
