/** What a run records as it goes, and what its halts guarantee. */
module RunHistory {
  import opened Models
  import opened RiskGate
  import opened Costs
  import opened Rollover
  import opened Ledger
  import opened Engine
  import opened RunInvariant
  import opened RunSoundness
  import GateLaws
  import RunMoney

  /** The account as bar s finds it, on the way through the run. */
  ghost function AccountAt(setup: Setup, s: nat): Account
    requires ValidSetup(setup) && s < |setup.bars|
  {
    AccountAtBar(setup, Iterate(setup, s), setup.bars[s])
  }

  ghost function CallAt(setup: Setup, s: nat): StrategyCall
    requires ValidSetup(setup) && s < |setup.bars|
  {
    StrategyCall(setup.bars[..s + 1], AccountAt(setup, s), setup.bars[s].time)
  }

  /** An account over either loss limit. */
  predicate Breaches(risk: RiskConfig, account: Account) {
    account.DrawdownPct() >= risk.maxDrawdown || account.DailyLossPct() >= risk.dailyLossLimit
  }

  /** A breach in money: the loss from the peak, or from the start of the day, reaches its fraction of it. */
  lemma BreachesInMoney(risk: RiskConfig, account: Account)
    ensures Breaches(risk, account) <==>
              || account.peak - account.equity >= risk.maxDrawdown * account.peak
              || account.dayStart - account.equity >= risk.dailyLossLimit * account.dayStart
  {
    hide Account.DrawdownPct, Account.DailyLossPct;
    GateLaws.LossesInMoney(account, risk.maxDrawdown);
    GateLaws.LossesInMoney(account, risk.dailyLossLimit);
  }

  /** Which limit a bar's breach is put down to: the drawdown, when both are breached. */
  function Blamed(risk: RiskConfig, account: Account): HaltCause {
    TrippedAtBar(if account.peak - account.equity >= risk.maxDrawdown * account.peak then "drawdown" else "daily_loss")
  }

  lemma CheckBlames(risk: RiskConfig, account: Account)
    ensures CheckBreaches(risk, Released, account).Engaged? <==> Breaches(risk, account)
    ensures Breaches(risk, account) ==>
              TrippedAtBar(CheckBreaches(risk, Released, account).trippedBy) == Blamed(risk, account)
  {
    hide Account.DrawdownPct, Account.DailyLossPct;
    GateLaws.LossesInMoney(account, risk.maxDrawdown);
  }

  /** What one bar adds to the record, and when it halts for a breach. */
  lemma StepRecords(setup: Setup, t: nat, st: RunState)
    requires ValidSetup(setup) && t < |setup.bars| - 1 && st.halt.None? && st.ks.Released?
    requires MarksTradeable(setup.model, st.book.broker.marks)
    ensures var account := AccountAtBar(setup, st, setup.bars[t]);
            var after := Step(setup, t, st);
            && after.curve == st.curve + [Sample(t, account)]
            && (Breaches(setup.risk, account) <==> after.halt.Some? && after.halt.value.cause.TrippedAtBar?)
            && (Breaches(setup.risk, account) ==> after.halt.value.cause == Blamed(setup.risk, account))
            && after.calls == (if Breaches(setup.risk, account) then st.calls
                               else st.calls + [StrategyCall(setup.bars[..t + 1], account, setup.bars[t].time)])
            && (after.halt.Some? ==> after.halt.value.at == t)
  {
    hide CheckBreaches, Breaches, Blamed, MarkedBroker, FlattenAll, TakeSignals, ApplySwap, Snapshot;
    CheckBlames(setup.risk, AccountAtBar(setup, st, setup.bars[t]));
  }

  /** The same, along the run. */
  lemma OneMoreBar(setup: Setup, t: nat)
    requires ValidSetup(setup) && 0 < t < |setup.bars|
    ensures var before, after := Iterate(setup, t - 1), Iterate(setup, t);
            var breached := Breaches(setup.risk, AccountAt(setup, t - 1));
            && (before.halt.Some? ==> after == before)
            && (before.halt.None? ==>
                  && after.curve == before.curve + [Sample(t - 1, AccountAt(setup, t - 1))]
                  && after.calls == (if breached then before.calls else before.calls + [CallAt(setup, t - 1)])
                  && (breached <==> after.halt.Some? && after.halt.value.cause.TrippedAtBar?)
                  && (breached ==> after.halt.value.cause == Blamed(setup.risk, AccountAt(setup, t - 1)))
                  && (after.halt.Some? ==> after.halt.value.at == t - 1))
  {
    hide SoundBy, Step, Breaches, Blamed, AccountAtBar, Sample;
    var before := Iterate(setup, t - 1);
    if before.halt.None? {
      RunSound(setup, t - 1);
      StepRecords(setup, t - 1, before);
    }
  }

  lemma {:induction false} StartRecords(setup: Setup)
    requires ValidSetup(setup)
    ensures var st := Iterate(setup, 0);
            st.curve == [] && st.calls == [] && st.halt.None?
  {
  }

  /** A run starts with its whole balance in cash, nothing held, and the peak and the day at that balance. */
  lemma FirstAccount(setup: Setup)
    requires ValidSetup(setup)
    ensures var start := setup.startingBalance;
            AccountAt(setup, 0) == Account(start, start, [], 0.0, 0.0, start, start, setup.bars[0].time)
  {
    hide BarDay;
  }

  /** The position an account shows is the one trade of the log still open. */
  predicate ShowsOpenTrade(positions: seq<Position>, log: seq<TradeRecord>) {
    if log == [] || log[|log| - 1].exit.Some? then positions == []
    else
      var trade := log[|log| - 1].trade;
      && |positions| == 1
      && positions[0].pair == trade.pair && positions[0].direction == trade.direction
      && positions[0].size == trade.size && positions[0].entryPrice == trade.entryPrice
  }

  /** The account of a bar, read off the log as it stands: what it has netted, and the one trade still open. */
  lemma AccountReadsLog(setup: Setup, t: nat)
    requires ValidSetup(setup) && t < |setup.bars| - 1 && Iterate(setup, t).halt.None?
    ensures var account := AccountAt(setup, t);
            var log := RunMoney.LogNow(BeginBar(setup, t, Iterate(setup, t), setup.bars[t]).book);
            && account.balance == setup.startingBalance + NetOfLog(log)
            && account.equity == account.balance + account.unrealized && account.asOf == setup.bars[t].time
            && ShowsOpenTrade(account.positions, log)
  {
    hide Iterate, SoundBy, MarkedBroker, CheckBreaches, NetOfLog, ShowsOpenTrade, Shape, RunMoney.LogNow;
    RunSound(setup, t);
    var st := Iterate(setup, t);
    var ds :| StateSoundBy(setup, t, st, ds);
    BeginSound(setup, t, st, ds);
    var begun := BeginBar(setup, t, st, setup.bars[t]);
    RunMoney.SoundParts(setup, t, begun.book, begun.nextId, ds);
    RunMoney.CashFromLog(setup.Pair(), setup.startingBalance, begun.book, begun.nextId);
    HeldIsShown(setup, begun.book, begun.nextId);
  }

  lemma HeldIsShown(setup: Setup, book: Book, nextId: nat)
    requires setup.bars != [] && Shape(setup.Pair(), book, nextId)
    ensures ShowsOpenTrade(PositionsOf(book.broker.lots), RunMoney.LogNow(book))
  {
    RunMoney.LogNowForm(setup.Pair(), book, nextId);
  }

  /** Bars whose sample and whose strategy call have been recorded by a state. */
  function Sampled(t: nat, st: RunState): nat {
    if st.halt.Some? then st.halt.value.at + 1 else t
  }

  function Called(t: nat, st: RunState): nat {
    if st.halt.None? then t
    else if st.halt.value.cause.TrippedAtBar? then st.halt.value.at else st.halt.value.at + 1
  }

  /** The equity curve and the strategy's calls are one per bar, each made from that bar's account. */
  lemma {:induction false} RunRecords(setup: Setup, t: nat)
    requires ValidSetup(setup) && t < |setup.bars|
    ensures var st := Iterate(setup, t);
            && |st.curve| == Sampled(t, st) <= t && |st.calls| == Called(t, st) <= t
            && (forall s :: 0 <= s < |st.curve| ==> st.curve[s] == Sample(s, AccountAt(setup, s)))
            && (forall s :: 0 <= s < |st.calls| ==> st.calls[s] == CallAt(setup, s))
  {
    hide Iterate, AccountAt, CallAt, Sample, Breaches;
    if t == 0 {
      StartRecords(setup);
    } else {
      RunRecords(setup, t - 1);
      OneMoreBar(setup, t);
    }
  }

  /** Each sample reads the account of its bar. */
  lemma SamplesReadAccounts(setup: Setup, t: nat, s: nat)
    requires ValidSetup(setup) && t < |setup.bars| && s < |Iterate(setup, t).curve|
    ensures s < t
    ensures var sample, account := Iterate(setup, t).curve[s], AccountAt(setup, s);
            && sample.barIndex == s && sample.time == setup.bars[s].time
            && sample.balance == account.balance && sample.equity == account.equity
            && sample.openPositions == |account.positions|
  {
    hide Iterate, MarkedBroker, Unrealized;
    RunRecords(setup, t);
  }

  /** A bar that does not halt the run leaves both loss limits unbreached, as does every bar before it. */
  lemma {:induction false} BelowLimitsUntilHalt(setup: Setup, t: nat, s: nat)
    requires ValidSetup(setup) && s < t < |setup.bars|
    requires Iterate(setup, t).halt.None? || s < Iterate(setup, t).halt.value.at
    ensures Iterate(setup, s).halt.None? && !Breaches(setup.risk, AccountAt(setup, s))
  {
    hide Iterate, AccountAt, CallAt, Sample, Breaches;
    OneMoreBar(setup, t);
    if s < t - 1 {
      BelowLimitsUntilHalt(setup, t - 1, s);
    }
  }

  // --------------------------------------------------------------- day rolls

  lemma BeginSetsDay(setup: Setup, t: nat, st: RunState, bar: Candle)
    requires MarksTradeable(setup.model, st.book.broker.marks) && Tradeable(setup.model, bar.close)
    ensures BeginBar(setup, t, st, bar).book.broker.day == Some(BarDay(bar.time, setup.hour))
  {
    hide Unrealized, BarDay, CheckBreaches;
  }

  lemma StepKeepsClock(setup: Setup, t: nat, st: RunState)
    requires ValidSetup(setup) && t < |setup.bars| - 1 && MarksTradeable(setup.model, st.book.broker.marks)
    requires st.halt.None?
    ensures SameClock(Step(setup, t, st).book.broker, BeginBar(setup, t, st, setup.bars[t]).book.broker)
  {
    hide BeginBar, HaltWith, Trade, AccountAtBar;
  }

  lemma DayIsThatOfTheLastBar(setup: Setup, t: nat)
    requires ValidSetup(setup) && 0 < t < |setup.bars| && Iterate(setup, t).halt.None?
    ensures Iterate(setup, t).book.broker.day == Some(BarDay(setup.bars[t - 1].time, setup.hour))
  {
    var before := Iterate(setup, t - 1);
    hide Step, BeginBar, BarDay;
    BeginSetsDay(setup, t - 1, before, setup.bars[t - 1]);
    StepKeepsClock(setup, t - 1, before);
  }

  /**
   The daily counters are reset at a bar exactly when the gap before it crossed a rollover, and
   the day then starts from the equity as last marked, at the previous bar's close.
   */
  lemma DayResetsExactlyOnRollover(setup: Setup, t: nat)
    requires ValidSetup(setup) && 0 < t < |setup.bars| && Iterate(setup, t).halt.None?
    ensures var before := Iterate(setup, t).book.broker;
            var begun := BeginBar(setup, t, Iterate(setup, t), setup.bars[t]).book.broker;
            if Rollovers(setup.bars[t - 1].time, setup.bars[t].time, setup.hour) > 0
            then begun.realizedToday == 0.0 && begun.dayStart == Max(Equity(setup.model, before), SMALLEST_DAY_START)
            else begun.realizedToday == before.realizedToday && begun.dayStart == before.dayStart
  {
    DayIsThatOfTheLastBar(setup, t);
    var from, to := setup.bars[t - 1].time, setup.bars[t].time;
    BarDayCountsRollovers(from, to, setup.hour);
    RolloversMonotone(from, to, setup.hour);
    hide Iterate, BarDay, RolloversUpTo, CheckBreaches, Unrealized;
  }

  /**
   The day every account is measured against: it starts anew, from the equity as the last bar left it but
   never below the smallest amount, when a rollover was crossed, and is the last account's otherwise.
   */
  lemma DayStartOfAccounts(setup: Setup, t: nat)
    requires ValidSetup(setup) && 0 < t < |setup.bars| && Iterate(setup, t).halt.None?
    ensures var left := Equity(setup.model, Iterate(setup, t).book.broker);
            AccountAt(setup, t).dayStart
              == if Rollovers(setup.bars[t - 1].time, setup.bars[t].time, setup.hour) == 0
                 then AccountAt(setup, t - 1).dayStart
                 else if left > 0.01 then left else 0.01
  {
    hide Iterate, Step, Rollovers, MarkedBroker, CheckBreaches, Unrealized, Tradeable, WellFormedBars;
    DayResetsExactlyOnRollover(setup, t);
    OneMoreBar(setup, t);
    DayStartKept(setup, t - 1);
    RolloversNatural(setup, t);
  }

  lemma DayStartKept(setup: Setup, t: nat)
    requires ValidSetup(setup) && t < |setup.bars| - 1 && Iterate(setup, t).halt.None?
    ensures Iterate(setup, t + 1).book.broker.dayStart == AccountAt(setup, t).dayStart
  {
    hide Step, MarkedBroker, CheckBreaches, Unrealized;
    StepKeepsClock(setup, t, Iterate(setup, t));
  }

  lemma RolloversNatural(setup: Setup, t: nat)
    requires ValidSetup(setup) && 0 < t < |setup.bars|
    ensures Rollovers(setup.bars[t - 1].time, setup.bars[t].time, setup.hour) >= 0
  {
    hide Tradeable, RolloversUpTo;
    RolloversMonotone(setup.bars[t - 1].time, setup.bars[t].time, setup.hour);
  }

  // ---------------------------------------------------------------- results

  lemma FinishShape(setup: Setup, st: RunState)
    requires ValidSetup(setup) && MarksTradeable(setup.model, st.book.broker.marks)
    requires 0 <= LastBar(setup, st) < |setup.bars|
    ensures var r := Finish(setup, st);
            var account := Snapshot(setup.model, RunMoney.FinalBook(setup, st).broker,
                                    setup.bars[LastBar(setup, st)].time);
            && r.halt == st.halt && r.barsProcessed == LastBar(setup, st) + 1
            && r.curve == st.curve + [Sample(LastBar(setup, st), account)]
            && r.endingEquity == account.equity && r.endingBalance == account.balance && r.peakEquity == account.peak
            && |account.positions| == |st.book.broker.lots|
  {
    hide Unrealized, StillOpen;
  }

  /**
   Halt safety: a halted run sampled every bar up to the halting one and once more after
   flattening, every earlier bar was inside both limits, and it ends flat, its equity all cash.
   */
  lemma HaltedRun(setup: Setup)
    requires ValidSetup(setup) && Run(setup).halt.Some?
    ensures var r := Run(setup); var at := r.halt.value.at;
            && at < |setup.bars| - 1 && r.barsProcessed == at + 1 && |r.curve| == at + 2
            && (forall s :: 0 <= s < at ==>
                !Breaches(setup.risk, AccountAt(setup, s)) && r.curve[s] == Sample(s, AccountAt(setup, s)))
            && (r.halt.value.cause.TrippedAtBar? ==>
                  && Breaches(setup.risk, AccountAt(setup, at))
                  && r.halt.value.cause == Blamed(setup.risk, AccountAt(setup, at)))
            && r.endingEquity == r.endingBalance && r.curve[at + 1].openPositions == 0
  {
    hide Run, Iterate, Finish, Breaches, Blamed, AccountAt, Sample;
    RunMoney.RunIsFinish(setup);
    var last := |setup.bars| - 1;
    var st := Iterate(setup, last);
    FinishShape(setup, st);
    RunRecords(setup, last);
    forall s | 0 <= s < st.halt.value.at ensures !Breaches(setup.risk, AccountAt(setup, s)) {
      BelowLimitsUntilHalt(setup, last, s);
    }
    HaltCause(setup, last);
    FlatIsAllCash(setup, last, st);
  }

  /** A run that halted at a bar check did so on a breach of that bar's account, and blames the limit it reached. */
  lemma {:induction false} HaltCause(setup: Setup, t: nat)
    requires ValidSetup(setup) && t < |setup.bars| && Iterate(setup, t).halt.Some?
    ensures var halt := Iterate(setup, t).halt.value;
            && halt.at < t && (halt.cause.TrippedAtBar? <==> Breaches(setup.risk, AccountAt(setup, halt.at)))
            && (halt.cause.TrippedAtBar? ==> halt.cause == Blamed(setup.risk, AccountAt(setup, halt.at)))
  {
    hide Iterate, AccountAt, CallAt, Sample, Breaches, Blamed;
    if t == 0 {
      StartRecords(setup);
    } else {
      OneMoreBar(setup, t);
      if Iterate(setup, t - 1).halt.Some? {
        HaltCause(setup, t - 1);
      }
    }
  }

  lemma FlatIsAllCash(setup: Setup, t: nat, st: RunState)
    requires ValidSetup(setup) && StateSound(setup, t, st) && st.halt.Some?
    requires MarksTradeable(setup.model, st.book.broker.marks) && 0 <= LastBar(setup, st) < |setup.bars|
    ensures var account := Snapshot(setup.model, RunMoney.FinalBook(setup, st).broker,
                                    setup.bars[LastBar(setup, st)].time);
            account.equity == account.balance && account.positions == []
    ensures Sample(LastBar(setup, st), Snapshot(setup.model, RunMoney.FinalBook(setup, st).broker,
                                                setup.bars[LastBar(setup, st)].time)).openPositions == 0
  {
    hide SoundBy;
  }

  /** A run that is not halted samples every bar exactly once, all but the last inside both limits. */
  lemma CompletedRun(setup: Setup)
    requires ValidSetup(setup) && Run(setup).halt.None?
    ensures var r := Run(setup);
            && |r.curve| == r.barsProcessed == |setup.bars|
            && forall s :: 0 <= s < |setup.bars| - 1 ==>
                 !Breaches(setup.risk, AccountAt(setup, s)) && r.curve[s] == Sample(s, AccountAt(setup, s))
  {
    hide Run, Iterate, Finish, Breaches, Blamed, AccountAt, Sample;
    RunMoney.RunIsFinish(setup);
    var last := |setup.bars| - 1;
    FinishShape(setup, Iterate(setup, last));
    RunRecords(setup, last);
    forall s | 0 <= s < last ensures !Breaches(setup.risk, AccountAt(setup, s)) {
      BelowLimitsUntilHalt(setup, last, s);
    }
  }
}
