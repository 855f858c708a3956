/** The held-out tail of the data, and rolling train and test windows over the rest. */
module WalkForward {
  import opened Models
  import opened Sorting

  predicate TimeLe(a: Candle, b: Candle) {
    a.time <= b.time
  }

  function ByTime(bars: seq<Candle>): seq<Candle> {
    Sort(bars, TimeLe)
  }

  lemma ByTimeOrders(bars: seq<Candle>)
    ensures Ordered(ByTime(bars), TimeLe) && multiset(ByTime(bars)) == multiset(bars) && |ByTime(bars)| == |bars|
  {
    SortOrders(bars, TimeLe);
    assert |multiset(ByTime(bars))| == |multiset(bars)|;
  }

  // ---------------------------------------------------------------- the split

  const OOS_TOKEN := "I_AM_DONE_TUNING"

  datatype SplitError = BadFraction | TooFewBars | WrongToken

  /** Nearest integer, an exact half going to the even neighbour. */
  function Round(x: real): (n: int)
    ensures n as real - 0.5 <= x <= n as real + 0.5
    ensures x == x.Floor as real + 0.5 ==> n % 2 == 0
  {
    var below := x.Floor;
    var rest := x - below as real;
    if rest < 0.5 || (rest == 0.5 && below % 2 == 0) then below else below + 1
  }

  function Clamp(n: nat, wanted: int): int
    requires n >= 2
  {
    var atLeastOne := if wanted < 1 then 1 else wanted;
    if atLeastOne > n - 1 then n - 1 else atLeastOne
  }

  function Share(n: nat, fraction: real): real {
    n as real * fraction
  }

  /** How many of n bars are held out. */
  function HoldoutSize(n: nat, fraction: real): int
    requires n >= 2
  {
    Clamp(n, Round(Share(n, fraction)))
  }

  /** The holdout leaves bars on both sides and is less than one bar off the requested share. */
  lemma HoldoutWithinOneBar(n: nat, fraction: real)
    requires n >= 2 && 0.0 < fraction < 1.0
    ensures 1 <= HoldoutSize(n, fraction) <= n - 1
    ensures Abs(HoldoutSize(n, fraction) as real - Share(n, fraction)) < 1.0
  {
    hide Clamp, Round, Abs, Share;
    ShareOf(n, fraction);
    ClampedShare(n, Share(n, fraction));
  }

  /** It is the nearest to the requested share among the sizes that do so, the even one of two as near. */
  lemma HoldoutIsNearest(n: nat, fraction: real, other: int)
    requires n >= 2 && 0.0 < fraction < 1.0 && 1 <= other <= n - 1
    ensures var size, share := HoldoutSize(n, fraction), n as real * fraction;
            && Abs(size as real - share) <= Abs(other as real - share)
            && (other != size && Abs(size as real - share) == Abs(other as real - share) ==> size % 2 == 0)
  {
    ClampedIsNearest(n, n as real * fraction, other);
  }

  lemma RoundIsNearest(x: real, other: int)
    ensures Abs(Round(x) as real - x) <= Abs(other as real - x)
    ensures other != Round(x) && Abs(Round(x) as real - x) == Abs(other as real - x) ==> Round(x) % 2 == 0
  {
    hide Round;
    var n := Round(x);
    if other < n {
      assert other as real <= n as real - 1.0;
      if x == n as real - 0.5 {
        assert x.Floor == n - 1;
      }
    } else if other > n {
      assert other as real >= n as real + 1.0;
      if x == n as real + 0.5 {
        assert x.Floor == n;
      }
    }
  }

  lemma ClampedIsNearest(n: nat, share: real, other: int)
    requires n >= 2 && 1 <= other <= n - 1
    ensures var size := Clamp(n, Round(share));
            && Abs(size as real - share) <= Abs(other as real - share)
            && (other != size && Abs(size as real - share) == Abs(other as real - share) ==> size % 2 == 0)
  {
    hide Round;
    var wanted := Round(share);
    if wanted < 1 {
      assert share <= 0.5;
      assert other as real >= 1.0;
    } else if wanted > n - 1 {
      assert share >= wanted as real - 0.5 >= n as real - 0.5;
      assert other as real <= (n - 1) as real;
    } else {
      RoundIsNearest(share, other);
    }
  }

  lemma ClampedShare(n: nat, share: real)
    requires n >= 2 && 0.0 < share < n as real
    ensures 1 <= Clamp(n, Round(share)) <= n - 1
    ensures Abs(Clamp(n, Round(share)) as real - share) < 1.0
  {
    hide Round;
    var wanted := Round(share);
    assert wanted as real - 0.5 <= share <= wanted as real + 0.5;
  }

  lemma ShareOf(n: nat, fraction: real)
    requires n > 0 && 0.0 < fraction < 1.0
    ensures 0.0 < Share(n, fraction) < n as real
  {
    assert n as real * (1.0 - fraction) > 0.0;
  }

  class DataSplit {
    var inSample: seq<Candle>
    var oos: seq<Candle>
    var oosAccesses: nat

    /** The most recent bars are held out: the two parts are the sorted bars, cut once. */
    constructor (bars: seq<Candle>, fraction: real)
      requires |bars| >= 2 && 0.0 < fraction < 1.0
      ensures inSample + oos == ByTime(bars) && |oos| == HoldoutSize(|bars|, fraction)
      ensures inSample != [] && oos != [] && oosAccesses == 0
      ensures multiset(inSample) + multiset(oos) == multiset(bars)
      ensures forall i, j :: 0 <= i < |inSample| && 0 <= j < |oos| ==> inSample[i].time <= oos[j].time
    {
      hide Sort, HoldoutSize;
      var sorted := ByTime(bars);
      ByTimeOrders(bars);
      HoldoutWithinOneBar(|bars|, fraction);
      var start := |sorted| - HoldoutSize(|bars|, fraction);
      inSample := sorted[..start];
      oos := sorted[start..];
      oosAccesses := 0;
      new;
      assert sorted == inSample + oos;
      forall i, j | 0 <= i < |inSample| && 0 <= j < |oos| ensures inSample[i].time <= oos[j].time {
        assert TimeLe(sorted[i], sorted[start + j]);
      }
    }

    static method Create(bars: seq<Candle>, fraction: real) returns (r: Result<DataSplit, SplitError>)
      ensures r.Err? <==> !(0.0 < fraction < 1.0) || |bars| < 2
      ensures r.Err? ==> r.error == if 0.0 < fraction < 1.0 then TooFewBars else BadFraction
      ensures r.Ok? ==>
                && fresh(r.value) && r.value.oosAccesses == 0
                && r.value.inSample + r.value.oos == ByTime(bars) && |r.value.oos| == HoldoutSize(|bars|, fraction)
    {
      if !(0.0 < fraction < 1.0) {
        return Err(BadFraction);
      }
      if |bars| < 2 {
        return Err(TooFewBars);
      }
      var split := new DataSplit(bars, fraction);
      r := Ok(split);
    }

    predicate Burned()
      reads this
    {
      oosAccesses > 0
    }

    /** Only the exact token opens the holdout, and every opening is counted. */
    method AccessOutOfSample(token: string) returns (r: Result<seq<Candle>, SplitError>)
      modifies this`oosAccesses
      ensures r == if token == OOS_TOKEN then Ok(oos) else Err(WrongToken)
      ensures oosAccesses == old(oosAccesses) + (if r.Ok? then 1 else 0)
      ensures Burned() <==> old(Burned()) || token == OOS_TOKEN
    {
      if token != OOS_TOKEN {
        return Err(WrongToken);
      }
      oosAccesses := oosAccesses + 1;
      r := Ok(oos);
    }
  }

  // -------------------------------------------------------------- the windows

  datatype WindowConfig = WindowConfig(train: PositiveCount, test: PositiveCount, step: PositiveCount)

  datatype Window = Window(train: seq<Candle>, test: seq<Candle>)

  /** The bars with lo <= time < hi, in order. */
  function Between(bars: seq<Candle>, lo: int, hi: int): (r: seq<Candle>)
    ensures forall b :: b in r <==> b in bars && lo <= b.time < hi
  {
    if bars == [] then []
    else
      var last := bars[|bars| - 1];
      assert bars == bars[..|bars| - 1] + [last];
      Between(bars[..|bars| - 1], lo, hi) + (if lo <= last.time < hi then [last] else [])
  }

  /** Round k of the loop slices the bars: its test ends at most one step past the data. */
  predicate Fits(cfg: WindowConfig, span: nat, k: nat) {
    k * cfg.step + cfg.train + cfg.test <= span + cfg.step && (k == 0 || k * cfg.step < span)
  }

  /** The number of rounds, in closed form. */
  function Rounds(cfg: WindowConfig, span: nat): nat {
    if cfg.train + cfg.test > span + cfg.step then 0
    else
      var byTest := (span + cfg.step - cfg.train - cfg.test) / cfg.step + 1;
      var byCursor := if span == 0 then 1 else (span - 1) / cfg.step + 1;
      if byTest < byCursor then byTest else byCursor
  }

  lemma QuotientBound(a: int, k: int, d: int)
    requires d > 0
    ensures k <= a / d <==> k * d <= a
  {
    assert a == d * (a / d) + a % d && 0 <= a % d < d;
    if k <= a / d {
      assert (a / d - k) * d >= 0;
    } else {
      assert (k - a / d - 1) * d >= 0;
    }
  }

  /** The loop slices exactly the rounds below the closed form. */
  lemma FitsExactlyBelowRounds(cfg: WindowConfig, span: nat, k: nat)
    ensures Fits(cfg, span, k) <==> k < Rounds(cfg, span)
  {
    QuotientBound(span + cfg.step - cfg.train - cfg.test, k, cfg.step);
    QuotientBound(span - 1, k, cfg.step);
    assert k * cfg.step >= 0;
    assert k == 0 ==> k * cfg.step == 0;
    assert k >= 1 ==> k * cfg.step >= cfg.step by {
      if k >= 1 {
        assert (k - 1) * cfg.step >= 0;
      }
    }
  }

  function Cursor(ordered: seq<Candle>, cfg: WindowConfig, k: nat): int
    requires ordered != []
  {
    ordered[0].time + k * cfg.step
  }

  function WindowAt(ordered: seq<Candle>, cfg: WindowConfig, k: nat): Window
    requires ordered != []
  {
    var trainEnd := Cursor(ordered, cfg, k) + cfg.train;
    Window(Between(ordered, Cursor(ordered, cfg, k), trainEnd), Between(ordered, trainEnd, trainEnd + cfg.test))
  }

  predicate Usable(w: Window) {
    w.train != [] && w.test != []
  }

  /** The usable windows of the first n rounds. */
  function Windows(ordered: seq<Candle>, cfg: WindowConfig, n: nat): seq<Window>
    requires ordered != []
  {
    if n == 0 then []
    else
      var w := WindowAt(ordered, cfg, n - 1);
      Windows(ordered, cfg, n - 1) + (if Usable(w) then [w] else [])
  }

  function Span(ordered: seq<Candle>): int
    requires ordered != []
  {
    ordered[|ordered| - 1].time - ordered[0].time
  }

  method WalkForwardWindows(bars: seq<Candle>, cfg: WindowConfig) returns (windows: seq<Window>)
    ensures bars == [] ==> windows == []
    ensures bars != [] ==> var ordered := ByTime(bars);
                           && |ordered| == |bars| && Span(ordered) >= 0
                           && windows == Windows(ordered, cfg, Rounds(cfg, Span(ordered)))
  {
    hide Sort, Rounds, Between;
    if bars == [] {
      return [];
    }
    var ordered := ByTime(bars);
    ByTimeOrders(bars);
    var spanStart, spanEnd := ordered[0].time, ordered[|ordered| - 1].time;
    assert spanStart <= spanEnd by {
      if |ordered| > 1 {
        assert TimeLe(ordered[0], ordered[|ordered| - 1]);
      }
    }
    windows := [];
    var cursor := spanStart;
    ghost var k := 0;
    ghost var span := spanEnd - spanStart;
    while true
      invariant cursor == Cursor(ordered, cfg, k)
      invariant windows == Windows(ordered, cfg, k)
      invariant k == 0 || cursor < spanEnd
      invariant forall j :: 0 <= j < k ==> Fits(cfg, span, j)
      decreases spanEnd + cfg.step - cursor
    {
      var trainEnd := cursor + cfg.train;
      var testEnd := trainEnd + cfg.test;
      if testEnd > spanEnd + cfg.step {
        break;
      }
      var train := Between(ordered, cursor, trainEnd);
      var test := Between(ordered, trainEnd, testEnd);
      assert Window(train, test) == WindowAt(ordered, cfg, k);
      if train != [] && test != [] {
        windows := windows + [Window(train, test)];
      }
      cursor := cursor + cfg.step;
      k := k + 1;
      NextCursor(cfg, k);
      if cursor >= spanEnd {
        break;
      }
    }
    RoundsFromLoop(cfg, span, k);
  }

  lemma NextCursor(cfg: WindowConfig, k: nat)
    requires k > 0
    ensures k * cfg.step == (k - 1) * cfg.step + cfg.step
  {
  }

  /** The first round that does not fit is the number of rounds. */
  lemma RoundsFromLoop(cfg: WindowConfig, span: nat, k: nat)
    requires !Fits(cfg, span, k) && forall j :: 0 <= j < k ==> Fits(cfg, span, j)
    ensures k == Rounds(cfg, span)
  {
    hide Fits, Rounds;
    FitsExactlyBelowRounds(cfg, span, k);
    FitsExactlyBelowRounds(cfg, span, Rounds(cfg, span));
    assert Rounds(cfg, span) < k ==> Fits(cfg, span, Rounds(cfg, span));
  }

  // --------------------------------------------------------------- discipline

  /** No window lets a training bar reach its test: every training bar is strictly earlier than every test bar. */
  lemma {:induction false} TrainPrecedesTest(ordered: seq<Candle>, cfg: WindowConfig, n: nat, w: Window, a: Candle,
                                             b: Candle)
    requires ordered != [] && w in Windows(ordered, cfg, n) && a in w.train && b in w.test
    ensures a.time < b.time
    ensures a in ordered && b in ordered
    ensures a.time + cfg.train + cfg.test > b.time
  {
    hide Between;
    var last := WindowAt(ordered, cfg, n - 1);
    if w != last {
      TrainPrecedesTest(ordered, cfg, n - 1, w, a, b);
    }
  }

  /** How many windows test on the bar. */
  function TestsOn(windows: seq<Window>, bar: Candle): nat {
    if windows == [] then 0
    else TestsOn(windows[..|windows| - 1], bar) + (if bar in windows[|windows| - 1].test then 1 else 0)
  }

  function CeilDiv(a: int, b: PositiveCount): int {
    -((0 - a) / b)
  }

  /** The first round whose test ends after the offset from the first train end. */
  function FirstRound(cfg: WindowConfig, offset: int): int {
    (offset - cfg.test) / cfg.step + 1
  }

  /** A bar tested in round k pins k to one of ceil(test / step) consecutive rounds. */
  lemma RoundsTestingABar(cfg: WindowConfig, offset: int, k: nat)
    requires k * cfg.step <= offset < k * cfg.step + cfg.test
    ensures FirstRound(cfg, offset) <= k < FirstRound(cfg, offset) + CeilDiv(cfg.test, cfg.step)
  {
    var first, c := FirstRound(cfg, offset), CeilDiv(cfg.test, cfg.step);
    QuotientBound(offset - cfg.test, k, cfg.step);
    QuotientBound(offset - cfg.test, first, cfg.step);
    QuotientBound(0 - cfg.test, 0 - c, cfg.step);
    TestLength(cfg, first, c, k, offset);
  }

  lemma TestLength(cfg: WindowConfig, first: int, c: int, k: int, offset: int)
    requires first * cfg.step > offset - cfg.test && (0 - c) * cfg.step <= 0 - cfg.test && k * cfg.step <= offset
    ensures k < first + c
  {
    assert (0 - c) * cfg.step == 0 - c * cfg.step;
    assert (first + c - k) * cfg.step == first * cfg.step + c * cfg.step - k * cfg.step;
    assert (first + c - k) * cfg.step > 0;
  }

  lemma TestedRound(ordered: seq<Candle>, cfg: WindowConfig, k: nat, bar: Candle)
    requires ordered != [] && bar in WindowAt(ordered, cfg, k).test
    ensures var first := FirstRound(cfg, bar.time - ordered[0].time - cfg.train);
            first <= k < first + CeilDiv(cfg.test, cfg.step)
  {
    hide CeilDiv, FirstRound;
    RoundsTestingABar(cfg, bar.time - ordered[0].time - cfg.train, k);
  }

  lemma TestsOnStep(ordered: seq<Candle>, cfg: WindowConfig, n: nat, bar: Candle)
    requires ordered != [] && n > 0
    ensures var w := WindowAt(ordered, cfg, n - 1);
            TestsOn(Windows(ordered, cfg, n), bar)
              == TestsOn(Windows(ordered, cfg, n - 1), bar) + (if Usable(w) && bar in w.test then 1 else 0)
  {
    hide WindowAt;
    var earlier, windows := Windows(ordered, cfg, n - 1), Windows(ordered, cfg, n);
    if Usable(WindowAt(ordered, cfg, n - 1)) {
      assert windows[..|windows| - 1] == earlier;
    } else {
      assert windows == earlier;
    }
  }

  lemma {:induction false} TestsUpTo(ordered: seq<Candle>, cfg: WindowConfig, n: nat, bar: Candle)
    requires ordered != []
    ensures var first := FirstRound(cfg, bar.time - ordered[0].time - cfg.train);
            && TestsOn(Windows(ordered, cfg, n), bar) <= (if n <= first then 0 else n - first)
            && TestsOn(Windows(ordered, cfg, n), bar) <= CeilDiv(cfg.test, cfg.step)
  {
    hide WindowAt, CeilDiv, FirstRound, Windows, TestsOn, Usable, Between;
    AtLeastOne(cfg);
    NothingTested(ordered, cfg, bar);
    if n > 0 {
      TestsUpTo(ordered, cfg, n - 1, bar);
      TestsOnStep(ordered, cfg, n, bar);
      if bar in WindowAt(ordered, cfg, n - 1).test {
        TestedRound(ordered, cfg, n - 1, bar);
      }
    }
  }

  lemma NothingTested(ordered: seq<Candle>, cfg: WindowConfig, bar: Candle)
    requires ordered != []
    ensures TestsOn(Windows(ordered, cfg, 0), bar) == 0
  {
  }

  lemma AtLeastOne(cfg: WindowConfig)
    ensures CeilDiv(cfg.test, cfg.step) >= 1
    ensures cfg.step >= cfg.test ==> CeilDiv(cfg.test, cfg.step) == 1
  {
    QuotientBound(0 - cfg.test, 0, cfg.step);
    QuotientBound(0 - cfg.test, -1, cfg.step);
  }

  lemma SpanIsNatural(bars: seq<Candle>)
    requires bars != []
    ensures |ByTime(bars)| == |bars| && Span(ByTime(bars)) >= 0
  {
    ByTimeOrders(bars);
    hide Sort;
    if |bars| > 1 {
      assert TimeLe(ByTime(bars)[0], ByTime(bars)[|bars| - 1]);
    }
  }

  /** Every bar is tested by at most ceil(test / step) windows, so test slices are disjoint once step >= test. */
  lemma TestsPerBar(bars: seq<Candle>, cfg: WindowConfig, bar: Candle)
    requires bars != []
    ensures |ByTime(bars)| == |bars| && Span(ByTime(bars)) >= 0
    ensures var windows := Windows(ByTime(bars), cfg, Rounds(cfg, Span(ByTime(bars))));
            && TestsOn(windows, bar) <= CeilDiv(cfg.test, cfg.step)
            && (cfg.step >= cfg.test ==> TestsOn(windows, bar) <= 1)
  {
    hide Windows, Rounds, CeilDiv, Sort;
    SpanIsNatural(bars);
    TestsUpTo(ByTime(bars), cfg, Rounds(cfg, Span(ByTime(bars))), bar);
    AtLeastOne(cfg);
  }

  /** With step <= test the rounds leave no gap: every bar between the first and the last test edge falls in one. */
  lemma EveryBarFallsInATest(ordered: seq<Candle>, cfg: WindowConfig, n: nat, bar: Candle) returns (k: nat)
    requires ordered != [] && bar in ordered && cfg.step <= cfg.test && n > 0
    requires ordered[0].time + cfg.train <= bar.time < Cursor(ordered, cfg, n - 1) + cfg.train + cfg.test
    ensures k < n && bar in WindowAt(ordered, cfg, k).test
  {
    var offset := bar.time - ordered[0].time - cfg.train;
    var q := offset / cfg.step;
    QuotientBound(offset, q, cfg.step);
    QuotientBound(offset, q + 1, cfg.step);
    QuotientBound(offset, 0, cfg.step);
    QuotientBound(offset, n - 1, cfg.step);
    NextCursor(cfg, q + 1);
    k := if q < n then q else n - 1;
  }

  // ------------------------------------------------- the windows, written out

  /** How many of the bars come before a time. */
  function Before(bars: seq<Candle>, time: int): (n: nat)
    ensures n <= |bars|
  {
    if bars == [] || bars[|bars| - 1].time < time then |bars| else Before(bars[..|bars| - 1], time)
  }

  lemma {:induction false} BeforeCuts(ordered: seq<Candle>, time: int)
    requires Ordered(ordered, TimeLe)
    ensures forall m :: 0 <= m < |ordered| ==> (m < Before(ordered, time) <==> ordered[m].time < time)
  {
    if ordered != [] {
      var last := ordered[|ordered| - 1];
      if last.time < time {
        assert forall m :: 0 <= m < |ordered| - 1 ==> TimeLe(ordered[m], last);
      } else {
        BeforeCuts(ordered[..|ordered| - 1], time);
        assert forall m :: 0 <= m < |ordered| - 1 ==> ordered[..|ordered| - 1][m] == ordered[m];
      }
    }
  }

  /** A slice of the bars: a run of consecutive ones, exactly those with lo <= time < hi. */
  ghost predicate SliceOf(ordered: seq<Candle>, slice: seq<Candle>, lo: int, hi: int) {
    exists i, j :: 0 <= i <= j <= |ordered| && slice == ordered[i..j] && Spans(ordered, i, j, lo, hi)
  }

  predicate Spans(ordered: seq<Candle>, i: int, j: int, lo: int, hi: int) {
    forall m :: 0 <= m < |ordered| ==> (i <= m < j <==> lo <= ordered[m].time < hi)
  }

  lemma {:induction false} BetweenUpTo(ordered: seq<Candle>, lo: int, hi: int, i: nat, j: nat, n: nat)
    requires i <= j <= |ordered| && n <= |ordered| && Spans(ordered, i, j, lo, hi)
    ensures Between(ordered[..n], lo, hi) == ordered[if i < n then i else n..if j < n then j else n]
  {
    hide Between, Spans;
    if n == 0 {
      NothingBetween(lo, hi);
      assert ordered[..0] == [];
    } else {
      BetweenUpTo(ordered, lo, hi, i, j, n - 1);
      BetweenOneMore(ordered, lo, hi, n);
      SpansAt(ordered, lo, hi, i, j, n - 1);
      assert i < n <= j ==> ordered[i..n] == ordered[i..n - 1] + [ordered[n - 1]];
    }
  }

  lemma NothingBetween(lo: int, hi: int)
    ensures Between([], lo, hi) == []
  {
  }

  lemma SpansAt(ordered: seq<Candle>, lo: int, hi: int, i: int, j: int, m: nat)
    requires Spans(ordered, i, j, lo, hi) && m < |ordered|
    ensures i <= m < j <==> lo <= ordered[m].time < hi
  {
  }

  lemma BetweenOneMore(bars: seq<Candle>, lo: int, hi: int, n: nat)
    requires 0 < n <= |bars|
    ensures Between(bars[..n], lo, hi)
         == Between(bars[..n - 1], lo, hi) + (if lo <= bars[n - 1].time < hi then [bars[n - 1]] else [])
  {
    assert bars[..n][..n - 1] == bars[..n - 1];
  }

  /** On bars in time order, the bars between two times are a slice. */
  lemma BetweenIsSlice(ordered: seq<Candle>, lo: int, hi: int)
    requires Ordered(ordered, TimeLe) && lo <= hi
    ensures SliceOf(ordered, Between(ordered, lo, hi), lo, hi)
  {
    hide Between;
    BeforeCuts(ordered, lo);
    BeforeCuts(ordered, hi);
    var i, j := Before(ordered, lo), Before(ordered, hi);
    assert j < |ordered| ==> ordered[j].time >= hi;
    assert Spans(ordered, i, j, lo, hi);
    BetweenUpTo(ordered, lo, hi, i, j, |ordered|);
    assert ordered[..|ordered|] == ordered;
  }

  /** Round k starts k steps after the first bar. */
  function StartOf(ordered: seq<Candle>, cfg: WindowConfig, k: nat): int
    requires ordered != []
  {
    ordered[0].time + k * cfg.step
  }

  /** Round k is run: its test ends at most one step past the last bar, and it starts before that bar. */
  predicate Runs(ordered: seq<Candle>, cfg: WindowConfig, k: nat)
    requires ordered != []
  {
    var start, last := StartOf(ordered, cfg, k), ordered[|ordered| - 1].time;
    start + cfg.train + cfg.test <= last + cfg.step && (k == 0 || start < last)
  }

  /** A window is that of round k: it trains on the bars of its train length, then tests on those of its test length. */
  ghost predicate WindowOf(ordered: seq<Candle>, cfg: WindowConfig, k: nat, w: Window)
    requires ordered != []
  {
    var start := StartOf(ordered, cfg, k);
    && w.train != [] && SliceOf(ordered, w.train, start, start + cfg.train)
    && w.test != [] && SliceOf(ordered, w.test, start + cfg.train, start + cfg.train + cfg.test)
  }

  /** Rounds in increasing order, one for each window. */
  ghost predicate Numbers(ordered: seq<Candle>, cfg: WindowConfig, n: nat, windows: seq<Window>, ks: seq<nat>)
    requires ordered != []
  {
    && |ks| == |windows| && (forall x :: 0 <= x < |ks| ==> ks[x] < n && WindowOf(ordered, cfg, ks[x], windows[x]))
    && (forall x, y :: 0 <= x < y < |ks| ==> ks[x] < ks[y])
    && (forall k :: 0 <= k < n && Inhabited(ordered, cfg, k) ==> k in ks)
  }

  /** Some bar can be trained on in round k, and some bar tested on. */
  ghost predicate Inhabited(ordered: seq<Candle>, cfg: WindowConfig, k: nat)
    requires ordered != []
  {
    var cut := StartOf(ordered, cfg, k) + cfg.train;
    && (exists bar :: bar in ordered && StartOf(ordered, cfg, k) <= bar.time < cut)
    && (exists bar :: bar in ordered && cut <= bar.time < cut + cfg.test)
  }

  lemma RoundIsWindow(ordered: seq<Candle>, cfg: WindowConfig, k: nat)
    requires ordered != [] && Ordered(ordered, TimeLe)
    ensures Usable(WindowAt(ordered, cfg, k)) ==> WindowOf(ordered, cfg, k, WindowAt(ordered, cfg, k))
    ensures Inhabited(ordered, cfg, k) ==> Usable(WindowAt(ordered, cfg, k))
  {
    hide SliceOf;
    var start := StartOf(ordered, cfg, k);
    BetweenIsSlice(ordered, start, start + cfg.train);
    BetweenIsSlice(ordered, start + cfg.train, start + cfg.train + cfg.test);
  }

  lemma {:induction false} WindowsNumbered(ordered: seq<Candle>, cfg: WindowConfig, n: nat) returns (ks: seq<nat>)
    requires ordered != [] && Ordered(ordered, TimeLe)
    ensures Numbers(ordered, cfg, n, Windows(ordered, cfg, n), ks)
  {
    hide WindowAt, WindowOf, Inhabited, Usable;
    ks := [];
    if n > 0 {
      var earlier := WindowsNumbered(ordered, cfg, n - 1);
      RoundIsWindow(ordered, cfg, n - 1);
      ks := if Usable(WindowAt(ordered, cfg, n - 1)) then earlier + [n - 1] else earlier;
    }
  }

  lemma RunsExactlyBelowRounds(ordered: seq<Candle>, cfg: WindowConfig, k: nat)
    requires ordered != [] && Span(ordered) >= 0
    ensures Runs(ordered, cfg, k) <==> k < Rounds(cfg, Span(ordered))
  {
    hide Rounds;
    FitsExactlyBelowRounds(cfg, Span(ordered), k);
  }

  /**
   What the windows are: one for each round that is run and has bars to train on and to test on, in the
   order of the rounds. Each is two neighbouring slices of the bars in time order.
   */
  lemma WindowsAreRounds(bars: seq<Candle>, cfg: WindowConfig) returns (ks: seq<nat>)
    requires bars != []
    ensures |ByTime(bars)| == |bars| && Span(ByTime(bars)) >= 0
    ensures var ordered := ByTime(bars);
            var windows := Windows(ordered, cfg, Rounds(cfg, Span(ordered)));
            && |ks| == |windows|
            && (forall x :: 0 <= x < |ks| ==> Runs(ordered, cfg, ks[x]) && WindowOf(ordered, cfg, ks[x], windows[x]))
            && (forall x, y :: 0 <= x < y < |ks| ==> ks[x] < ks[y])
            && (forall k: nat :: Runs(ordered, cfg, k) && Inhabited(ordered, cfg, k) ==> k in ks)
  {
    hide Windows, Rounds, Sort, Runs, WindowOf, Inhabited;
    SpanIsNatural(bars);
    ByTimeOrders(bars);
    var ordered := ByTime(bars);
    ks := WindowsNumbered(ordered, cfg, Rounds(cfg, Span(ordered)));
    forall k: nat ensures Runs(ordered, cfg, k) <==> k < Rounds(cfg, Span(ordered)) {
      RunsExactlyBelowRounds(ordered, cfg, k);
    }
  }
}
