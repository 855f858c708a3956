/** Greedy selection of the cheapest pairs that are not too correlated with one another. */
module Shortlist {
  import opened Models
  import opened Sorting

  datatype Profile = Profile(pair: string, candleCount: nat, coverage: real, spreadToAtr: Option<real>)

  datatype ScreenConfig = ScreenConfig(shortlistSize: PositiveCount, minCandles: nat, minCoverage: real,
                                       maxCorrelation: PositiveDecimal, maxSpreadToAtr: Option<real>)

  /** A correlation for every two of the pairs, by position. */
  datatype RawMatrix = RawMatrix(pairs: seq<string>, matrix: seq<seq<real>>)

  predicate Square(m: RawMatrix) {
    |m.matrix| == |m.pairs| && forall i :: 0 <= i < |m.matrix| ==> |m.matrix[i]| == |m.pairs|
  }

  type Matrix = m: RawMatrix | Square(m) witness RawMatrix([], [])

  /** Correlation of two pairs, zero if either is absent. */
  function Correlation(m: Matrix, a: string, b: string): real {
    var i, j := IndexOf(m.pairs, a), IndexOf(m.pairs, b);
    if i < |m.pairs| && j < |m.pairs| then m.matrix[i][j] else 0.0
  }

  /** Fills the matrix row by row from a pairwise correlation, with ones on the diagonal. */
  method BuildMatrix(pairs: seq<string>, correlate: (string, string) -> real) returns (m: Matrix)
    ensures m.pairs == pairs
    ensures forall i, j :: 0 <= i < |pairs| && 0 <= j < |pairs| ==>
              m.matrix[i][j] == if i == j then 1.0 else correlate(pairs[i], pairs[j])
  {
    var rows: seq<seq<real>> := [];
    for i := 0 to |pairs|
      invariant |rows| == i && forall k :: 0 <= k < i ==> |rows[k]| == |pairs|
      invariant forall k, j :: 0 <= k < i && 0 <= j < |pairs| ==>
                  rows[k][j] == if k == j then 1.0 else correlate(pairs[k], pairs[j])
    {
      var row: seq<real> := [];
      for j := 0 to |pairs|
        invariant |row| == j
        invariant forall k :: 0 <= k < j ==> row[k] == if i == k then 1.0 else correlate(pairs[i], pairs[k])
      {
        row := row + [if i == j then 1.0 else correlate(pairs[i], pairs[j])];
      }
      rows := rows + [row];
    }
    m := RawMatrix(pairs, rows);
  }

  /**
   Looking a pair of pairs up finds their pairwise correlation, one for a pair with itself and zero for a pair
   that is unknown; so it is symmetric whenever the pairwise correlation is.
   */
  lemma CorrelationSymmetric(m: Matrix, correlate: (string, string) -> real, a: string, b: string)
    requires forall i, j :: 0 <= i < |m.pairs| && 0 <= j < |m.pairs| ==>
               m.matrix[i][j] == if i == j then 1.0 else correlate(m.pairs[i], m.pairs[j])
    ensures Correlation(m, a, b)
         == if a !in m.pairs || b !in m.pairs then 0.0 else if a == b then 1.0 else correlate(a, b)
    ensures correlate(a, b) == correlate(b, a) ==> Correlation(m, a, b) == Correlation(m, b, a)
  {
    var i, j := IndexOf(m.pairs, a), IndexOf(m.pairs, b);
    if i < |m.pairs| && j < |m.pairs| && i != j {
      assert m.matrix[i][j] == correlate(a, b);
      assert m.matrix[j][i] == correlate(b, a);
    }
  }

  // ------------------------------------------------------------- eligibility

  datatype Reason = InsufficientData | LowCoverage | TooCostly | ShortlistFull | TooCorrelated(other: string,
                                                                                               correlation: real)

  datatype Exclusion = Exclusion(pair: string, reason: Reason)

  /** One selected pair with its 1-based rank, its cost and its highest correlation with those before it. */
  datatype Entry = Entry(pair: string, rank: nat, cost: Option<real>, maxCorrelation: real)

  function IneligibilityReason(p: Profile, cfg: ScreenConfig): Option<Reason> {
    if p.candleCount < cfg.minCandles then Some(InsufficientData)
    else if p.coverage < cfg.minCoverage then Some(LowCoverage)
    else if cfg.maxSpreadToAtr.Some? && p.spreadToAtr.Some? && p.spreadToAtr.value > cfg.maxSpreadToAtr.value
    then Some(TooCostly)
    else None
  }

  /** Measured costs come first, cheapest first; unmeasured ones tie at the end. */
  predicate NoDearer(a: Option<real>, b: Option<real>) {
    b.None? || (a.Some? && a.value <= b.value)
  }

  predicate CostLe(a: Profile, b: Profile) {
    NoDearer(a.spreadToAtr, b.spreadToAtr)
  }

  function Eligible(profiles: seq<Profile>, cfg: ScreenConfig): seq<Profile> {
    if profiles == [] then []
    else Eligible(profiles[..|profiles| - 1], cfg)
         + (if IneligibilityReason(profiles[|profiles| - 1], cfg).None? then [profiles[|profiles| - 1]] else [])
  }

  function Ineligible(profiles: seq<Profile>, cfg: ScreenConfig): seq<Exclusion> {
    if profiles == [] then []
    else
      var last := profiles[|profiles| - 1];
      var reason := IneligibilityReason(last, cfg);
      Ineligible(profiles[..|profiles| - 1], cfg) + (if reason.Some? then [Exclusion(last.pair, reason.value)] else [])
  }

  // --------------------------------------------------------------- selection

  datatype Selection = Selection(selected: seq<Entry>, excluded: seq<Exclusion>)

  /** The highest correlation of a pair with the first n entries, and the first entry that has it. */
  function MostCorrelated(m: Matrix, pair: string, entries: seq<Entry>, n: nat): (real, string)
    requires n <= |entries|
  {
    if n == 0 then (0.0, "")
    else
      var (best, other) := MostCorrelated(m, pair, entries, n - 1);
      var c := Abs(Correlation(m, pair, entries[n - 1].pair));
      if c > best then (c, entries[n - 1].pair) else (best, other)
  }

  /** Considers one more eligible profile. */
  function Consider(m: Matrix, cfg: ScreenConfig, s: Selection, p: Profile): Selection {
    if |s.selected| >= cfg.shortlistSize then s.(excluded := s.excluded + [Exclusion(p.pair, ShortlistFull)])
    else
      var (best, other) := MostCorrelated(m, p.pair, s.selected, |s.selected|);
      if s.selected != [] && best > cfg.maxCorrelation then
        s.(excluded := s.excluded + [Exclusion(p.pair, TooCorrelated(other, best))])
      else s.(selected := s.selected + [Entry(p.pair, |s.selected| + 1, p.spreadToAtr, best)])
  }

  function Greedy(m: Matrix, cfg: ScreenConfig, start: Selection, candidates: seq<Profile>): Selection {
    if candidates == [] then start
    else Consider(m, cfg, Greedy(m, cfg, start, candidates[..|candidates| - 1]), candidates[|candidates| - 1])
  }

  /** The candidates in the order they are considered: eligible ones, cheapest to move first. */
  function Candidates(profiles: seq<Profile>, cfg: ScreenConfig): seq<Profile> {
    Sort(Eligible(profiles, cfg), CostLe)
  }

  function Select(m: Matrix, cfg: ScreenConfig, profiles: seq<Profile>): Selection {
    Greedy(m, cfg, Selection([], Ineligible(profiles, cfg)), Candidates(profiles, cfg))
  }

  method MeasureCorrelation(m: Matrix, pair: string, selected: seq<Entry>) returns (maxCorr: real, mostCorrPair: string)
    ensures (maxCorr, mostCorrPair) == MostCorrelated(m, pair, selected, |selected|)
  {
    hide Correlation;
    maxCorr, mostCorrPair := 0.0, "";
    for j := 0 to |selected|
      invariant (maxCorr, mostCorrPair) == MostCorrelated(m, pair, selected, j)
    {
      var c := Abs(Correlation(m, pair, selected[j].pair));
      if c > maxCorr {
        maxCorr, mostCorrPair := c, selected[j].pair;
      }
    }
  }

  method Screen(profiles: seq<Profile>, cfg: ScreenConfig) returns (eligible: seq<Profile>, excluded: seq<Exclusion>)
    ensures eligible == Eligible(profiles, cfg) && excluded == Ineligible(profiles, cfg)
  {
    hide IneligibilityReason;
    eligible, excluded := [], [];
    for i := 0 to |profiles|
      invariant eligible == Eligible(profiles[..i], cfg) && excluded == Ineligible(profiles[..i], cfg)
    {
      assert profiles[..i + 1][..i] == profiles[..i];
      var reason := IneligibilityReason(profiles[i], cfg);
      if reason.None? {
        eligible := eligible + [profiles[i]];
      } else {
        excluded := excluded + [Exclusion(profiles[i].pair, reason.value)];
      }
    }
    assert profiles[..|profiles|] == profiles;
  }

  method SelectShortlist(profiles: seq<Profile>, m: Matrix, cfg: ScreenConfig)
    returns (selected: seq<Entry>, excluded: seq<Exclusion>)
    ensures Selection(selected, excluded) == Select(m, cfg, profiles)
  {
    hide MostCorrelated, Eligible, Ineligible, Sort, CostLe;
    var eligible: seq<Profile>;
    eligible, excluded := Screen(profiles, cfg);
    eligible := Sort(eligible, CostLe);
    selected := [];
    ghost var start := Selection([], excluded);
    for i := 0 to |eligible|
      invariant Selection(selected, excluded) == Greedy(m, cfg, start, eligible[..i])
    {
      assert eligible[..i + 1][..i] == eligible[..i];
      var profile := eligible[i];
      if |selected| >= cfg.shortlistSize {
        excluded := excluded + [Exclusion(profile.pair, ShortlistFull)];
        continue;
      }
      var maxCorr, mostCorrPair := MeasureCorrelation(m, profile.pair, selected);
      if selected != [] && maxCorr > cfg.maxCorrelation {
        excluded := excluded + [Exclusion(profile.pair, TooCorrelated(mostCorrPair, maxCorr))];
        continue;
      }
      selected := selected + [Entry(profile.pair, |selected| + 1, profile.spreadToAtr, maxCorr)];
    }
    assert eligible[..|eligible|] == eligible;
  }
}
