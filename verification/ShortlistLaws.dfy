/** What the greedy shortlist guarantees, for every list of profiles and every correlation matrix. */
module ShortlistLaws {
  import opened Models
  import opened Sorting
  import opened Shortlist

  lemma CostLeIsTotal()
    ensures TotalPreorder(CostLe)
  {
  }

  // --------------------------------------------------------------- partition

  function PairsOf(profiles: seq<Profile>): multiset<string> {
    if profiles == [] then multiset{} else PairsOf(profiles[..|profiles| - 1]) + multiset{profiles[|profiles| - 1].pair}
  }

  function SelectedPairs(entries: seq<Entry>): multiset<string> {
    if entries == [] then multiset{}
        else SelectedPairs(entries[..|entries| - 1]) + multiset{entries[|entries| - 1].pair}
  }

  function ExcludedPairs(excluded: seq<Exclusion>): multiset<string> {
    if excluded == [] then multiset{}
        else ExcludedPairs(excluded[..|excluded| - 1]) + multiset{excluded[|excluded| - 1].pair}
  }

  function AllPairs(s: Selection): multiset<string> {
    SelectedPairs(s.selected) + ExcludedPairs(s.excluded)
  }

  lemma ConsiderAddsOne(m: Matrix, cfg: ScreenConfig, s: Selection, p: Profile)
    ensures AllPairs(Consider(m, cfg, s, p)) == AllPairs(s) + multiset{p.pair}
  {
    hide MostCorrelated;
    var after := Consider(m, cfg, s, p);
    if |after.selected| > |s.selected| {
      assert after.selected[..|after.selected| - 1] == s.selected;
    } else {
      assert after.excluded[..|after.excluded| - 1] == s.excluded;
    }
  }

  lemma {:induction false} GreedyAddsAll(m: Matrix, cfg: ScreenConfig, start: Selection, candidates: seq<Profile>)
    ensures AllPairs(Greedy(m, cfg, start, candidates)) == AllPairs(start) + PairsOf(candidates)
  {
    hide Consider, AllPairs;
    if candidates != [] {
      GreedyAddsAll(m, cfg, start, candidates[..|candidates| - 1]);
      ConsiderAddsOne(m, cfg, Greedy(m, cfg, start, candidates[..|candidates| - 1]), candidates[|candidates| - 1]);
    }
  }

  lemma PairsOfAppend(s: seq<Profile>, p: Profile)
    ensures PairsOf(s + [p]) == PairsOf(s) + multiset{p.pair}
  {
    assert (s + [p])[..|s|] == s;
  }

  lemma ExcludedPairsOfAppend(s: seq<Exclusion>, e: Exclusion)
    ensures ExcludedPairs(s + [e]) == ExcludedPairs(s) + multiset{e.pair}
  {
    assert (s + [e])[..|s|] == s;
  }

  lemma EligibilityStep(profiles: seq<Profile>, cfg: ScreenConfig)
    requires profiles != []
    ensures PairsOf(Eligible(profiles, cfg)) + ExcludedPairs(Ineligible(profiles, cfg))
         == PairsOf(Eligible(profiles[..|profiles| - 1], cfg))
             + ExcludedPairs(Ineligible(profiles[..|profiles| - 1], cfg))
            + multiset{profiles[|profiles| - 1].pair}
  {
    hide IneligibilityReason, PairsOf, ExcludedPairs;
    var earlier, last := profiles[..|profiles| - 1], profiles[|profiles| - 1];
    var reason := IneligibilityReason(last, cfg);
    if reason.None? {
      PairsOfAppend(Eligible(earlier, cfg), last);
      assert Ineligible(profiles, cfg) == Ineligible(earlier, cfg);
    } else {
      ExcludedPairsOfAppend(Ineligible(earlier, cfg), Exclusion(last.pair, reason.value));
      assert Eligible(profiles, cfg) == Eligible(earlier, cfg);
    }
  }

  lemma NothingIsSplit(cfg: ScreenConfig)
    ensures PairsOf(Eligible([], cfg)) + ExcludedPairs(Ineligible([], cfg)) == multiset{}
  {
  }

  lemma {:induction false} EligibilitySplits(profiles: seq<Profile>, cfg: ScreenConfig)
    ensures PairsOf(Eligible(profiles, cfg)) + ExcludedPairs(Ineligible(profiles, cfg)) == PairsOf(profiles)
  {
    hide Eligible, Ineligible;
    if profiles == [] {
      NothingIsSplit(cfg);
    } else {
      EligibilitySplits(profiles[..|profiles| - 1], cfg);
      EligibilityStep(profiles, cfg);
    }
  }

  lemma {:induction false} PairsOfConcat(a: seq<Profile>, b: seq<Profile>)
    ensures PairsOf(a + b) == PairsOf(a) + PairsOf(b)
  {
    if b == [] {
      assert a + b == a;
    } else {
      assert (a + b)[..|a + b| - 1] == a + b[..|b| - 1];
      PairsOfConcat(a, b[..|b| - 1]);
    }
  }

  lemma {:induction false} InsertKeepsPairs(x: Profile, s: seq<Profile>)
    ensures PairsOf(Insert(x, s, CostLe)) == PairsOf(s) + multiset{x.pair}
  {
    PairsOfOne(x);
    if s != [] {
      PairsOfOne(s[0]);
      assert s == [s[0]] + s[1..];
      PairsOfConcat([s[0]], s[1..]);
      if CostLe(x, s[0]) {
        PairsOfConcat([x], s);
      } else {
        InsertKeepsPairs(x, s[1..]);
        PairsOfConcat([s[0]], Insert(x, s[1..], CostLe));
      }
    }
  }

  lemma PairsOfOne(x: Profile)
    ensures PairsOf([x]) == multiset{x.pair}
  {
    assert [x][..0] == [];
  }

  lemma {:induction false} SortKeepsPairs(s: seq<Profile>)
    ensures PairsOf(Sort(s, CostLe)) == PairsOf(s)
  {
    if s != [] {
      SortKeepsPairs(s[1..]);
      InsertKeepsPairs(s[0], Sort(s[1..], CostLe));
      assert s == [s[0]] + s[1..];
      PairsOfConcat([s[0]], s[1..]);
      PairsOfOne(s[0]);
    }
  }

  /** Every profile is either shortlisted or excluded, once. */
  lemma ShortlistPartitionsProfiles(m: Matrix, cfg: ScreenConfig, profiles: seq<Profile>)
    ensures SelectedPairs(Select(m, cfg, profiles).selected) + ExcludedPairs(Select(m, cfg, profiles).excluded)
         == PairsOf(profiles)
  {
    GreedyAddsAll(m, cfg, Selection([], Ineligible(profiles, cfg)), Candidates(profiles, cfg));
    SortKeepsPairs(Eligible(profiles, cfg));
    EligibilitySplits(profiles, cfg);
    hide Sort, Eligible, Ineligible, Greedy;
  }

  // ----------------------------------------------------- the greedy invariant

  predicate Conflicts(m: Matrix, cfg: ScreenConfig, p: Profile, e: Entry) {
    Abs(Correlation(m, p.pair, e.pair)) > cfg.maxCorrelation
  }

  lemma {:induction false} MostCorrelatedIsMaximum(m: Matrix, pair: string, entries: seq<Entry>, n: nat)
    requires n <= |entries|
    ensures var (best, other) := MostCorrelated(m, pair, entries, n);
            && best >= 0.0
            && (forall k :: 0 <= k < n ==> Abs(Correlation(m, pair, entries[k].pair)) <= best)
            && (best > 0.0 ==>
                  exists k ::
                    && 0 <= k < n && entries[k].pair == other
                    && Abs(Correlation(m, pair, entries[k].pair)) == best
                    && forall j :: 0 <= j < k ==> Abs(Correlation(m, pair, entries[j].pair)) < best)
  {
    hide Correlation;
    if n > 0 {
      MostCorrelatedIsMaximum(m, pair, entries, n - 1);
    }
  }

  /**
   An entry may follow some others: it has the next rank, costs no less than any of them, unmeasured
   ones being dearest, and records its highest correlation with them, which is within the limit.
   */
  ghost predicate Follows(m: Matrix, cfg: ScreenConfig, earlier: seq<Entry>, e: Entry) {
    && e.rank == |earlier| + 1 && 0.0 <= e.maxCorrelation <= cfg.maxCorrelation
    && (forall j :: 0 <= j < |earlier| ==>
          && Abs(Correlation(m, e.pair, earlier[j].pair)) <= e.maxCorrelation
          && (e.cost.None? || (earlier[j].cost.Some? && earlier[j].cost.value <= e.cost.value)))
    && (e.maxCorrelation > 0.0 ==>
          exists j :: 0 <= j < |earlier| && Abs(Correlation(m, e.pair, earlier[j].pair)) == e.maxCorrelation)
  }

  /** Every entry follows those before it. */
  ghost predicate Decorrelated(m: Matrix, cfg: ScreenConfig, selected: seq<Entry>) {
    |selected| <= cfg.shortlistSize && forall k :: 0 <= k < |selected| ==> Follows(m, cfg, selected[..k], selected[k])
  }

  ghost predicate Picked(p: Profile, selected: seq<Entry>) {
    exists k :: 0 <= k < |selected| && selected[k].pair == p.pair && selected[k].cost == p.spreadToAtr
  }

  /** The profile conflicts with a shortlisted pair that is no dearer. */
  ghost predicate Beaten(m: Matrix, cfg: ScreenConfig, p: Profile, selected: seq<Entry>) {
    exists k ::
      && 0 <= k < |selected| && Conflicts(m, cfg, p, selected[k])
      && (p.spreadToAtr.None? || (selected[k].cost.Some? && selected[k].cost.value <= p.spreadToAtr.value))
  }

  /** Every shortlisted pair is measured and costs no more than the profile, unless the profile is unmeasured. */
  ghost predicate AllNoDearer(selected: seq<Entry>, p: Profile) {
    forall k :: 0 <= k < |selected| ==>
      p.spreadToAtr.None? || (selected[k].cost.Some? && selected[k].cost.value <= p.spreadToAtr.value)
  }

  /** What can become of an eligible profile: it is taken, beaten, or too late for a list of cheaper ones. */
  ghost predicate Judged(m: Matrix, cfg: ScreenConfig, p: Profile, selected: seq<Entry>) {
    || Picked(p, selected)
    || Beaten(m, cfg, p, selected)
    || (|selected| == cfg.shortlistSize && AllNoDearer(selected, p))
  }

  lemma AppendKeepsDecorrelated(m: Matrix, cfg: ScreenConfig, selected: seq<Entry>, e: Entry)
    requires Decorrelated(m, cfg, selected) && |selected| < cfg.shortlistSize && Follows(m, cfg, selected, e)
    ensures Decorrelated(m, cfg, selected + [e])
  {
    hide Follows;
    var after := selected + [e];
    forall k | 0 <= k < |after| ensures Follows(m, cfg, after[..k], after[k]) {
      assert after[..k] == selected[..k];
      if k == |selected| {
        assert selected[..k] == selected;
      }
    }
  }

  lemma ConsiderKeepsDecorrelated(m: Matrix, cfg: ScreenConfig, s: Selection, p: Profile)
    requires Decorrelated(m, cfg, s.selected) && AllNoDearer(s.selected, p)
    ensures Decorrelated(m, cfg, Consider(m, cfg, s, p).selected)
  {
    hide Decorrelated, Correlation, MostCorrelated;
    MostCorrelatedIsMaximum(m, p.pair, s.selected, |s.selected|);
    var after := Consider(m, cfg, s, p).selected;
    if |after| > |s.selected| {
      AppendKeepsDecorrelated(m, cfg, s.selected, after[|s.selected|]);
    }
  }

  lemma ConsiderJudges(m: Matrix, cfg: ScreenConfig, s: Selection, p: Profile)
    requires AllNoDearer(s.selected, p) && |s.selected| <= cfg.shortlistSize
    ensures s.selected <= Consider(m, cfg, s, p).selected
    ensures Judged(m, cfg, p, Consider(m, cfg, s, p).selected)
    ensures forall q :: CostLe(p, q) ==> AllNoDearer(Consider(m, cfg, s, p).selected, q)
  {
    hide Correlation, MostCorrelated;
    MostCorrelatedIsMaximum(m, p.pair, s.selected, |s.selected|);
    var after := Consider(m, cfg, s, p).selected;
    if |after| > |s.selected| {
      assert after[|s.selected|].pair == p.pair && after[|s.selected|].cost == p.spreadToAtr;
    }
  }

  lemma {:induction false} GreedyInvariant(m: Matrix, cfg: ScreenConfig, start: Selection, candidates: seq<Profile>)
    requires start.selected == [] && Ordered(candidates, CostLe)
    ensures var selected := Greedy(m, cfg, start, candidates).selected;
            && Decorrelated(m, cfg, selected)
            && (forall i :: 0 <= i < |candidates| ==> Judged(m, cfg, candidates[i], selected))
            && (forall q :: (candidates == [] || CostLe(candidates[|candidates| - 1], q)) ==> AllNoDearer(selected, q))
  {
    if candidates != [] {
      var earlier, last := candidates[..|candidates| - 1], candidates[|candidates| - 1];
      GreedyInvariant(m, cfg, start, earlier);
      var before := Greedy(m, cfg, start, earlier);
      assert earlier == [] || CostLe(earlier[|earlier| - 1], last);
      hide Consider, Follows, CostLe, Judged;
      ConsiderKeepsDecorrelated(m, cfg, before, last);
      ConsiderJudges(m, cfg, before, last);
      var after := Consider(m, cfg, before, last).selected;
      forall i | 0 <= i < |candidates|
        ensures Judged(m, cfg, candidates[i], after)
      {
        if i < |earlier| {
          assert candidates[i] == earlier[i];
          GrowingKeepsVerdict(m, cfg, earlier[i], before.selected, after);
        }
      }
    }
  }

  lemma GrowingKeepsVerdict(m: Matrix, cfg: ScreenConfig, p: Profile, selected: seq<Entry>, larger: seq<Entry>)
    requires selected <= larger && |larger| <= cfg.shortlistSize && Judged(m, cfg, p, selected)
    ensures Judged(m, cfg, p, larger)
  {
    hide Conflicts;
    if Picked(p, selected) {
      var k :| 0 <= k < |selected| && selected[k].pair == p.pair && selected[k].cost == p.spreadToAtr;
      assert larger[k] == selected[k];
    } else if Beaten(m, cfg, p, selected) {
      var k :|
        && 0 <= k < |selected| && Conflicts(m, cfg, p, selected[k])
        && (p.spreadToAtr.None? || (selected[k].cost.Some? && selected[k].cost.value <= p.spreadToAtr.value));
      assert larger[k] == selected[k];
    } else {
      assert larger == selected;
    }
  }

  // -------------------------------------------------------------- eligibility

  /** Enough candles, enough coverage, and not known to be too costly. */
  predicate Suitable(p: Profile, cfg: ScreenConfig) {
    && p.candleCount >= cfg.minCandles && p.coverage >= cfg.minCoverage
    && (cfg.maxSpreadToAtr.None? || p.spreadToAtr.None? || p.spreadToAtr.value <= cfg.maxSpreadToAtr.value)
  }

  /** The reason given to an unsuitable profile is the first it meets. */
  predicate Unsuitable(p: Profile, cfg: ScreenConfig, reason: Reason) {
    match reason
    case InsufficientData => p.candleCount < cfg.minCandles
    case LowCoverage => p.candleCount >= cfg.minCandles && p.coverage < cfg.minCoverage
    case TooCostly =>
      && p.candleCount >= cfg.minCandles && p.coverage >= cfg.minCoverage
      && cfg.maxSpreadToAtr.Some? && p.spreadToAtr.Some? && p.spreadToAtr.value > cfg.maxSpreadToAtr.value
    case _ => false
  }

  lemma ReasonsAreTrue(p: Profile, cfg: ScreenConfig)
    ensures IneligibilityReason(p, cfg).None? <==> Suitable(p, cfg)
    ensures IneligibilityReason(p, cfg).Some? ==> Unsuitable(p, cfg, IneligibilityReason(p, cfg).value)
  {
  }

  // ------------------------------------------------------------ the theorems

  /** Shortlisted pairs are ranked, in non-decreasing cost order and pairwise within the correlation limit. */
  lemma ShortlistIsDecorrelated(m: Matrix, cfg: ScreenConfig, profiles: seq<Profile>)
    ensures Decorrelated(m, cfg, Select(m, cfg, profiles).selected)
  {
    CostLeIsTotal();
    SortOrders(Eligible(profiles, cfg), CostLe);
    hide Greedy, Sort, Eligible, Decorrelated;
    GreedyInvariant(m, cfg, Selection([], Ineligible(profiles, cfg)), Candidates(profiles, cfg));
  }

  /**
   A suitable profile is left out only because a shortlisted pair that is no dearer conflicts with
   it, or because the shortlist is full of pairs no dearer than it.
   */
  lemma ShortlistIsMaximal(m: Matrix, cfg: ScreenConfig, profiles: seq<Profile>, p: Profile)
    requires p in profiles && Suitable(p, cfg)
    ensures Judged(m, cfg, p, Select(m, cfg, profiles).selected)
  {
    CostLeIsTotal();
    ReasonsAreTrue(p, cfg);
    EligibleMembers(profiles, cfg, p);
    SortOrders(Eligible(profiles, cfg), CostLe);
    var candidates := Candidates(profiles, cfg);
    assert p in multiset(candidates);
    var i :| 0 <= i < |candidates| && candidates[i] == p;
    hide Greedy, Sort, Eligible, Decorrelated, Judged;
    GreedyInvariant(m, cfg, Selection([], Ineligible(profiles, cfg)), candidates);
  }

  lemma {:induction false} EligibleMembers(profiles: seq<Profile>, cfg: ScreenConfig, p: Profile)
    requires p in profiles && IneligibilityReason(p, cfg).None?
    ensures p in Eligible(profiles, cfg)
  {
    var earlier, last := profiles[..|profiles| - 1], profiles[|profiles| - 1];
    assert profiles == earlier + [last];
    if p != last {
      EligibleMembers(earlier, cfg, p);
    }
  }

  /** The entry is of a suitable profile, at its cost. */
  ghost predicate Sourced(cfg: ScreenConfig, profiles: seq<Profile>, e: Entry) {
    exists p :: p in profiles && Suitable(p, cfg) && e.pair == p.pair && e.cost == p.spreadToAtr
  }

  lemma {:induction false} EligibleAreSuitable(profiles: seq<Profile>, cfg: ScreenConfig, p: Profile)
    requires p in Eligible(profiles, cfg)
    ensures p in profiles && Suitable(p, cfg)
  {
    var earlier, last := profiles[..|profiles| - 1], profiles[|profiles| - 1];
    assert profiles == earlier + [last];
    if p in Eligible(earlier, cfg) {
      EligibleAreSuitable(earlier, cfg, p);
    } else {
      ReasonsAreTrue(last, cfg);
    }
  }

  lemma {:induction false} GreedyKeepsSourced(m: Matrix, cfg: ScreenConfig, profiles: seq<Profile>, start: Selection,
                                              candidates: seq<Profile>)
    requires start.selected == [] && forall p :: p in candidates ==> p in profiles && Suitable(p, cfg)
    ensures forall e :: e in Greedy(m, cfg, start, candidates).selected ==> Sourced(cfg, profiles, e)
  {
    hide MostCorrelated, Suitable;
    if candidates != [] {
      var last := candidates[|candidates| - 1];
      assert last in candidates;
      GreedyKeepsSourced(m, cfg, profiles, start, candidates[..|candidates| - 1]);
    }
  }

  /** Only suitable profiles are shortlisted, each at its own cost. */
  lemma ShortlistedAreSuitable(m: Matrix, cfg: ScreenConfig, profiles: seq<Profile>)
    ensures forall e :: e in Select(m, cfg, profiles).selected ==> Sourced(cfg, profiles, e)
  {
    hide Greedy, Sort, Eligible, Ineligible, Suitable, Sourced;
    var eligible, candidates := Eligible(profiles, cfg), Candidates(profiles, cfg);
    CostLeIsTotal();
    SortOrders(eligible, CostLe);
    forall p | p in candidates ensures p in profiles && Suitable(p, cfg) {
      assert p in multiset(candidates);
      EligibleAreSuitable(profiles, cfg, p);
    }
    GreedyKeepsSourced(m, cfg, profiles, Selection([], Ineligible(profiles, cfg)), candidates);
  }

  /** Why a pair was excluded, as a fact about the profiles and the final shortlist. */
  ghost predicate Explained(m: Matrix, cfg: ScreenConfig, profiles: seq<Profile>, selected: seq<Entry>, e: Exclusion) {
    match e.reason
    case ShortlistFull => |selected| == cfg.shortlistSize
    case TooCorrelated(other, c) => c > cfg.maxCorrelation && ConflictsWith(m, selected, e.pair, other, c)
    case _ => exists p :: p in profiles && p.pair == e.pair && Unsuitable(p, cfg, e.reason)
  }

  ghost predicate ConflictsWith(m: Matrix, selected: seq<Entry>, pair: string, other: string, c: real) {
    Abs(Correlation(m, pair, other)) == c && exists k :: 0 <= k < |selected| && selected[k].pair == other
  }

  ghost predicate AllExplained(m: Matrix, cfg: ScreenConfig, profiles: seq<Profile>, s: Selection) {
    |s.selected| <= cfg.shortlistSize && forall i :: 0 <= i < |s.excluded| ==>
        Explained(m, cfg, profiles, s.selected, s.excluded[i])
  }

  lemma GrowingKeepsExplained(m: Matrix, cfg: ScreenConfig, profiles: seq<Profile>, selected: seq<Entry>,
                              larger: seq<Entry>, e: Exclusion)
    requires selected <= larger && |larger| <= cfg.shortlistSize
    requires Explained(m, cfg, profiles, selected, e)
    ensures Explained(m, cfg, profiles, larger, e)
  {
    hide Correlation, IneligibilityReason;
    if e.reason.TooCorrelated? {
      var k :| 0 <= k < |selected| && selected[k].pair == e.reason.other;
      assert larger[k] == selected[k];
    }
  }

  lemma ConsiderKeepsExplained(m: Matrix, cfg: ScreenConfig, profiles: seq<Profile>, s: Selection, p: Profile)
    requires AllExplained(m, cfg, profiles, s)
    ensures AllExplained(m, cfg, profiles, Consider(m, cfg, s, p))
  {
    MostCorrelatedIsMaximum(m, p.pair, s.selected, |s.selected|);
    hide Correlation, MostCorrelated, IneligibilityReason;
    var after := Consider(m, cfg, s, p);
    forall i | 0 <= i < |after.excluded| ensures Explained(m, cfg, profiles, after.selected, after.excluded[i]) {
      if i < |s.excluded| {
        GrowingKeepsExplained(m, cfg, profiles, s.selected, after.selected, s.excluded[i]);
      }
    }
  }

  lemma {:induction false} GreedyKeepsExplained(m: Matrix, cfg: ScreenConfig, profiles: seq<Profile>, start: Selection,
                                                candidates: seq<Profile>)
    requires AllExplained(m, cfg, profiles, start)
    ensures AllExplained(m, cfg, profiles, Greedy(m, cfg, start, candidates))
  {
    hide AllExplained, Consider;
    if candidates != [] {
      var earlier := candidates[..|candidates| - 1];
      GreedyKeepsExplained(m, cfg, profiles, start, earlier);
      ConsiderKeepsExplained(m, cfg, profiles, Greedy(m, cfg, start, earlier), candidates[|candidates| - 1]);
    }
  }

  lemma {:induction false} IneligibleExplained(profiles: seq<Profile>, cfg: ScreenConfig, e: Exclusion)
    requires e in Ineligible(profiles, cfg)
    ensures !e.reason.ShortlistFull? && !e.reason.TooCorrelated?
    ensures exists p :: p in profiles && p.pair == e.pair && Unsuitable(p, cfg, e.reason)
  {
    var earlier, last := profiles[..|profiles| - 1], profiles[|profiles| - 1];
    assert profiles == earlier + [last];
    if e in Ineligible(earlier, cfg) {
      IneligibleExplained(earlier, cfg, e);
      var p :| p in earlier && p.pair == e.pair && Unsuitable(p, cfg, e.reason);
      assert p in profiles;
    } else {
      ReasonsAreTrue(last, cfg);
      assert last in profiles && IneligibilityReason(last, cfg) == Some(e.reason);
    }
  }

  /**
   Every recorded exclusion is true: an ineligible profile for its own reason, a pair said to be too
   correlated really is, with a shortlisted pair, and a full shortlist really is full.
   */
  lemma ExclusionsAreTrue(m: Matrix, cfg: ScreenConfig, profiles: seq<Profile>)
    ensures AllExplained(m, cfg, profiles, Select(m, cfg, profiles))
  {
    hide Greedy, Sort, Eligible, Ineligible, IneligibilityReason;
    var start := Selection([], Ineligible(profiles, cfg));
    forall i | 0 <= i < |start.excluded| ensures Explained(m, cfg, profiles, [], start.excluded[i]) {
      IneligibleExplained(profiles, cfg, start.excluded[i]);
    }
    GreedyKeepsExplained(m, cfg, profiles, start, Candidates(profiles, cfg));
  }

  /** Asking for one more slot only ever appends to the shortlist. */
  lemma ShortlistGrowsByAppending(m: Matrix, cfg: ScreenConfig, profiles: seq<Profile>)
    ensures Select(m, cfg, profiles).selected
         <= Select(m, cfg.(shortlistSize := cfg.shortlistSize + 1), profiles).selected
  {
    var larger := cfg.(shortlistSize := cfg.shortlistSize + 1);
    SizeDoesNotAffectEligibility(profiles, cfg, larger);
    hide Greedy, Sort, Eligible;
    GreedyPrefix(m, cfg, Selection([], Ineligible(profiles, cfg)), Candidates(profiles, cfg));
  }

  lemma {:induction false} SizeDoesNotAffectEligibility(profiles: seq<Profile>, cfg: ScreenConfig, other: ScreenConfig)
    requires other == cfg.(shortlistSize := other.shortlistSize)
    ensures Eligible(profiles, other) == Eligible(profiles, cfg)
         && Ineligible(profiles, other) == Ineligible(profiles, cfg)
  {
    if profiles != [] {
      SizeDoesNotAffectEligibility(profiles[..|profiles| - 1], cfg, other);
    }
  }

  /** The two selections are equal until the smaller one is full. */
  lemma {:induction false} GreedyPrefix(m: Matrix, cfg: ScreenConfig, start: Selection, candidates: seq<Profile>)
    requires start.selected == []
    ensures var larger := cfg.(shortlistSize := cfg.shortlistSize + 1);
            var a, b := Greedy(m, cfg, start, candidates).selected, Greedy(m, larger, start, candidates).selected;
            a <= b && |a| <= cfg.shortlistSize && (|a| < cfg.shortlistSize ==> a == b)
  {
    hide MostCorrelated;
    if candidates != [] {
      GreedyPrefix(m, cfg, start, candidates[..|candidates| - 1]);
    }
  }
}
