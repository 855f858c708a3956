/** What every cycle keeps, whatever its workers answer and whatever the registry and the queue held before. */
module CycleLaws {
  import opened Models
  import opened Registry
  import opened Cycle

  // ------------------------------------------------------------------- budget

  function Total(stages: seq<(Stage, real)>): real {
    if stages == [] then 0.0 else Total(stages[..|stages| - 1]) + stages[|stages| - 1].1
  }

  /** The running cost is the sum of the calls, and each call was made with its ceiling to spare. */
  ghost predicate Budgeted(cfg: CycleConfig, m: Meter) {
    && m.running == Total(m.stages)
    && (forall k :: 0 <= k < |m.stages| ==> Total(m.stages[..k]) + cfg.ceiling <= cfg.cap)
    && (forall k :: 0 <= k < |m.stages| ==> m.stages[k].1 >= 0.0)
  }

  lemma MeteredKeepsBudget(cfg: CycleConfig, m: Meter, stage: Stage, cost: NonNegativeDecimal)
    requires Budgeted(cfg, m) && m.running + cfg.ceiling <= cfg.cap
    ensures Budgeted(cfg, Meter(m.running + cost, m.stages + [(stage, cost)]))
  {
    hide Total;
    var stages := m.stages + [(stage, cost)];
    TotalOfOneMore(stages);
    assert stages[..|m.stages|] == m.stages;
    forall k | 0 <= k < |stages| ensures Total(stages[..k]) + cfg.ceiling <= cfg.cap {
      assert stages[..k] == m.stages[..k];
      assert m.stages[..|m.stages|] == m.stages;
    }
  }

  lemma TotalOfOneMore(stages: seq<(Stage, real)>)
    requires stages != []
    ensures Total(stages) == Total(stages[..|stages| - 1]) + stages[|stages| - 1].1
  {
  }

  lemma CalledKeepsBudget<T>(cfg: CycleConfig, m: Meter, stage: Stage, reply: Reply<T>)
    requires Budgeted(cfg, m)
    ensures Budgeted(cfg, Called(cfg, m, stage, reply).1)
    ensures |m.stages| <= |Called(cfg, m, stage, reply).1.stages| <= |m.stages| + 1
  {
    hide Budgeted;
    if reply.Answered? && m.running + cfg.ceiling <= cfg.cap {
      MeteredKeepsBudget(cfg, m, stage, reply.cost);
    }
  }

  /** No call is made unless the ceiling still fits, over the whole cycle. */
  lemma CycleStaysBudgeted(cfg: CycleConfig, w: Workers, store: Store, m: Meter, cycleId: string, now: int)
    requires Budgeted(cfg, m)
    ensures Budgeted(cfg, Pipeline(cfg, w, store, m, cycleId, now).meter)
  {
    hide Budgeted, Called, Recorded, InSampleRuns, TriageAll, StressAll, RouteAll;
    CalledKeepsBudget(cfg, m, MarketContext, w.context);
    var m1 := Called(cfg, m, MarketContext, w.context).1;
    CalledKeepsBudget(cfg, m1, StrategyLab, w.lab);
    var m2 := Called(cfg, m1, StrategyLab, w.lab).1;
    CalledKeepsBudget(cfg, m2, BacktestAgent, w.backtest);
    CalledKeepsBudget(cfg, Called(cfg, m2, BacktestAgent, w.backtest).1, CriticAgent, w.critic);
  }

  /** The cost of a cycle exceeds the cap less the ceiling by at most its last call; honest ceilings respect the cap. */
  lemma CycleCostBounded(cfg: CycleConfig, w: Workers, store: Store, cycleId: string, now: int)
    ensures var m := Pipeline(cfg, w, store, Meter(0.0, []), cycleId, now).meter;
            && (m.stages == [] ==> m.running == 0.0)
            && (m.stages != [] ==> m.running <= cfg.cap - cfg.ceiling + m.stages[|m.stages| - 1].1)
            && (m.stages != [] && m.stages[|m.stages| - 1].1 <= cfg.ceiling ==> m.running <= cfg.cap)
  {
    hide Pipeline;
    CycleStaysBudgeted(cfg, w, store, Meter(0.0, []), cycleId, now);
  }

  // ------------------------------------------------------------- containment

  lemma {:induction false} LatestKeepsIds(cs: seq<Candidate>)
    ensures forall id :: id in Latest(cs) ==> Latest(cs)[id].id == id && Latest(cs)[id] in cs
  {
    if cs != [] {
      LatestKeepsIds(cs[..|cs| - 1]);
    }
  }

  /** A candidate that survives triage was proposed, ran in sample and was not rejected. */
  predicate Survived(desk: Desk, triage: map<string, Triage>, id: string) {
    id in desk.candidates && id in desk.evidence && !(id in triage && triage[id] == RejectCandidate)
  }

  /** How many of the ids ran in sample and were rejected. */
  function Rejections(desk: Desk, triage: map<string, Triage>, ids: seq<string>): nat {
    if ids == [] then 0
    else
      var last := ids[|ids| - 1];
      Rejections(desk, triage, ids[..|ids| - 1])
      + (if last in desk.evidence && last in triage && triage[last] == RejectCandidate then 1 else 0)
  }

  /** Triage keeps exactly those, and counts the others that ran as killed. */
  lemma {:induction false} SurvivorsAreEvidenced(desk: Desk, triage: map<string, Triage>, entries: Entries,
                                                 ids: seq<string>)
    requires forall id :: id in ids ==> id in desk.candidates
    requires forall id :: id in desk.candidates ==> desk.candidates[id].id == id
    ensures var t := TriageAll(desk, triage, entries, ids);
            && (forall s :: s in t.survivors ==>
                s.id in ids && Survived(desk, triage, s.id) && s == desk.candidates[s.id])
            && (forall id :: id in ids && Survived(desk, triage, id) ==> desk.candidates[id] in t.survivors)
            && t.killed == Rejections(desk, triage, ids) && t.killed + |t.survivors| <= |ids|
  {
    if ids != [] {
      SurvivorsAreEvidenced(desk, triage, entries, ids[..|ids| - 1]);
    }
  }

  lemma {:induction false} StressedAreSurvivors(survivors: seq<Candidate>, harness: Candidate -> Option<Option<int>>)
    ensures forall rb :: rb in StressAll(survivors, harness) ==> exists s :: s in survivors && s.id == rb.candidateId
  {
    if survivors != [] {
      var earlier, last := survivors[..|survivors| - 1], survivors[|survivors| - 1];
      StressedAreSurvivors(earlier, harness);
      assert survivors == earlier + [last];
      forall rb | rb in StressAll(survivors, harness) ensures exists s :: s in survivors && s.id == rb.candidateId {
        if rb in StressAll(earlier, harness) {
          var s :| s in earlier && s.id == rb.candidateId;
          assert s in survivors;
        } else {
          assert last in survivors && last.id == rb.candidateId;
        }
      }
    }
  }

  lemma {:induction false} TriageIgnoresEntries(desk: Desk, triage: map<string, Triage>, a: Entries, b: Entries,
                                                ids: seq<string>)
    requires forall id :: id in ids ==> id in desk.candidates
    ensures TriageAll(desk, triage, a, ids).survivors == TriageAll(desk, triage, b, ids).survivors
    ensures TriageAll(desk, triage, a, ids).killed == TriageAll(desk, triage, b, ids).killed
  {
    if ids != [] {
      TriageIgnoresEntries(desk, triage, a, b, ids[..|ids| - 1]);
    }
  }

  // ------------------------------------------------------- reaching the critic

  predicate Answers(w: Workers) {
    && w.lab.Answered? && w.lab.output.Some?
    && w.backtest.Answered? && w.backtest.output.Some?
    && w.critic.Answered? && w.critic.output.Some?
  }

  function DeskOf(w: Workers, cycleId: string, now: int): Desk
    requires Answers(w)
  {
    DeskFor(w, w.lab.output.value, cycleId, now)
  }

  function Sifted(w: Workers, entries: Entries, cycleId: string, now: int): Triaged
    requires Answers(w)
  {
    var cs := w.lab.output.value;
    TriageAll(DeskOf(w, cycleId, now), TriageOf(w.backtest.output.value), Recorded(w, entries, cs, cycleId, now),
              Ids(cs))
  }

  /** The robustness evidence the critic is shown. */
  function Stressed(w: Workers, cycleId: string, now: int): seq<Robustness>
    requires Answers(w)
  {
    StressAll(Sifted(w, map[], cycleId, now).survivors, w.stress)
  }

  ghost function RoutedBy(w: Workers, store: Store, cycleId: string, now: int): Routing
    requires Answers(w)
  {
    var t := Sifted(w, store.entries, cycleId, now);
    RouteAll(DeskOf(w, cycleId, now), RobustnessById(Stressed(w, cycleId, now)),
             Routing(store.(entries := t.entries), t.killed, [], false), w.critic.output.value)
  }

  /** All four workers answered and the cycle went on to route the critic's verdicts. */
  ghost predicate Routes(cfg: CycleConfig, w: Workers, store: Store, cycleId: string, now: int) {
    var run := Pipeline(cfg, w, store, Meter(0.0, []), cycleId, now);
    |run.meter.stages| == 4 && (run.outcome.Ok? || run.outcome.error.LookupFailure?)
  }

  lemma RoutesMeansRouted(cfg: CycleConfig, w: Workers, store: Store, cycleId: string, now: int)
    ensures var run := Pipeline(cfg, w, store, Meter(0.0, []), cycleId, now);
            && (Routes(cfg, w, store, cycleId, now) ==>
                  && Answers(w)
                  && var routing := RoutedBy(w, store, cycleId, now);
                     run.store == routing.store
                     && run.outcome == (if routing.lookupFailed then Err(LookupFailure)
                                        else Ok(Tally(|Ids(w.lab.output.value)|, routing.killed, routing.queued))))
            && (!Routes(cfg, w, store, cycleId, now) ==>
                  && run.store.queue == store.queue && run.outcome != Err(LookupFailure)
                  && (run.outcome.Ok? ==> run.outcome.value.queued == []))
  {
    hide Recorded, InSampleRuns, TriageAll, StressAll, RouteAll, Latest, TriageOf, RobustnessById, EvidenceById;
    if Answers(w) {
      var cs, desk, triage := w.lab.output.value, DeskOf(w, cycleId, now), TriageOf(w.backtest.output.value);
      TriageIgnoresEntries(desk, triage, Recorded(w, store.entries, cs, cycleId, now),
                           Recorded(w, map[], cs, cycleId, now), Ids(cs));
    }
  }

  // ------------------------------------------------------------ lookup failure

  /** A verdict that survives a proposed candidate for which there is no in-sample evidence. */
  predicate Stray(desk: Desk, v: Verdict) {
    v.kind.SurviveForNow? && v.candidateId in desk.candidates && v.candidateId !in desk.evidence
  }

  lemma {:induction false} RoutingFailsOnStrays(desk: Desk, robustness: map<string, Robustness>, start: Routing,
                                                verdicts: seq<Verdict>)
    requires !start.lookupFailed
    ensures RouteAll(desk, robustness, start, verdicts).lookupFailed
         <==> exists k :: 0 <= k < |verdicts| && Stray(desk, verdicts[k])
  {
    hide WithReview, WithState, Appended;
    if verdicts != [] {
      var earlier := verdicts[..|verdicts| - 1];
      RoutingFailsOnStrays(desk, robustness, start, earlier);
      assert forall k :: 0 <= k < |earlier| ==> earlier[k] == verdicts[k];
      assert Stray(desk, verdicts[|verdicts| - 1]) ==> exists k :: 0 <= k < |verdicts| && Stray(desk, verdicts[k]);
    }
  }

  /** The evidence lookup fails exactly when the critic lets an unevidenced candidate survive. */
  lemma LookupFailsExactlyOnStrays(cfg: CycleConfig, w: Workers, store: Store, cycleId: string, now: int)
    ensures Pipeline(cfg, w, store, Meter(0.0, []), cycleId, now).outcome == Err(LookupFailure)
       <==> Routes(cfg, w, store, cycleId, now) && Answers(w)
            && exists k :: 0 <= k < |w.critic.output.value| && Stray(DeskOf(w, cycleId, now), w.critic.output.value[k])
  {
    hide Pipeline, Routes;
    RoutesMeansRouted(cfg, w, store, cycleId, now);
    if Routes(cfg, w, store, cycleId, now) {
      var t := Sifted(w, store.entries, cycleId, now);
      RoutingFailsOnStrays(DeskOf(w, cycleId, now), RobustnessById(Stressed(w, cycleId, now)),
                           Routing(store.(entries := t.entries), t.killed, [], false), w.critic.output.value);
    }
  }

  /** The critic's reference check: every verdict names a candidate whose robustness evidence it was shown. */
  ghost predicate ReferenceChecked(w: Workers, cycleId: string, now: int)
    requires Answers(w)
  {
    forall v :: v in w.critic.output.value ==>
        exists rb :: rb in Stressed(w, cycleId, now) && rb.candidateId == v.candidateId
  }

  lemma VerdictsNameSurvivors(w: Workers, entries: Entries, cycleId: string, now: int, v: Verdict)
    requires Answers(w) && ReferenceChecked(w, cycleId, now) && v in w.critic.output.value
    ensures exists s :: s in Sifted(w, entries, cycleId, now).survivors && s.id == v.candidateId
    ensures Survived(DeskOf(w, cycleId, now), TriageOf(w.backtest.output.value), v.candidateId)
  {
    hide Recorded, TriageAll, StressAll, TriageOf;
    var cs, desk, triage := w.lab.output.value, DeskOf(w, cycleId, now), TriageOf(w.backtest.output.value);
    var rb :| rb in Stressed(w, cycleId, now) && rb.candidateId == v.candidateId;
    LatestKeepsIds(cs);
    StressedAreSurvivors(Sifted(w, map[], cycleId, now).survivors, w.stress);
    SurvivorsAreEvidenced(desk, triage, Recorded(w, map[], cs, cycleId, now), Ids(cs));
    TriageIgnoresEntries(desk, triage, Recorded(w, map[], cs, cycleId, now), Recorded(w, entries, cs, cycleId, now),
                         Ids(cs));
  }

  /** Under the reference check the lookup cannot fail, so no cycle ends in an unreported error. */
  lemma CheckedCriticNeverFailsLookup(cfg: CycleConfig, w: Workers, store: Store, cycleId: string, now: int)
    requires Answers(w) && ReferenceChecked(w, cycleId, now)
    ensures Report(Pipeline(cfg, w, store, Meter(0.0, []), cycleId, now)).Ok?
  {
    hide Pipeline, Routes, ReferenceChecked;
    LookupFailsExactlyOnStrays(cfg, w, store, cycleId, now);
    var verdicts := w.critic.output.value;
    forall k | 0 <= k < |verdicts| ensures !Stray(DeskOf(w, cycleId, now), verdicts[k]) {
      VerdictsNameSurvivors(w, map[], cycleId, now, verdicts[k]);
    }
  }

  // ----------------------------------------------------------------- the tally

  predicate DistinctIds(verdicts: seq<Verdict>) {
    forall j, k :: 0 <= j < k < |verdicts| ==> verdicts[j].candidateId != verdicts[k].candidateId
  }

  function Kills(verdicts: seq<Verdict>): nat {
    if verdicts == [] then 0
    else Kills(verdicts[..|verdicts| - 1]) + (if verdicts[|verdicts| - 1].kind.Kill? then 1 else 0)
  }

  lemma {:induction false} RoutingCounts(desk: Desk, robustness: map<string, Robustness>, start: Routing,
                                         verdicts: seq<Verdict>)
    requires !RouteAll(desk, robustness, start, verdicts).lookupFailed
    requires forall v :: v in verdicts ==> v.candidateId in desk.candidates
    ensures var r := RouteAll(desk, robustness, start, verdicts);
            r.killed == start.killed + Kills(verdicts) && |r.queued| == |start.queued| + |verdicts| - Kills(verdicts)
  {
    hide WithReview, WithState, Appended;
    if verdicts != [] {
      RoutingCounts(desk, robustness, start, verdicts[..|verdicts| - 1]);
    }
  }

  lemma {:induction false} DistinctWithin(verdicts: seq<Verdict>, survivors: seq<Candidate>)
    requires DistinctIds(verdicts)
    requires forall v :: v in verdicts ==> exists s :: s in survivors && s.id == v.candidateId
    ensures |verdicts| <= |survivors|
  {
    if verdicts != [] {
      var earlier, last := verdicts[..|verdicts| - 1], verdicts[|verdicts| - 1];
      var s :| s in survivors && s.id == last.candidateId;
      var i :| 0 <= i < |survivors| && survivors[i] == s;
      var others := survivors[..i] + survivors[i + 1..];
      forall v | v in earlier ensures exists o :: o in others && o.id == v.candidateId {
        var j :| 0 <= j < |earlier| && earlier[j] == v;
        assert verdicts[j] == v && v.candidateId != last.candidateId;
        var o :| o in survivors && o.id == v.candidateId;
        var k :| 0 <= k < |survivors| && survivors[k] == o;
        assert others[if k < i then k else k - 1] == o;
      }
      DistinctWithin(earlier, others);
    }
  }

  /**
   A checked, routed cycle counts every rejection and every verdict once, kills as kills; with distinct verdict
   ids it never reports more than it proposed.
   */
  lemma TallyWithinProposal(cfg: CycleConfig, w: Workers, store: Store, cycleId: string, now: int)
    requires Routes(cfg, w, store, cycleId, now) && Answers(w) && ReferenceChecked(w, cycleId, now)
    ensures var run := Pipeline(cfg, w, store, Meter(0.0, []), cycleId, now);
            && run.outcome.Ok?
            && run.outcome.value.killed
                 == Rejections(DeskOf(w, cycleId, now), TriageOf(w.backtest.output.value), Ids(w.lab.output.value))
                    + Kills(w.critic.output.value)
            && |run.outcome.value.queued| == |w.critic.output.value| - Kills(w.critic.output.value)
            && (DistinctIds(w.critic.output.value) ==>
                  run.outcome.value.killed + |run.outcome.value.queued| <= run.outcome.value.proposed)
  {
    hide Pipeline, Routes, ReferenceChecked, Recorded, TriageAll, RouteAll;
    CheckedCriticNeverFailsLookup(cfg, w, store, cycleId, now);
    RoutesMeansRouted(cfg, w, store, cycleId, now);
    var cs, desk, verdicts := w.lab.output.value, DeskOf(w, cycleId, now), w.critic.output.value;
    var t := Sifted(w, store.entries, cycleId, now);
    forall v | v in verdicts
      ensures v.candidateId in desk.candidates && exists s :: s in t.survivors && s.id == v.candidateId
    {
      VerdictsNameSurvivors(w, store.entries, cycleId, now, v);
    }
    RoutingCounts(desk, RobustnessById(Stressed(w, cycleId, now)),
                  Routing(store.(entries := t.entries), t.killed, [], false), verdicts);
    LatestKeepsIds(cs);
    SurvivorsAreEvidenced(desk, TriageOf(w.backtest.output.value), Recorded(w, store.entries, cs, cycleId, now),
                          Ids(cs));
    if DistinctIds(verdicts) {
      DistinctWithin(verdicts, t.survivors);
    }
  }

  // --------------------------------------------------------- the safety wall

  predicate AuthorisedIn(entries: Entries, identity: Identity) {
    identity in entries && entries[identity].state.Authorised()
  }

  /** Outside the given identities nothing changed; inside, every one is recorded and none is authorised. */
  ghost predicate Confined(before: Entries, after: Entries, identities: set<Identity>) {
    && (forall x :: x !in identities ==> (x in after <==> x in before) && (x in before ==> after[x] == before[x]))
    && (forall x :: x in identities ==> x in after && !after[x].state.Authorised())
  }

  function Identities(candidates: map<string, Candidate>): set<Identity> {
    set id | id in candidates :: candidates[id].spec
  }

  /** Writing an unauthorised entry only adds its identity to those the change is confined to. */
  lemma WriteConfines(before: Entries, entries: Entries, identities: set<Identity>, x: Identity, entry: Entry)
    requires Confined(before, entries, identities) && !entry.state.Authorised()
    ensures Confined(before, entries[x := entry], identities + {x})
    ensures x in identities ==> identities + {x} == identities
  {
  }

  function IdentitiesOf(candidates: map<string, Candidate>, ids: seq<string>): set<Identity>
    requires forall id :: id in ids ==> id in candidates
  {
    if ids == [] then {} else IdentitiesOf(candidates, ids[..|ids| - 1]) + {candidates[ids[|ids| - 1]].spec}
  }

  lemma {:induction false} IdentitiesOfAll(candidates: map<string, Candidate>, ids: seq<string>)
    requires forall id :: id in ids ==> id in candidates
    ensures forall x :: x in IdentitiesOf(candidates, ids) <==> exists id :: id in ids && candidates[id].spec == x
  {
    if ids != [] {
      var earlier, last := ids[..|ids| - 1], ids[|ids| - 1];
      IdentitiesOfAll(candidates, earlier);
      assert ids == earlier + [last];
      forall x | x in IdentitiesOf(candidates, ids) ensures exists id :: id in ids && candidates[id].spec == x {
        if x in IdentitiesOf(candidates, earlier) {
          var id :| id in earlier && candidates[id].spec == x;
          assert id in ids;
        } else {
          assert last in ids;
        }
      }
    }
  }

  lemma SameIdentities(cs: seq<Candidate>)
    ensures IdentitiesOf(Latest(cs), Ids(cs)) == Identities(Latest(cs))
  {
    hide Latest, Ids, IdentitiesOf;
    var candidates, ids := Latest(cs), Ids(cs);
    IdentitiesOfAll(candidates, ids);
    forall x ensures x in IdentitiesOf(candidates, ids) <==> x in Identities(candidates) {
      if x in Identities(candidates) {
        var id :| id in candidates && candidates[id].spec == x;
        assert id in ids;
      }
    }
  }

  lemma {:induction false} UpsertingConfines(entries: Entries, candidates: map<string, Candidate>, ids: seq<string>,
                                             runId: string, now: int)
    requires forall id :: id in ids ==> id in candidates
    ensures Confined(entries, UpsertAll(entries, candidates, ids, runId, now), IdentitiesOf(candidates, ids))
  {
    if ids != [] {
      hide Confined;
      var c := candidates[ids[|ids| - 1]];
      var earlier := UpsertAll(entries, candidates, ids[..|ids| - 1], runId, now);
      UpsertingConfines(entries, candidates, ids[..|ids| - 1], runId, now);
      WriteConfines(entries, earlier, IdentitiesOf(candidates, ids[..|ids| - 1]), c.spec,
                    Upserted(earlier, c, runId, now)[c.spec]);
    }
  }

  lemma StateConfines(before: Entries, entries: Entries, identities: set<Identity>, x: Identity, state: State, now: int)
    requires Confined(before, entries, identities) && x in identities && !state.Authorised()
    ensures Confined(before, WithState(entries, x, state, now), identities)
  {
    WriteConfines(before, entries, identities, x, WithState(entries, x, state, now)[x]);
  }

  lemma ReviewConfines(before: Entries, entries: Entries, identities: set<Identity>, x: Identity, v: Verdict,
                       state: State,
                       outOfSample: Option<Evidence>, now: int)
    requires Confined(before, entries, identities) && x in identities && !state.Authorised()
    ensures Confined(before, WithReview(entries, x, v, state, outOfSample, now), identities)
  {
    WriteConfines(before, entries, identities, x, WithReview(entries, x, v, state, outOfSample, now)[x]);
  }

  lemma BacktestConfines(before: Entries, entries: Entries, identities: set<Identity>, x: Identity, evidence: Evidence,
                         now: int)
    requires Confined(before, entries, identities) && x in identities
    ensures Confined(before, WithBacktest(entries, x, evidence, now), identities)
  {
    WriteConfines(before, entries, identities, x, WithBacktest(entries, x, evidence, now)[x]);
  }

  lemma {:induction false} RecordingConfines(before: Entries, entries: Entries, candidates: map<string, Candidate>,
                                             evidence: seq<Evidence>, now: int)
    requires forall e :: e in evidence ==> e.candidateId in candidates
    requires Confined(before, entries, Identities(candidates))
    ensures Confined(before, RecordAll(entries, candidates, evidence, now), Identities(candidates))
  {
    hide Confined, WithBacktest;
    if evidence != [] {
      var earlier, last := evidence[..|evidence| - 1], evidence[|evidence| - 1];
      RecordingConfines(before, entries, candidates, earlier, now);
      BacktestConfines(before, RecordAll(entries, candidates, earlier, now), Identities(candidates),
                       candidates[last.candidateId].spec, last, now);
    }
  }

  lemma {:induction false} TriageConfines(before: Entries, desk: Desk, triage: map<string, Triage>, entries: Entries,
                                          ids: seq<string>)
    requires forall id :: id in ids ==> id in desk.candidates
    requires Confined(before, entries, Identities(desk.candidates))
    ensures Confined(before, TriageAll(desk, triage, entries, ids).entries, Identities(desk.candidates))
  {
    hide Confined, WithState;
    if ids != [] {
      var earlier, last := ids[..|ids| - 1], ids[|ids| - 1];
      TriageConfines(before, desk, triage, entries, earlier);
      StateConfines(before, TriageAll(desk, triage, entries, earlier).entries, Identities(desk.candidates),
                    desk.candidates[last].spec, Killed, desk.now);
    }
  }

  lemma RouteOneConfines(before: Entries, desk: Desk, robustness: map<string, Robustness>, r: Routing, v: Verdict)
    requires Confined(before, r.store.entries, Identities(desk.candidates))
    ensures Confined(before, RouteOne(desk, robustness, r, v).store.entries, Identities(desk.candidates))
  {
    hide Confined, WithReview, WithState, Appended, HeldOut;
    if v.candidateId in desk.candidates {
      var x, oos := desk.candidates[v.candidateId].spec, HeldOut(robustness, v.candidateId);
      assert x in Identities(desk.candidates);
      ReviewConfines(before, r.store.entries, Identities(desk.candidates), x, v, Killed, oos, desk.now);
      ReviewConfines(before, r.store.entries, Identities(desk.candidates), x, v, SurvivedForNow, oos, desk.now);
      StateConfines(before, WithReview(r.store.entries, x, v, SurvivedForNow, oos, desk.now),
                    Identities(desk.candidates),
                    x, QueuedForApproval, desk.now);
    }
  }

  lemma {:induction false} RoutingConfines(before: Entries, desk: Desk, robustness: map<string, Robustness>,
                                           start: Routing, verdicts: seq<Verdict>)
    requires Confined(before, start.store.entries, Identities(desk.candidates))
    ensures Confined(before, RouteAll(desk, robustness, start, verdicts).store.entries, Identities(desk.candidates))
  {
    hide Confined, RouteOne, Identities;
    if verdicts != [] {
      var earlier := verdicts[..|verdicts| - 1];
      RoutingConfines(before, desk, robustness, start, earlier);
      RouteOneConfines(before, desk, robustness, RouteAll(desk, robustness, start, earlier), verdicts[|verdicts| - 1]);
    }
  }

  /** The lab was called and answered with a proposal. */
  predicate Proposes(cfg: CycleConfig, w: Workers, m: Meter) {
    var (context, m1) := Called(cfg, m, MarketContext, w.context);
    context.Ok? && Called(cfg, m1, StrategyLab, w.lab).0.Ok?
  }

  lemma ProposesMeansAnswered(cfg: CycleConfig, w: Workers, m: Meter)
    ensures Proposes(cfg, w, m) ==> w.lab.Answered? && w.lab.output.Some?
  {
  }

  /** A cycle without a proposal leaves everything alone; otherwise it touches exactly the proposed identities. */
  lemma CycleConfined(cfg: CycleConfig, w: Workers, store: Store, m: Meter, cycleId: string, now: int)
    ensures var after := Pipeline(cfg, w, store, m, cycleId, now).store;
            && (!Proposes(cfg, w, m) ==> after == store)
            && (Proposes(cfg, w, m) ==>
                  && w.lab.Answered? && w.lab.output.Some?
                  && Confined(store.entries, after.entries, Identities(Latest(w.lab.output.value))))
  {
    hide Confined, UpsertAll, RecordAll, TriageAll, RouteAll, StressAll, Latest, Identities, InSampleRuns, EvidenceById,
      TriageOf, RobustnessById, IdentitiesOf;
    if Proposes(cfg, w, m) {
      var cs, entries := w.lab.output.value, store.entries;
      var desk := DeskFor(w, cs, cycleId, now);
      var upserted, recorded :=
          UpsertAll(entries, Latest(cs), Ids(cs), cycleId, now), Recorded(w, entries, cs, cycleId, now);
      UpsertingConfines(entries, Latest(cs), Ids(cs), cycleId, now);
      SameIdentities(cs);
      EvidenceNamesCandidates(cs, w.inSample);
      RecordingConfines(entries, upserted, Latest(cs), InSampleRuns(cs, w.inSample), now);
      if w.backtest.Answered? && w.backtest.output.Some? {
        var triage := TriageOf(w.backtest.output.value);
        TriageConfines(entries, desk, triage, recorded, Ids(cs));
        if w.critic.Answered? && w.critic.output.Some? {
          var t := TriageAll(desk, triage, recorded, Ids(cs));
          RoutingConfines(entries, desk, RobustnessById(StressAll(t.survivors, w.stress)),
                          Routing(store.(entries := t.entries), t.killed, [], false), w.critic.output.value);
        }
      }
    }
  }

  /**
   No cycle ever authorises anything. An identity keeps its approval exactly when the cycle does not
   propose it again: re-proposing overwrites even a champion.
   */
  lemma AuthorisedExactlyUnlessReproposed(cfg: CycleConfig, w: Workers, store: Store, m: Meter, cycleId: string,
                                          now: int, x: Identity)
    ensures Proposes(cfg, w, m) ==> w.lab.Answered? && w.lab.output.Some?
    ensures AuthorisedIn(Pipeline(cfg, w, store, m, cycleId, now).store.entries, x)
       <==> AuthorisedIn(store.entries, x) && !(Proposes(cfg, w, m) && x in Identities(Latest(w.lab.output.value)))
  {
    hide Pipeline, Proposes, Latest, Identities;
    ProposesMeansAnswered(cfg, w, m);
    CycleConfined(cfg, w, store, m, cycleId, now);
  }

  // ------------------------------------------------------------------ the queue

  /** A queue entry of this cycle carries its own candidate, all of its evidence and the verdict that kept it. */
  predicate WellFormed(desk: Desk, robustness: map<string, Robustness>, e: QueueEntry) {
    && e.cycleId == desk.cycleId && e.createdAt == desk.now
    && e.verdict.kind.SurviveForNow? && e.verdict.candidateId in desk.candidates
    && e.candidate == desk.candidates[e.verdict.candidateId] && e.identity == e.candidate.spec
    && e.verdict.candidateId in desk.evidence && e.inSample == desk.evidence[e.verdict.candidateId]
    && e.outOfSample == HeldOut(robustness, e.verdict.candidateId)
  }

  ghost predicate Extends(desk: Desk, robustness: map<string, Robustness>, verdicts: seq<Verdict>,
                          before: seq<QueueEntry>, after: seq<QueueEntry>) {
    && before <= after
    && (UniqueIds(before) ==> UniqueIds(after))
    && (forall k :: |before| <= k < |after| ==> WellFormed(desk, robustness, after[k]) && after[k].verdict in verdicts)
  }

  lemma AppendExtends(desk: Desk, robustness: map<string, Robustness>, verdicts: seq<Verdict>,
                      before: seq<QueueEntry>, queue: seq<QueueEntry>, e: QueueEntry)
    requires Extends(desk, robustness, verdicts, before, queue)
    requires WellFormed(desk, robustness, e) && e.verdict in verdicts
    ensures Extends(desk, robustness, verdicts, before, Appended(queue, e))
  {
    hide WellFormed;
  }

  lemma MoreVerdictsExtend(desk: Desk, robustness: map<string, Robustness>, verdicts: seq<Verdict>,
                           before: seq<QueueEntry>, after: seq<QueueEntry>)
    requires verdicts != [] && Extends(desk, robustness, verdicts[..|verdicts| - 1], before, after)
    ensures Extends(desk, robustness, verdicts, before, after)
  {
    hide WellFormed;
  }

  lemma {:induction false} RoutingExtends(desk: Desk, robustness: map<string, Robustness>, start: Routing,
                                          verdicts: seq<Verdict>)
    ensures Extends(desk, robustness, verdicts, start.store.queue,
                    RouteAll(desk, robustness, start, verdicts).store.queue)
  {
    if verdicts != [] {
      hide Extends, WithReview, WithState, Appended, HeldOut, WellFormed;
      var earlier, v := verdicts[..|verdicts| - 1], verdicts[|verdicts| - 1];
      var r := RouteAll(desk, robustness, start, earlier);
      RoutingExtends(desk, robustness, start, earlier);
      MoreVerdictsExtend(desk, robustness, verdicts, start.store.queue, r.store.queue);
      if !r.lookupFailed && v.candidateId in desk.candidates && v.kind.SurviveForNow?
          && v.candidateId in desk.evidence {
        var c := desk.candidates[v.candidateId];
        var e := QueueEntry(desk.cycleId, c.spec, c, desk.evidence[v.candidateId], HeldOut(robustness, v.candidateId),
                            v, desk.now);
        AssembledWellFormed(desk, robustness, e);
        AppendExtends(desk, robustness, verdicts, start.store.queue, r.store.queue, e);
      }
    }
  }

  lemma AssembledWellFormed(desk: Desk, robustness: map<string, Robustness>, e: QueueEntry)
    requires e.verdict.kind.SurviveForNow? && e.verdict.candidateId in desk.candidates
         && e.verdict.candidateId in desk.evidence
    requires e == QueueEntry(desk.cycleId, desk.candidates[e.verdict.candidateId].spec,
                             desk.candidates[e.verdict.candidateId], desk.evidence[e.verdict.candidateId],
                             HeldOut(robustness, e.verdict.candidateId), e.verdict, desk.now)
    ensures WellFormed(desk, robustness, e)
  {
  }

  /** The queue is append-only: a cycle adds well-formed entries with fresh ids and changes nothing that is there. */
  lemma QueueOnlyExtends(cfg: CycleConfig, w: Workers, store: Store, cycleId: string, now: int)
    ensures var after := Pipeline(cfg, w, store, Meter(0.0, []), cycleId, now).store.queue;
            && store.queue <= after
            && (UniqueIds(store.queue) ==> UniqueIds(after))
            && (|after| > |store.queue| ==>
                  && Answers(w)
                  && Extends(DeskOf(w, cycleId, now), RobustnessById(Stressed(w, cycleId, now)), w.critic.output.value,
                             store.queue, after))
  {
    hide Pipeline, Routes, UniqueIds, WellFormed;
    RoutesMeansRouted(cfg, w, store, cycleId, now);
    if Routes(cfg, w, store, cycleId, now) {
      var t := Sifted(w, store.entries, cycleId, now);
      RoutingExtends(DeskOf(w, cycleId, now), RobustnessById(Stressed(w, cycleId, now)),
                     Routing(store.(entries := t.entries), t.killed, [], false), w.critic.output.value);
    }
  }

  // ------------------------------------------ do the registry and the queue agree

  predicate Names(desk: Desk, v: Verdict, x: Identity) {
    v.candidateId in desk.candidates && desk.candidates[v.candidateId].spec == x
  }

  /** The last verdict on the identity. */
  function LastVerdict(desk: Desk, verdicts: seq<Verdict>, x: Identity): Option<Verdict> {
    if verdicts == [] then None
    else if Names(desk, verdicts[|verdicts| - 1], x) then Some(verdicts[|verdicts| - 1])
    else LastVerdict(desk, verdicts[..|verdicts| - 1], x)
  }

  predicate SomeSurvives(desk: Desk, verdicts: seq<Verdict>, x: Identity) {
    exists k :: 0 <= k < |verdicts| && Names(desk, verdicts[k], x) && verdicts[k].kind.SurviveForNow?
  }

  lemma SomeSurvivesStep(desk: Desk, verdicts: seq<Verdict>, x: Identity)
    requires verdicts != []
    ensures var last := verdicts[|verdicts| - 1];
            SomeSurvives(desk, verdicts, x)
              == (SomeSurvives(desk, verdicts[..|verdicts| - 1], x)
                  || (Names(desk, last, x) && last.kind.SurviveForNow?))
  {
    hide Names;
    var earlier := verdicts[..|verdicts| - 1];
    assert forall k :: 0 <= k < |earlier| ==> earlier[k] == verdicts[k];
  }

  /** An entry that carries a verdict, its held-out evidence and the state it calls for. */
  predicate Settled(desk: Desk, robustness: map<string, Robustness>, e: Entry, v: Verdict) {
    && e.verdict == Some(v) && e.outOfSample == HeldOut(robustness, v.candidateId) && e.updatedAt == desk.now
    && e.state == (if v.kind.Kill? then Killed else QueuedForApproval)
  }

  /** The registry ends on the last verdict about an identity; the queue keeps the first surviving one. */
  lemma {:induction false} RoutingOutcome(desk: Desk, robustness: map<string, Robustness>, start: Routing,
                                          verdicts: seq<Verdict>, x: Identity)
    requires !RouteAll(desk, robustness, start, verdicts).lookupFailed && x in start.store.entries
    ensures var r := RouteAll(desk, robustness, start, verdicts);
            && x in r.store.entries
            && (LastVerdict(desk, verdicts, x).None? ==> r.store.entries[x] == start.store.entries[x])
            && (LastVerdict(desk, verdicts, x).Some? ==>
                Settled(desk, robustness, r.store.entries[x], LastVerdict(desk, verdicts, x).value))
            && (x in r.queued <==> x in start.queued || SomeSurvives(desk, verdicts, x))
  {
    hide SomeSurvives, Appended, HeldOut;
    if verdicts == [] {
      NobodySurvives(desk, x);
    } else {
      SomeSurvivesStep(desk, verdicts, x);
      RoutingOutcome(desk, robustness, start, verdicts[..|verdicts| - 1], x);
    }
  }

  lemma NobodySurvives(desk: Desk, x: Identity)
    ensures !SomeSurvives(desk, [], x)
  {
  }

  lemma SiftedRecordsProposed(w: Workers, entries: Entries, cycleId: string, now: int)
    requires Answers(w)
    ensures Confined(entries, Sifted(w, entries, cycleId, now).entries, Identities(Latest(w.lab.output.value)))
  {
    hide Confined, UpsertAll, RecordAll, TriageAll, Latest, Identities, InSampleRuns, EvidenceById, TriageOf,
      IdentitiesOf;
    var cs := w.lab.output.value;
    UpsertingConfines(entries, Latest(cs), Ids(cs), cycleId, now);
    SameIdentities(cs);
    EvidenceNamesCandidates(cs, w.inSample);
    RecordingConfines(entries, UpsertAll(entries, Latest(cs), Ids(cs), cycleId, now), Latest(cs),
                      InSampleRuns(cs, w.inSample), now);
    TriageConfines(entries, DeskFor(w, cs, cycleId, now), TriageOf(w.backtest.output.value),
                   Recorded(w, entries, cs, cycleId, now), Ids(cs));
  }

  /**
   How a routed cycle leaves a proposed identity: it is queued when some verdict on it survives, but
   its registry state is that of the last verdict. So it is queued for a human and yet recorded as
   killed exactly when some verdict on it survives and the last one kills.
   */
  lemma QueuedYetKilledExactlyWhen(cfg: CycleConfig, w: Workers, store: Store, cycleId: string, now: int, x: Identity)
    requires Routes(cfg, w, store, cycleId, now) && Answers(w)
    requires Pipeline(cfg, w, store, Meter(0.0, []), cycleId, now).outcome.Ok?
    requires x in Identities(Latest(w.lab.output.value))
         && LastVerdict(DeskOf(w, cycleId, now), w.critic.output.value, x).Some?
    ensures var run := Pipeline(cfg, w, store, Meter(0.0, []), cycleId, now);
            var desk, verdicts := DeskOf(w, cycleId, now), w.critic.output.value;
            && x in run.store.entries
            && (x in run.outcome.value.queued <==> SomeSurvives(desk, verdicts, x))
            && Settled(desk, RobustnessById(Stressed(w, cycleId, now)), run.store.entries[x],
                       LastVerdict(desk, verdicts, x).value)
            && (x in run.outcome.value.queued && run.store.entries[x].state == Killed
                <==> SomeSurvives(desk, verdicts, x) && LastVerdict(desk, verdicts, x).value.kind == Kill)
  {
    hide Pipeline, Routes, Latest, LastVerdict, SomeSurvives, Stressed, Sifted, DeskOf;
    RoutesMeansRouted(cfg, w, store, cycleId, now);
    SiftedRecordsProposed(w, store.entries, cycleId, now);
    var t := Sifted(w, store.entries, cycleId, now);
    RoutingOutcome(DeskOf(w, cycleId, now), RobustnessById(Stressed(w, cycleId, now)),
                   Routing(store.(entries := t.entries), t.killed, [], false), w.critic.output.value, x);
  }

  ghost predicate DistinctIdentities(candidates: map<string, Candidate>) {
    forall a, b :: a in candidates && b in candidates && a != b ==> candidates[a].spec != candidates[b].spec
  }

  lemma {:induction false} LastVerdictIsOne(desk: Desk, verdicts: seq<Verdict>, x: Identity) returns (k: nat)
    requires LastVerdict(desk, verdicts, x).Some?
    ensures k < |verdicts| && Names(desk, verdicts[k], x) && LastVerdict(desk, verdicts, x) == Some(verdicts[k])
  {
    if Names(desk, verdicts[|verdicts| - 1], x) {
      k := |verdicts| - 1;
    } else {
      k := LastVerdictIsOne(desk, verdicts[..|verdicts| - 1], x);
    }
  }

  /** One verdict per candidate and one candidate per identity: then what is queued is never recorded as killed. */
  lemma DistinctCandidatesAgree(cfg: CycleConfig, w: Workers, store: Store, cycleId: string, now: int, x: Identity)
    requires Routes(cfg, w, store, cycleId, now) && Answers(w)
    requires Pipeline(cfg, w, store, Meter(0.0, []), cycleId, now).outcome.Ok?
    requires DistinctIds(w.critic.output.value) && DistinctIdentities(Latest(w.lab.output.value))
    requires x in Identities(Latest(w.lab.output.value))
         && LastVerdict(DeskOf(w, cycleId, now), w.critic.output.value, x).Some?
    ensures var run := Pipeline(cfg, w, store, Meter(0.0, []), cycleId, now);
            && x in run.store.entries
            && (x in run.outcome.value.queued <==> run.store.entries[x].state == QueuedForApproval)
  {
    hide Pipeline, Routes, Latest, LastVerdict, Identities;
    var desk, verdicts := DeskOf(w, cycleId, now), w.critic.output.value;
    QueuedYetKilledExactlyWhen(cfg, w, store, cycleId, now, x);
    var k := LastVerdictIsOne(desk, verdicts, x);
    forall j | 0 <= j < |verdicts| && Names(desk, verdicts[j], x) ensures j == k {
      assert verdicts[j].candidateId == verdicts[k].candidateId;
    }
  }

  // ------------------------------------------------------- a disagreeing cycle

  /** Two proposals of one strategy under different ids; the critic keeps the first and kills the second. */
  function TwinWorkers(): Workers {
    Workers(Answered(0.0, Some("calm")), Answered(0.0, Some([Candidate("a", "x"), Candidate("b", "x")])),
            Answered(0.0, Some([])), Answered(0.0, Some([Verdict("a", SurviveForNow), Verdict("b", Kill)])),
            (c: Candidate) => Some(1), (c: Candidate) => Some(None))
  }

  lemma TwinsProposed()
    ensures var cs := [Candidate("a", "x"), Candidate("b", "x")];
            && Latest(cs) == map["a" := cs[0], "b" := cs[1]] && Ids(cs) == ["a", "b"]
            && InSampleRuns(cs, TwinWorkers().inSample) == [Evidence("a", 1), Evidence("b", 1)]
            && EvidenceById([Evidence("a", 1), Evidence("b", 1)])
                  == map["a" := Evidence("a", 1), "b" := Evidence("b", 1)]
  {
    hide Latest, Ids, InSampleRuns, EvidenceById;
    TwinsNamed();
    TwinsRan();
    TwinsEvidenced();
  }

  lemma TwinsNamed()
    ensures var cs := [Candidate("a", "x"), Candidate("b", "x")];
            Latest(cs) == map["a" := cs[0], "b" := cs[1]] && Ids(cs) == ["a", "b"]
  {
    var cs := [Candidate("a", "x"), Candidate("b", "x")];
    assert cs[..1] == [cs[0]] && cs[..1][..0] == [];
  }

  lemma TwinsRan()
    ensures var cs := [Candidate("a", "x"), Candidate("b", "x")];
            InSampleRuns(cs, TwinWorkers().inSample) == [Evidence("a", 1), Evidence("b", 1)]
  {
    var cs := [Candidate("a", "x"), Candidate("b", "x")];
    assert cs[..1] == [cs[0]] && cs[..1][..0] == [];
  }

  lemma TwinsEvidenced()
    ensures EvidenceById([Evidence("a", 1), Evidence("b", 1)])
         == map["a" := Evidence("a", 1), "b" := Evidence("b", 1)]
  {
    var evidence := [Evidence("a", 1), Evidence("b", 1)];
    assert evidence[..1] == [evidence[0]] && evidence[..1][..0] == [];
  }

  lemma TwinsRoute(store: Store)
    ensures Routes(CycleConfig(1.0, 0.0), TwinWorkers(), store, "cycle", 0)
    ensures Pipeline(CycleConfig(1.0, 0.0), TwinWorkers(), store, Meter(0.0, []), "cycle", 0).outcome.Ok?
  {
    var w := TwinWorkers();
    TwinsProposed();
    TwinsStressed(store.entries);
    TwinsHaveEvidence();
    hide Recorded, Latest, Ids, InSampleRuns, EvidenceById, TriageAll, StressAll, RouteAll;
    LookupFailsExactlyOnStrays(CycleConfig(1.0, 0.0), w, store, "cycle", 0);
  }

  lemma TwinsHaveEvidence()
    ensures var w := TwinWorkers(); forall v :: v in w.critic.output.value ==> !Stray(DeskOf(w, "cycle", 0), v)
  {
    TwinsProposed();
    hide Latest, InSampleRuns, EvidenceById;
  }

  lemma TwinsStressed(entries: Entries)
    ensures var w := TwinWorkers(); StressAll(Sifted(w, entries, "cycle", 0).survivors, w.stress) != []
  {
    var w := TwinWorkers();
    TwinsProposed();
    hide Recorded, Latest, Ids, InSampleRuns, EvidenceById;
    var desk, recorded := DeskOf(w, "cycle", 0), Recorded(w, entries, w.lab.output.value, "cycle", 0);
    assert ["a", "b"][..1] == ["a"] && ["a"][..0] == [];
    assert TriageAll(desk, map[], recorded, []) == Triaged(recorded, 0, []);
    assert TriageAll(desk, map[], recorded, ["a"]) == Triaged(recorded, 0, [Candidate("a", "x")]);
    assert TriageAll(desk, map[], recorded, ["a", "b"])
        == Triaged(recorded, 0, [Candidate("a", "x"), Candidate("b", "x")]);
  }

  /** The concrete cycle in which one identity is both queued for a human and recorded as killed. */
  lemma TwinsAreQueuedYetKilled(store: Store)
    ensures var run := Pipeline(CycleConfig(1.0, 0.0), TwinWorkers(), store, Meter(0.0, []), "cycle", 0);
            run.outcome.Ok? && "x" in run.outcome.value.queued && "x" in run.store.entries
                && run.store.entries["x"].state == Killed
  {
    var w := TwinWorkers();
    TwinsRoute(store);
    TwinsProposed();
    hide Pipeline, Routes, Latest, InSampleRuns, EvidenceById;
    var desk, verdicts := DeskOf(w, "cycle", 0), w.critic.output.value;
    assert Names(desk, verdicts[0], "x") && Names(desk, verdicts[1], "x");
    assert desk.candidates["a"].spec in Identities(desk.candidates);
    QueuedYetKilledExactlyWhen(CycleConfig(1.0, 0.0), w, store, "cycle", 0, "x");
  }
}
