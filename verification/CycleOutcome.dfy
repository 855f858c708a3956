/**
 What one cycle comes to, read off what its workers answered: how far it got and at what cost, whom it
 kept, and what the registry and the queue then hold of every proposed strategy.
 */
module CycleOutcome {
  import opened Models
  import opened Registry
  import opened Cycle
  import opened CycleLaws

  // ------------------------------------------------------------------ stages

  const STAGES := [MarketContext, StrategyLab, BacktestAgent, CriticAgent]

  /** How a worker answers, without what it answers. */
  datatype Manner = Trips | Fails(cost: real) | Delivers(cost: real)

  function MannerOf<T>(reply: Reply<T>): Manner {
    if reply.OverBudget? then Trips else if reply.output.None? then Fails(reply.cost) else Delivers(reply.cost)
  }

  function MannersOf(w: Workers): seq<Manner> {
    [MannerOf(w.context), MannerOf(w.lab), MannerOf(w.backtest), MannerOf(w.critic)]
  }

  /** The first n stages were called, in order, delivered, and are metered at what they cost. */
  ghost predicate Delivered(w: Workers, m: Meter, n: nat) {
    && |m.stages| == n <= 4 && m.running == Total(m.stages)
    && forall k :: 0 <= k < n ==> m.stages[k].0 == STAGES[k] && MannersOf(w)[k] == Delivers(m.stages[k].1)
  }

  /** A stage that ended the cycle: its ceiling did not fit, or it did and the worker tripped or failed. */
  ghost predicate StoppedAt(cfg: CycleConfig, w: Workers, m: Meter, n: nat, signal: Signal) {
    n < 4 &&
    match signal
    case BudgetAbort(stage) => stage == STAGES[n] && Delivered(w, m, n) && m.running + cfg.ceiling > cfg.cap
    case AgentBudgetExceeded => MannersOf(w)[n] == Trips && Delivered(w, m, n) && m.running + cfg.ceiling <= cfg.cap
    case WorkerFailure(stage) =>
      && stage == STAGES[n] && |m.stages| == n + 1 && m.stages[n].0 == stage && MannersOf(w)[n] == Fails(m.stages[n].1)
      && Delivered(w, Meter(m.running - m.stages[n].1, m.stages[..n]), n)
      && m.running - m.stages[n].1 + cfg.ceiling <= cfg.cap
    case LookupFailure => false
  }

  lemma MeteredDelivers(w: Workers, m: Meter, n: nat, cost: NonNegativeDecimal)
    requires n < 4 && Delivered(w, m, n) && MannersOf(w)[n] == Delivers(cost)
    ensures Delivered(w, Meter(m.running + cost, m.stages + [(STAGES[n], cost)]), n + 1)
  {
    hide MannersOf, Total;
    var stages := m.stages + [(STAGES[n], cost)];
    TotalOfOneMore(stages);
    assert stages[..n] == m.stages;
  }

  lemma MeteredFails(cfg: CycleConfig, w: Workers, m: Meter, n: nat, cost: NonNegativeDecimal)
    requires n < 4 && Delivered(w, m, n) && MannersOf(w)[n] == Fails(cost) && m.running + cfg.ceiling <= cfg.cap
    ensures StoppedAt(cfg, w, Meter(m.running + cost, m.stages + [(STAGES[n], cost)]), n, WorkerFailure(STAGES[n]))
  {
    hide MannersOf, Total;
    assert (m.stages + [(STAGES[n], cost)])[..n] == m.stages && Meter(m.running + cost - cost, m.stages) == m;
  }

  lemma CallDeliversOrStops<T>(cfg: CycleConfig, w: Workers, m: Meter, n: nat, reply: Reply<T>)
    requires n < 4 && Delivered(w, m, n) && MannersOf(w)[n] == MannerOf(reply)
    ensures var (result, after) := Called(cfg, m, STAGES[n], reply);
            && (result.Ok? <==> m.running + cfg.ceiling <= cfg.cap && MannerOf(reply).Delivers?)
            && (result.Ok? ==> reply.Answered? && reply.output == Some(result.value) && Delivered(w, after, n + 1))
            && (result.Err? ==> !result.error.LookupFailure? && StoppedAt(cfg, w, after, n, result.error))
  {
    hide MannersOf, Delivered;
    if reply.Answered? && m.running + cfg.ceiling <= cfg.cap {
      hide StoppedAt;
      if reply.output.Some? {
        MeteredDelivers(w, m, n, reply.cost);
      } else {
        MeteredFails(cfg, w, m, n, reply.cost);
      }
    }
  }

  /** How many stages delivered: all that were metered but one that failed. */
  function Reached(run: PipelineRun): int {
    |run.meter.stages| - (if run.outcome.Err? && run.outcome.error.WorkerFailure? then 1 else 0)
  }

  /** A cycle that delivered n stages ended early at the next, or had nothing left for it to do. */
  ghost predicate EndedAt(cfg: CycleConfig, w: Workers, run: PipelineRun, n: int) {
    0 <= n <= 4 &&
    if run.outcome.Err? && !run.outcome.error.LookupFailure? then StoppedAt(cfg, w, run.meter, n, run.outcome.error)
    else Delivered(w, run.meter, n) && 2 <= n && (run.outcome.Err? ==> n == 4)
  }

  lemma EndedWhereReached(cfg: CycleConfig, w: Workers, run: PipelineRun, n: int)
    requires EndedAt(cfg, w, run, n)
    ensures n == Reached(run)
  {
  }

  lemma AfterBacktestEnds(cfg: CycleConfig, w: Workers, store: Store, cs: seq<Candidate>, triage: map<string, Triage>,
                          m: Meter, cycleId: string, now: int)
    requires Delivered(w, m, 3)
    ensures var run := AfterBacktest(cfg, w, store, cs, triage, m, cycleId, now); EndedAt(cfg, w, run, Reached(run))
  {
    hide Called, TriageAll, StressAll, RouteAll, Delivered, StoppedAt, Latest, Ids, RobustnessById, MannerOf, Reached;
    CallDeliversOrStops(cfg, w, m, 3, w.critic);
    var run := AfterBacktest(cfg, w, store, cs, triage, m, cycleId, now);
    var triaged := TriageAll(DeskFor(w, cs, cycleId, now), triage, store.entries, Ids(cs));
    var verdicts := Called(cfg, m, CriticAgent, w.critic).0;
    EndedWhereReached(cfg, w, run, if StressAll(triaged.survivors, w.stress) != [] && verdicts.Ok? then 4 else 3);
  }

  lemma AfterProposalEnds(cfg: CycleConfig, w: Workers, store: Store, cs: seq<Candidate>, m: Meter, cycleId: string,
                          now: int)
    requires Delivered(w, m, 2)
    ensures var run := AfterProposal(cfg, w, store, cs, m, cycleId, now); EndedAt(cfg, w, run, Reached(run))
  {
    hide Called, Recorded, InSampleRuns, AfterBacktest, Delivered, StoppedAt, TriageOf, MannerOf, Reached;
    CallDeliversOrStops(cfg, w, m, 2, w.backtest);
    var (verdicts, m') := Called(cfg, m, BacktestAgent, w.backtest);
    if InSampleRuns(cs, w.inSample) != [] && verdicts.Ok? {
      AfterBacktestEnds(cfg, w, store.(entries := Recorded(w, store.entries, cs, cycleId, now)), cs,
                        TriageOf(verdicts.value), m', cycleId, now);
    } else {
      EndedWhereReached(cfg, w, AfterProposal(cfg, w, store, cs, m, cycleId, now), 2);
    }
  }

  /**
   A cycle calls its four workers in order, each exactly when the ceiling still fits under the cap, and
   meters each at its own cost. It ends early only where a ceiling does not fit, a worker trips its
   own budget or its output fails, and it then says which.
   */
  lemma CycleEndsExactly(cfg: CycleConfig, w: Workers, store: Store, cycleId: string, now: int)
    ensures var run := Pipeline(cfg, w, store, Meter(0.0, []), cycleId, now); EndedAt(cfg, w, run, Reached(run))
  {
    hide Called, AfterProposal, Delivered, StoppedAt, MannerOf, Reached;
    NothingDelivered(w);
    var m := Meter(0.0, []);
    CallDeliversOrStops(cfg, w, m, 0, w.context);
    var (context, m1) := Called(cfg, m, MarketContext, w.context);
    var run := Pipeline(cfg, w, store, m, cycleId, now);
    if context.Err? {
      EndedWhereReached(cfg, w, run, 0);
    } else {
      CallDeliversOrStops(cfg, w, m1, 1, w.lab);
      var (proposal, m2) := Called(cfg, m1, StrategyLab, w.lab);
      if proposal.Err? {
        EndedWhereReached(cfg, w, run, 1);
      } else {
        AfterProposalEnds(cfg, w, store, proposal.value, m2, cycleId, now);
      }
    }
  }

  lemma NothingDelivered(w: Workers)
    ensures Delivered(w, Meter(0.0, []), 0)
  {
  }

  /** What the cycle reports: its cost is the sum of its calls, and an aborted one reports no candidates. */
  lemma ReportExactly(cfg: CycleConfig, w: Workers, store: Store, cycleId: string, now: int)
    ensures var run := Pipeline(cfg, w, store, Meter(0.0, []), cycleId, now);
            var report := Report(run);
            && (report.Err? <==> run.outcome == Err(LookupFailure))
            && (report.Ok? ==>
                  var r := report.value;
                  && r.cost == Total(r.stages) && r.stages == run.meter.stages
                  && (r.outcome.Completed? ==> run.outcome == Ok(r.tally))
                  && (!r.outcome.Completed? ==> run.outcome.Err? && r.tally == Tally(0, 0, []))
                  && (r.outcome.AbortedFailure? <==> run.outcome.Err? && run.outcome.error.WorkerFailure?))
  {
    hide Pipeline, Total, MannersOf;
    CycleEndsExactly(cfg, w, store, cycleId, now);
    var run := Pipeline(cfg, w, store, Meter(0.0, []), cycleId, now);
    var n := Reached(run);
    if run.outcome.Err? && run.outcome.error.WorkerFailure? {
      assert run.meter.stages[..n] + [run.meter.stages[n]] == run.meter.stages;
      TotalOfOneMore(run.meter.stages);
    }
  }

  // ------------------------------------------------------- what was answered

  /** The last candidate proposed under an id. */
  function ProposedAs(cs: seq<Candidate>, id: string): Option<Candidate> {
    if cs == [] then None
    else if cs[|cs| - 1].id == id then Some(cs[|cs| - 1])
    else ProposedAs(cs[..|cs| - 1], id)
  }

  /** The figures of the last run in sample under an id. */
  function RanAs(cs: seq<Candidate>, harness: Candidate -> Option<int>, id: string): Option<int> {
    if cs == [] then None
    else if cs[|cs| - 1].id == id && harness(cs[|cs| - 1]).Some? then harness(cs[|cs| - 1])
    else RanAs(cs[..|cs| - 1], harness, id)
  }

  /** The last triage given to an id. */
  function TriagedAs(verdicts: seq<TriageVerdict>, id: string): Option<Triage> {
    if verdicts == [] then None
    else if verdicts[|verdicts| - 1].candidateId == id then Some(verdicts[|verdicts| - 1].triage)
    else TriagedAs(verdicts[..|verdicts| - 1], id)
  }

  /** The last verdict given to an id. */
  function JudgedAs(verdicts: seq<Verdict>, id: string): Option<Verdict> {
    if verdicts == [] then None
    else if verdicts[|verdicts| - 1].candidateId == id then Some(verdicts[|verdicts| - 1])
    else JudgedAs(verdicts[..|verdicts| - 1], id)
  }

  lemma {:induction false} LatestIsProposed(cs: seq<Candidate>, id: string)
    ensures id in Latest(cs) <==> ProposedAs(cs, id).Some?
    ensures id in Latest(cs) ==> ProposedAs(cs, id) == Some(Latest(cs)[id]) && Latest(cs)[id].id == id
  {
    if cs != [] {
      LatestIsProposed(cs[..|cs| - 1], id);
    }
  }

  lemma {:induction false} EvidenceIsRun(cs: seq<Candidate>, harness: Candidate -> Option<int>, id: string)
    ensures var evidence := EvidenceById(InSampleRuns(cs, harness));
            && (id in evidence <==> RanAs(cs, harness, id).Some?)
            && (id in evidence ==> evidence[id] == Evidence(id, RanAs(cs, harness, id).value))
  {
    if cs != [] {
      var runs, earlier := InSampleRuns(cs, harness), InSampleRuns(cs[..|cs| - 1], harness);
      EvidenceIsRun(cs[..|cs| - 1], harness, id);
      if harness(cs[|cs| - 1]).Some? {
        assert runs[..|runs| - 1] == earlier;
      } else {
        assert runs == earlier;
      }
    }
  }

  lemma {:induction false} TriageIsGiven(verdicts: seq<TriageVerdict>, id: string)
    ensures id in TriageOf(verdicts) <==> TriagedAs(verdicts, id).Some?
    ensures id in TriageOf(verdicts) ==> TriagedAs(verdicts, id) == Some(TriageOf(verdicts)[id])
  {
    if verdicts != [] {
      TriageIsGiven(verdicts[..|verdicts| - 1], id);
    }
  }

  /** A candidate kept after triage: it was proposed, it ran in sample, and its last triage does not reject it. */
  predicate KeptAs(w: Workers, id: string)
    requires Answers(w)
  {
    && ProposedAs(w.lab.output.value, id).Some? && RanAs(w.lab.output.value, w.inSample, id).Some?
    && TriagedAs(w.backtest.output.value, id) != Some(RejectCandidate)
  }

  /** The held-out evidence of a candidate: it was kept, and its stressed run was long enough to have some. */
  function HeldOutAs(w: Workers, id: string): Option<Evidence>
    requires Answers(w)
  {
    if !KeptAs(w, id) then None
    else
      match w.stress(ProposedAs(w.lab.output.value, id).value)
      case Some(Some(figures)) => Some(Evidence(id, figures))
      case _ => None
  }

  lemma {:induction false} StressedAs(survivors: seq<Candidate>, harness: Candidate -> Option<Option<int>>,
                                      c: Candidate)
    requires forall s :: s in survivors && s.id == c.id ==> s == c
    ensures HeldOut(RobustnessById(StressAll(survivors, harness)), c.id)
         == if c in survivors && harness(c).Some? && harness(c).value.Some?
            then Some(Evidence(c.id, harness(c).value.value)) else None
  {
    if survivors != [] {
      var earlier, last := survivors[..|survivors| - 1], survivors[|survivors| - 1];
      assert survivors == earlier + [last];
      StressedAs(earlier, harness, c);
      var all, before := StressAll(survivors, harness), StressAll(earlier, harness);
      if harness(last).Some? {
        assert all[..|all| - 1] == before;
      } else {
        assert all == before;
      }
    }
  }

  lemma DeskForLooksUp(w: Workers, cs: seq<Candidate>, cycleId: string, now: int, id: string)
    ensures var desk := DeskFor(w, cs, cycleId, now);
            && (id in desk.candidates <==> ProposedAs(cs, id).Some?)
            && (id in desk.candidates ==>
                  ProposedAs(cs, id) == Some(desk.candidates[id]) && desk.candidates[id].id == id)
            && (id in desk.evidence <==> RanAs(cs, w.inSample, id).Some?)
            && (id in desk.evidence ==> desk.evidence[id] == Evidence(id, RanAs(cs, w.inSample, id).value))
  {
    hide Latest, EvidenceById, InSampleRuns, ProposedAs, RanAs;
    LatestIsProposed(cs, id);
    EvidenceIsRun(cs, w.inSample, id);
  }

  lemma DeskLooksUp(w: Workers, cycleId: string, now: int, id: string)
    requires Answers(w)
    ensures var desk, cs, triage := DeskOf(w, cycleId, now), w.lab.output.value, TriageOf(w.backtest.output.value);
            && (id in desk.candidates <==> ProposedAs(cs, id).Some?)
            && (id in desk.candidates ==>
                  ProposedAs(cs, id) == Some(desk.candidates[id]) && desk.candidates[id].id == id)
            && (id in desk.evidence <==> RanAs(cs, w.inSample, id).Some?)
            && (id in desk.evidence ==> desk.evidence[id] == Evidence(id, RanAs(cs, w.inSample, id).value))
            && (Survived(desk, triage, id) <==> KeptAs(w, id))
  {
    hide DeskFor, TriageOf, ProposedAs, RanAs, TriagedAs;
    DeskForLooksUp(w, w.lab.output.value, cycleId, now, id);
    TriageIsGiven(w.backtest.output.value, id);
  }

  /** What the critic is shown of a candidate's stressed run is its held-out evidence. */
  lemma HeldOutIsStressed(w: Workers, cycleId: string, now: int, id: string)
    requires Answers(w)
    ensures HeldOut(RobustnessById(Stressed(w, cycleId, now)), id) == HeldOutAs(w, id)
  {
    hide Recorded, TriageAll, TriageOf, Latest, EvidenceById, InSampleRuns, StressAll, RobustnessById, HeldOut, KeptAs,
      ProposedAs, Survived, Ids;
    var cs, desk, triage := w.lab.output.value, DeskOf(w, cycleId, now), TriageOf(w.backtest.output.value);
    LatestKeepsIds(cs);
    SurvivorsAreEvidenced(desk, triage, Recorded(w, map[], cs, cycleId, now), Ids(cs));
    DeskLooksUp(w, cycleId, now, id);
    var survivors := Sifted(w, map[], cycleId, now).survivors;
    var c := if ProposedAs(cs, id).Some? then ProposedAs(cs, id).value else Candidate(id, "");
    StressedAs(survivors, w.stress, c);
    SurvivedIsProposed(desk, triage, id);
  }

  lemma SurvivedIsProposed(desk: Desk, triage: map<string, Triage>, id: string)
    ensures Survived(desk, triage, id) ==> id in desk.candidates
  {
  }

  // ------------------------------------------------------------- the queue

  /** An entry waiting for a human: the surviving verdict on it, and the candidate and evidence the cycle had for it. */
  predicate Deserved(w: Workers, cycleId: string, now: int, e: QueueEntry)
    requires Answers(w)
  {
    var id := e.verdict.candidateId;
    && e.verdict in w.critic.output.value && e.verdict.kind == SurviveForNow
    && ProposedAs(w.lab.output.value, id) == Some(e.candidate) && e.identity == e.candidate.spec
    && RanAs(w.lab.output.value, w.inSample, id).Some?
    && e.inSample == Evidence(id, RanAs(w.lab.output.value, w.inSample, id).value)
    && e.outOfSample == HeldOutAs(w, id)
    && e.cycleId == cycleId && e.createdAt == now
  }

  /** Everything a cycle puts in the queue is what its workers answered. */
  lemma QueuedIsDeserved(cfg: CycleConfig, w: Workers, store: Store, cycleId: string, now: int, k: nat)
    requires |store.queue| <= k < |Pipeline(cfg, w, store, Meter(0.0, []), cycleId, now).store.queue|
    ensures var queue := Pipeline(cfg, w, store, Meter(0.0, []), cycleId, now).store.queue;
            Answers(w) && Deserved(w, cycleId, now, queue[k])
  {
    hide Pipeline, Stressed, RobustnessById, HeldOut, UniqueIds, ProposedAs, RanAs, HeldOutAs, Latest, EvidenceById,
      InSampleRuns;
    QueueOnlyExtends(cfg, w, store, cycleId, now);
    var e := Pipeline(cfg, w, store, Meter(0.0, []), cycleId, now).store.queue[k];
    var desk := DeskOf(w, cycleId, now);
    assert WellFormed(desk, RobustnessById(Stressed(w, cycleId, now)), e);
    DeskLooksUp(w, cycleId, now, e.verdict.candidateId);
    HeldOutIsStressed(w, cycleId, now, e.verdict.candidateId);
  }

  lemma {:induction false} RoutingQueues(desk: Desk, robustness: map<string, Robustness>, start: Routing,
                                         verdicts: seq<Verdict>, x: Identity)
    requires !RouteAll(desk, robustness, start, verdicts).lookupFailed
    ensures Waiting(RouteAll(desk, robustness, start, verdicts).store.queue, desk.cycleId, x)
       <==> Waiting(start.store.queue, desk.cycleId, x) || SomeSurvives(desk, verdicts, x)
  {
    hide SomeSurvives, HeldOut, WithReview, WithState, Waiting, Appended;
    if verdicts == [] {
      NobodySurvives(desk, x);
    } else {
      SomeSurvivesStep(desk, verdicts, x);
      var earlier, v := verdicts[..|verdicts| - 1], verdicts[|verdicts| - 1];
      RoutingQueues(desk, robustness, start, earlier, x);
      if v.candidateId in desk.candidates && v.kind.SurviveForNow? && v.candidateId in desk.evidence {
        var c := desk.candidates[v.candidateId];
        AppendedWaits(RouteAll(desk, robustness, start, earlier).store.queue,
                      QueueEntry(desk.cycleId, c.spec, c, desk.evidence[v.candidateId],
                                 HeldOut(robustness, v.candidateId), v, desk.now), x);
      }
    }
  }

  lemma AppendedWaits(queue: seq<QueueEntry>, e: QueueEntry, x: Identity)
    ensures Waiting(Appended(queue, e), e.cycleId, x) <==> Waiting(queue, e.cycleId, x) || e.identity == x
  {
    var after := Appended(queue, e);
    if !Waiting(queue, e.cycleId, e.identity) {
      assert after[|queue|] == e;
    }
    if Waiting(queue, e.cycleId, x) {
      var k :| 0 <= k < |queue| && queue[k].cycleId == e.cycleId && queue[k].identity == x;
      assert after[k] == queue[k];
    }
  }

  // ------------------------------------------------------------ the registry

  /** No other id was proposed for the strategy of this one. */
  ghost predicate OnlyProposal(candidates: map<string, Candidate>, id: string) {
    && id in candidates
    && forall other :: other in candidates && candidates[other].spec == candidates[id].spec ==> other == id
  }

  lemma {:induction false} UpsertedEntry(entries: Entries, candidates: map<string, Candidate>, ids: seq<string>,
                                         runId: string, now: int, id: string)
    requires OnlyProposal(candidates, id) && forall other :: other in ids ==> other in candidates
    ensures var c, after := candidates[id], UpsertAll(entries, candidates, ids, runId, now);
            if id in ids then
              && c.spec in after
              && after[c.spec] == Entry(c, Proposed, runId, None, None, None,
                                        if c.spec in entries then entries[c.spec].createdAt else now, now)
            else (c.spec in after <==> c.spec in entries) && (c.spec in after ==> after[c.spec] == entries[c.spec])
  {
    if ids != [] {
      var earlier, last := ids[..|ids| - 1], ids[|ids| - 1];
      assert ids == earlier + [last];
      UpsertedEntry(entries, candidates, earlier, runId, now, id);
    }
  }

  lemma RecordOneMore(entries: Entries, candidates: map<string, Candidate>, evidence: seq<Evidence>, e: Evidence,
                      now: int)
    requires forall other :: other in evidence + [e] ==> other.candidateId in candidates
    ensures forall other :: other in evidence ==> other in evidence + [e]
    ensures e.candidateId in candidates
    ensures RecordAll(entries, candidates, evidence + [e], now)
         == WithBacktest(RecordAll(entries, candidates, evidence, now), candidates[e.candidateId].spec, e, now)
  {
    var all := evidence + [e];
    assert all[..|all| - 1] == evidence && all[|evidence|] == e;
  }

  lemma {:induction false} RecordedEntry(entries: Entries, candidates: map<string, Candidate>, cs: seq<Candidate>,
                                         harness: Candidate -> Option<int>, now: int, id: string)
    requires OnlyProposal(candidates, id) && candidates[id].spec in entries
    requires forall e :: e in InSampleRuns(cs, harness) ==> e.candidateId in candidates
    ensures var x, after := candidates[id].spec, RecordAll(entries, candidates, InSampleRuns(cs, harness), now);
            && x in after
            && after[x] == match RanAs(cs, harness, id)
                           case None => entries[x]
                           case Some(figures) =>
                             entries[x].(inSample := Some(Evidence(id, figures)), state := Backtested, updatedAt := now)
  {
    hide RecordAll;
    if cs == [] {
      NothingRecorded(entries, candidates, now);
    } else {
      var last := cs[|cs| - 1];
      var earlier := InSampleRuns(cs[..|cs| - 1], harness);
      if harness(last).Some? {
        RecordOneMore(entries, candidates, earlier, Evidence(last.id, harness(last).value), now);
      } else {
        assert InSampleRuns(cs, harness) == earlier;
      }
      RecordedEntry(entries, candidates, cs[..|cs| - 1], harness, now, id);
    }
  }

  lemma NothingRecorded(entries: Entries, candidates: map<string, Candidate>, now: int)
    ensures RecordAll(entries, candidates, [], now) == entries
  {
  }

  lemma {:induction false} TriagedEntry(desk: Desk, triage: map<string, Triage>, entries: Entries, ids: seq<string>,
                                        id: string)
    requires OnlyProposal(desk.candidates, id) && desk.candidates[id].spec in entries
    requires forall other :: other in ids ==> other in desk.candidates
    ensures var x, after := desk.candidates[id].spec, TriageAll(desk, triage, entries, ids).entries;
            && x in after
            && after[x] == if id in ids && id in desk.evidence && id in triage && triage[id] == RejectCandidate
                           then entries[x].(state := Killed, updatedAt := desk.now) else entries[x]
  {
    if ids != [] {
      var earlier, last := ids[..|ids| - 1], ids[|ids| - 1];
      assert ids == earlier + [last];
      TriagedEntry(desk, triage, entries, earlier, id);
    }
  }

  lemma {:induction false} RoutedEntry(desk: Desk, robustness: map<string, Robustness>, start: Routing,
                                       verdicts: seq<Verdict>, id: string)
    requires OnlyProposal(desk.candidates, id) && desk.candidates[id].spec in start.store.entries
    requires !RouteAll(desk, robustness, start, verdicts).lookupFailed
    ensures var x, after := desk.candidates[id].spec, RouteAll(desk, robustness, start, verdicts).store.entries;
            && x in after
            && after[x] == match JudgedAs(verdicts, id)
                           case None => start.store.entries[x]
                           case Some(v) =>
                             start.store.entries[x].(verdict := Some(v), outOfSample := HeldOut(robustness, id),
                                                     state := if v.kind == Kill then Killed else QueuedForApproval,
                                                     updatedAt := desk.now)
  {
    hide Appended, HeldOut;
    if verdicts != [] {
      RoutedEntry(desk, robustness, start, verdicts[..|verdicts| - 1], id);
    }
  }

  /** What a strategy's entry is once its run in sample is recorded. */
  function EntryOnRecord(w: Workers, cs: seq<Candidate>, before: Entries, cycleId: string, now: int, id: string): Entry
    requires ProposedAs(cs, id).Some?
  {
    var c, ran := ProposedAs(cs, id).value, RanAs(cs, w.inSample, id);
    Entry(c, if ran.Some? then Backtested else Proposed, cycleId,
          if ran.Some? then Some(Evidence(id, ran.value)) else None, None, None,
          if c.spec in before then before[c.spec].createdAt else now, now)
  }

  lemma RecordedAsAnswered(w: Workers, cs: seq<Candidate>, entries: Entries, cycleId: string, now: int, id: string)
    requires OnlyProposal(Latest(cs), id)
    ensures ProposedAs(cs, id).Some? && Latest(cs)[id] == ProposedAs(cs, id).value
    ensures var x, after := ProposedAs(cs, id).value.spec, Recorded(w, entries, cs, cycleId, now);
            x in after && after[x] == EntryOnRecord(w, cs, entries, cycleId, now, id)
  {
    hide Latest, Ids, InSampleRuns, EvidenceById, RanAs, ProposedAs, UpsertAll, RecordAll;
    LatestIsProposed(cs, id);
    EvidenceNamesCandidates(cs, w.inSample);
    UpsertedEntry(entries, Latest(cs), Ids(cs), cycleId, now, id);
    RecordedEntry(UpsertAll(entries, Latest(cs), Ids(cs), cycleId, now), Latest(cs), cs, w.inSample, now, id);
  }

  /** Whether a candidate that ran in sample was rejected. */
  predicate RejectedAs(w: Workers, cs: seq<Candidate>, verdicts: seq<TriageVerdict>, id: string) {
    RanAs(cs, w.inSample, id).Some? && TriagedAs(verdicts, id) == Some(RejectCandidate)
  }

  lemma TriagedAsAnswered(w: Workers, cs: seq<Candidate>, verdicts: seq<TriageVerdict>, entries: Entries,
                          cycleId: string, now: int, id: string)
    requires OnlyProposal(Latest(cs), id)
    ensures ProposedAs(cs, id).Some?
    ensures var x := ProposedAs(cs, id).value.spec;
            var after := TriageAll(DeskFor(w, cs, cycleId, now), TriageOf(verdicts),
                                   Recorded(w, entries, cs, cycleId, now), Ids(cs)).entries;
            var recorded := EntryOnRecord(w, cs, entries, cycleId, now, id);
            x in after && after[x] == if RejectedAs(w, cs, verdicts, id) then recorded.(state := Killed) else recorded
  {
    hide Latest, Ids, InSampleRuns, EvidenceById, TriageOf, RanAs, TriagedAs, ProposedAs, Recorded, TriageAll;
    RecordedAsAnswered(w, cs, entries, cycleId, now, id);
    TriagedEntry(DeskFor(w, cs, cycleId, now), TriageOf(verdicts), Recorded(w, entries, cs, cycleId, now), Ids(cs), id);
    DeskForLooksUp(w, cs, cycleId, now, id);
    TriageIsGiven(verdicts, id);
  }

  // --------------------------------------------- the registry, wherever a cycle ended

  lemma CallCounts<T>(cfg: CycleConfig, m: Meter, stage: Stage, reply: Reply<T>)
    ensures var (result, after) := Called(cfg, m, stage, reply);
            && (result.Ok? ==>
                  reply.Answered? && reply.output == Some(result.value) && |after.stages| == |m.stages| + 1)
            && (result.Err? ==>
                  && !result.error.LookupFailure?
                  && |after.stages| == |m.stages| + (if result.error.WorkerFailure? then 1 else 0))
  {
  }

  lemma AfterBacktestStores(cfg: CycleConfig, w: Workers, store: Store, cs: seq<Candidate>,
                            triage: map<string, Triage>, m: Meter, cycleId: string, now: int)
    requires |m.stages| == 3
    ensures var run := AfterBacktest(cfg, w, store, cs, triage, m, cycleId, now);
            var t := TriageAll(DeskFor(w, cs, cycleId, now), triage, store.entries, Ids(cs));
            && 3 <= Reached(run) <= 4
            && (Reached(run) == 3 ==>
                  && run.store == store.(entries := t.entries)
                  && (run.outcome.Ok? ==> run.outcome == Ok(Tally(|Ids(cs)|, t.killed, []))))
            && (Reached(run) == 4 <==> |run.meter.stages| == 4 && (run.outcome.Ok? || run.outcome.error.LookupFailure?))
            && (Reached(run) == 4 && run.outcome.Ok? ==> run.outcome.value.proposed == |Ids(cs)|)
  {
    hide Called, TriageAll, StressAll, RouteAll, Latest, Ids, RobustnessById;
    CallCounts(cfg, m, CriticAgent, w.critic);
    var t := TriageAll(DeskFor(w, cs, cycleId, now), triage, store.entries, Ids(cs));
    var run := AfterBacktest(cfg, w, store, cs, triage, m, cycleId, now);
    if StressAll(t.survivors, w.stress) == [] || Called(cfg, m, CriticAgent, w.critic).0.Err? {
      assert run.store == store.(entries := t.entries);
    }
  }

  lemma AfterProposalStores(cfg: CycleConfig, w: Workers, store: Store, cs: seq<Candidate>, m: Meter, cycleId: string,
                            now: int)
    requires |m.stages| == 2
    ensures var run := AfterProposal(cfg, w, store, cs, m, cycleId, now);
            var recorded := Recorded(w, store.entries, cs, cycleId, now);
            && 2 <= Reached(run) <= 4
            && (Reached(run) == 2 ==>
                  && run.store == store.(entries := recorded)
                  && (run.outcome.Ok? ==> run.outcome == Ok(Tally(|Ids(cs)|, 0, []))))
            && (Reached(run) >= 3 ==> w.backtest.Answered? && w.backtest.output.Some?)
            && (Reached(run) == 3 ==>
                  var t := TriageAll(DeskFor(w, cs, cycleId, now), TriageOf(w.backtest.output.value), recorded,
                                     Ids(cs));
                  && run.store == store.(entries := t.entries)
                  && (run.outcome.Ok? ==> run.outcome == Ok(Tally(|Ids(cs)|, t.killed, []))))
            && (Reached(run) == 4 <==> |run.meter.stages| == 4 && (run.outcome.Ok? || run.outcome.error.LookupFailure?))
            && (Reached(run) == 4 && run.outcome.Ok? ==> run.outcome.value.proposed == |Ids(cs)|)
  {
    hide Called, Recorded, InSampleRuns, AfterBacktest, TriageOf, TriageAll, Reached, Ids, Latest, EvidenceById;
    CallCounts(cfg, m, BacktestAgent, w.backtest);
    var (verdicts, m') := Called(cfg, m, BacktestAgent, w.backtest);
    var run := AfterProposal(cfg, w, store, cs, m, cycleId, now);
    if InSampleRuns(cs, w.inSample) != [] && verdicts.Ok? {
      AfterBacktestStores(cfg, w, store.(entries := Recorded(w, store.entries, cs, cycleId, now)), cs,
                          TriageOf(verdicts.value), m', cycleId, now);
    } else {
      ReachedShort(run, 2);
    }
  }

  lemma ReachedShort(run: PipelineRun, n: nat)
    requires n < 4
    requires |run.meter.stages| == n + (if run.outcome.Err? && run.outcome.error.WorkerFailure? then 1 else 0)
    requires run.outcome.Err? ==> !run.outcome.error.LookupFailure?
    ensures Reached(run) == n
    ensures !(|run.meter.stages| == 4 && (run.outcome.Ok? || run.outcome.error.LookupFailure?))
  {
  }

  /** What a cycle leaves in its store and reports, told by how many of its stages delivered. */
  lemma StoreWhereReached(cfg: CycleConfig, w: Workers, store: Store, cycleId: string, now: int)
    ensures var run := Pipeline(cfg, w, store, Meter(0.0, []), cycleId, now);
            && 0 <= Reached(run) <= 4
            && (Reached(run) < 2 ==> run.store == store && run.outcome.Err?)
            && (Reached(run) >= 2 ==> w.lab.Answered? && w.lab.output.Some?)
            && (Reached(run) >= 3 ==> w.backtest.Answered? && w.backtest.output.Some?)
            && (Reached(run) == 2 ==>
                  && run.store == store.(entries := Recorded(w, store.entries, w.lab.output.value, cycleId, now))
                  && (run.outcome.Ok? ==> run.outcome == Ok(Tally(|Ids(w.lab.output.value)|, 0, []))))
            && (Reached(run) == 3 ==>
                  var cs := w.lab.output.value;
                  var t := TriageAll(DeskFor(w, cs, cycleId, now), TriageOf(w.backtest.output.value),
                                     Recorded(w, store.entries, cs, cycleId, now), Ids(cs));
                  && run.store == store.(entries := t.entries)
                  && (run.outcome.Ok? ==> run.outcome == Ok(Tally(|Ids(cs)|, t.killed, []))))
            && (Reached(run) == 4 <==> Routes(cfg, w, store, cycleId, now))
            && (run.outcome.Ok? ==> run.outcome.value.proposed == |Ids(w.lab.output.value)|)
  {
    hide Called, AfterProposal, Recorded, TriageOf, TriageAll, Reached, Ids, Latest, DeskFor;
    var m := Meter(0.0, []);
    CallCounts(cfg, m, MarketContext, w.context);
    var (context, m1) := Called(cfg, m, MarketContext, w.context);
    var run := Pipeline(cfg, w, store, m, cycleId, now);
    if context.Err? {
      ReachedShort(run, 0);
    } else {
      CallCounts(cfg, m1, StrategyLab, w.lab);
      var (proposal, m2) := Called(cfg, m1, StrategyLab, w.lab);
      if proposal.Err? {
        ReachedShort(run, 1);
      } else {
        AfterProposalStores(cfg, w, store, proposal.value, m2, cycleId, now);
      }
    }
  }

  /** The worker of a stage answered with an output. */
  predicate Gave<T>(reply: Reply<T>) {
    reply.Answered? && reply.output.Some?
  }

  /** The last verdict on a candidate, in a cycle that reached the critic's. */
  function VerdictBy(w: Workers, n: int, id: string): Option<Verdict>
    requires n == 4 ==> Gave(w.critic)
  {
    if n == 4 then JudgedAs(w.critic.output.value, id) else None
  }

  /**
   The whole entry that the answers of the first n stages call for. Only the time the strategy was first
   proposed is older than the cycle.
   */
  function EntryAs(w: Workers, n: int, before: Entries, cycleId: string, now: int, id: string): Entry
    requires 2 <= n <= 4 && Gave(w.lab) && ProposedAs(w.lab.output.value, id).Some?
    requires (n >= 3 ==> Gave(w.backtest)) && (n == 4 ==> Gave(w.critic))
  {
    var cs := w.lab.output.value;
    var recorded := EntryOnRecord(w, cs, before, cycleId, now, id);
    match VerdictBy(w, n, id)
    case Some(v) =>
      recorded.(state := if v.kind == Kill then Killed else QueuedForApproval, verdict := Some(v),
                outOfSample := HeldOutAs(w, id))
    case None =>
      if n >= 3 && RejectedAs(w, cs, w.backtest.output.value, id) then recorded.(state := Killed) else recorded
  }

  lemma RoutedAsAnswered(cfg: CycleConfig, w: Workers, store: Store, cycleId: string, now: int, id: string)
    requires Routes(cfg, w, store, cycleId, now) && Answers(w)
    requires Pipeline(cfg, w, store, Meter(0.0, []), cycleId, now).outcome.Ok?
    requires OnlyProposal(Latest(w.lab.output.value), id)
    ensures ProposedAs(w.lab.output.value, id).Some?
    ensures var x, after := ProposedAs(w.lab.output.value, id).value.spec,
                            Pipeline(cfg, w, store, Meter(0.0, []), cycleId, now).store.entries;
            x in after && after[x] == EntryAs(w, 4, store.entries, cycleId, now, id)
  {
    hide Pipeline, Routes, Latest, Stressed, JudgedAs, RanAs, TriagedAs, ProposedAs, HeldOutAs, HeldOut, RobustnessById,
      EvidenceById, InSampleRuns, TriageAll, Recorded, TriageOf;
    RoutesMeansRouted(cfg, w, store, cycleId, now);
    TriagedAsAnswered(w, w.lab.output.value, w.backtest.output.value, store.entries, cycleId, now, id);
    DeskLooksUp(w, cycleId, now, id);
    HeldOutIsStressed(w, cycleId, now, id);
    var t := Sifted(w, store.entries, cycleId, now);
    RoutedEntry(DeskOf(w, cycleId, now), RobustnessById(Stressed(w, cycleId, now)),
                Routing(store.(entries := t.entries), t.killed, [], false), w.critic.output.value, id);
  }

  /**
   What the registry holds of a proposed strategy after a cycle, wherever it ended and in every field,
   whenever no other id was proposed for it: all of it is what the workers that delivered answered, but
   for its creation time.
   */
  lemma ProposedEntryExactly(cfg: CycleConfig, w: Workers, store: Store, cycleId: string, now: int, id: string)
    requires Reached(Pipeline(cfg, w, store, Meter(0.0, []), cycleId, now)) >= 2 && Gave(w.lab)
    requires Pipeline(cfg, w, store, Meter(0.0, []), cycleId, now).outcome != Err(LookupFailure)
    requires OnlyProposal(Latest(w.lab.output.value), id)
    ensures var run := Pipeline(cfg, w, store, Meter(0.0, []), cycleId, now);
            var n := Reached(run);
            && n <= 4 && (n >= 3 ==> Gave(w.backtest)) && (n == 4 ==> Gave(w.critic))
            && ProposedAs(w.lab.output.value, id).Some?
            && var x := ProposedAs(w.lab.output.value, id).value.spec;
               && x in run.store.entries
               && run.store.entries[x] == EntryAs(w, n, store.entries, cycleId, now, id)
  {
    hide Pipeline, Routes, Reached, Latest, RanAs, TriagedAs, ProposedAs, HeldOutAs, TriageAll, Recorded, TriageOf,
      OnlyProposal;
    StoreWhereReached(cfg, w, store, cycleId, now);
    RoutesMeansRouted(cfg, w, store, cycleId, now);
    var n, cs := Reached(Pipeline(cfg, w, store, Meter(0.0, []), cycleId, now)), w.lab.output.value;
    RecordedAsAnswered(w, cs, store.entries, cycleId, now, id);
    if n == 3 {
      TriagedAsAnswered(w, cs, w.backtest.output.value, store.entries, cycleId, now, id);
    } else if n == 4 {
      RoutedOrFailed(cfg, w, store, cycleId, now);
      RoutedAsAnswered(cfg, w, store, cycleId, now, id);
    }
  }

  lemma RoutedOrFailed(cfg: CycleConfig, w: Workers, store: Store, cycleId: string, now: int)
    requires Routes(cfg, w, store, cycleId, now)
    ensures var run := Pipeline(cfg, w, store, Meter(0.0, []), cycleId, now);
            run.outcome.Ok? || run.outcome == Err(LookupFailure)
  {
    hide Pipeline;
  }

  // -------------------------------------------------------------- the tally

  lemma {:induction false} IdsAreDistinct(cs: seq<Candidate>)
    ensures |Ids(cs)| == |Latest(cs).Keys|
    ensures forall j, k :: 0 <= j < k < |Ids(cs)| ==> Ids(cs)[j] != Ids(cs)[k]
  {
    if cs != [] {
      var earlier, last := cs[..|cs| - 1], cs[|cs| - 1];
      IdsAreDistinct(earlier);
      assert Latest(cs).Keys == Latest(earlier).Keys + {last.id};
    }
  }

  /** A completed cycle counts each id it was proposed once, and each rejection as a kill wherever it ended. */
  lemma TallyWhereReached(cfg: CycleConfig, w: Workers, store: Store, cycleId: string, now: int)
    requires Pipeline(cfg, w, store, Meter(0.0, []), cycleId, now).outcome.Ok?
    ensures var run := Pipeline(cfg, w, store, Meter(0.0, []), cycleId, now);
            && Gave(w.lab) && run.outcome.value.proposed == |Latest(w.lab.output.value).Keys|
            && (Reached(run) == 2 ==> run.outcome.value.killed == 0 && run.outcome.value.queued == [])
            && (Reached(run) == 3 ==>
                  && Gave(w.backtest) && run.outcome.value.queued == []
                  && run.outcome.value.killed
                       == Rejections(DeskFor(w, w.lab.output.value, cycleId, now), TriageOf(w.backtest.output.value),
                                     Ids(w.lab.output.value)))
  {
    hide Pipeline, Routes, Reached, Latest, Ids, TriageAll, Recorded, TriageOf;
    StoreWhereReached(cfg, w, store, cycleId, now);
    var cs := w.lab.output.value;
    IdsAreDistinct(cs);
    LatestKeepsIds(cs);
    if Reached(Pipeline(cfg, w, store, Meter(0.0, []), cycleId, now)) == 3 {
      SurvivorsAreEvidenced(DeskFor(w, cs, cycleId, now), TriageOf(w.backtest.output.value),
                            Recorded(w, store.entries, cs, cycleId, now), Ids(cs));
    }
  }

  /** After a routed cycle, its queue holds a strategy exactly when it did before or some verdict on it survives. */
  lemma QueuedExactlyWhen(cfg: CycleConfig, w: Workers, store: Store, cycleId: string, now: int, x: Identity)
    requires Routes(cfg, w, store, cycleId, now) && Answers(w)
    requires Pipeline(cfg, w, store, Meter(0.0, []), cycleId, now).outcome.Ok?
    ensures Waiting(Pipeline(cfg, w, store, Meter(0.0, []), cycleId, now).store.queue, cycleId, x)
       <==> || Waiting(store.queue, cycleId, x)
            || exists v :: && v in w.critic.output.value && v.kind == SurviveForNow
                           && ProposedAs(w.lab.output.value, v.candidateId).Some?
                           && ProposedAs(w.lab.output.value, v.candidateId).value.spec == x
  {
    hide Pipeline, Routes, Latest, Stressed, Sifted, ProposedAs, Waiting, RobustnessById, EvidenceById, InSampleRuns;
    RoutesMeansRouted(cfg, w, store, cycleId, now);
    var t, desk, verdicts := Sifted(w, store.entries, cycleId, now), DeskOf(w, cycleId, now), w.critic.output.value;
    RoutingQueues(desk, RobustnessById(Stressed(w, cycleId, now)),
                  Routing(store.(entries := t.entries), t.killed, [], false), verdicts, x);
    forall v | v in verdicts
      ensures Names(desk, v, x) <==>
                && ProposedAs(w.lab.output.value, v.candidateId).Some?
                && ProposedAs(w.lab.output.value, v.candidateId).value.spec == x
    {
      DeskLooksUp(w, cycleId, now, v.candidateId);
    }
  }
}
