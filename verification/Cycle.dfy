/** One slow-loop cycle as a function of what its workers answer. */
module Cycle {
  import opened Models
  import opened Registry

  datatype CycleConfig = CycleConfig(cap: real, ceiling: real)

  datatype Stage = MarketContext | StrategyLab | BacktestAgent | CriticAgent

  datatype Signal = BudgetAbort(stage: Stage) | WorkerFailure(stage: Stage) | AgentBudgetExceeded | LookupFailure

  /** What a worker run comes to: its own budget tripped, or a cost and possibly a checked output of the right type. */
  datatype Reply<+T> = OverBudget | Answered(cost: NonNegativeDecimal, output: Option<T>)

  datatype Meter = Meter(running: real, stages: seq<(Stage, real)>)

  datatype Triage = AdvanceToCritic | RejectCandidate | NeedsDifferentParams

  datatype TriageVerdict = TriageVerdict(candidateId: string, triage: Triage)

  /** The stressed candidate's held-out evidence, when the holdout was long enough. */
  datatype Robustness = Robustness(candidateId: string, outOfSample: Option<Evidence>)

  /** What every collaborator answers in one cycle. The harness answers None where it raises its own error. */
  datatype Workers = Workers(context: Reply<string>, lab: Reply<seq<Candidate>>, backtest: Reply<seq<TriageVerdict>>,
                             critic: Reply<seq<Verdict>>, inSample: Candidate -> Option<int>,
                             stress: Candidate -> Option<Option<int>>)

  datatype Store = Store(entries: Entries, queue: seq<QueueEntry>)

  datatype Tally = Tally(proposed: nat, killed: nat, queued: seq<Identity>)

  datatype PipelineRun = PipelineRun(outcome: Result<Tally, Signal>, store: Store, meter: Meter)

  /** Budget check before the call, cost after it, then the output. */
  function Called<T>(cfg: CycleConfig, m: Meter, stage: Stage, reply: Reply<T>): (Result<T, Signal>, Meter) {
    if m.running + cfg.ceiling > cfg.cap then (Err(BudgetAbort(stage)), m)
    else
      match reply
      case OverBudget => (Err(AgentBudgetExceeded), m)
      case Answered(cost, output) =>
        (if output.Some? then Ok(output.value) else Err(WorkerFailure(stage)),
         Meter(m.running + cost, m.stages + [(stage, cost)]))
  }

  // ------------------------------------------------------------------ the desk

  /** Candidates by id; a later one replaces an earlier one with the same id. */
  function Latest(cs: seq<Candidate>): map<string, Candidate> {
    if cs == [] then map[] else Latest(cs[..|cs| - 1])[cs[|cs| - 1].id := cs[|cs| - 1]]
  }

  /** The ids in order of first appearance. */
  function Ids(cs: seq<Candidate>): (ids: seq<string>)
    ensures forall id :: id in ids <==> id in Latest(cs)
    ensures |ids| <= |cs| && (cs != [] ==> ids != [])
  {
    if cs == [] then []
    else
      var earlier, last := Ids(cs[..|cs| - 1]), cs[|cs| - 1];
      if last.id in earlier then earlier else earlier + [last.id]
  }

  function InSampleRuns(cs: seq<Candidate>, harness: Candidate -> Option<int>): seq<Evidence> {
    if cs == [] then []
    else
      var last := cs[|cs| - 1];
      InSampleRuns(cs[..|cs| - 1], harness)
      + (if harness(last).Some? then [Evidence(last.id, harness(last).value)] else [])
  }

  function EvidenceById(evidence: seq<Evidence>): map<string, Evidence> {
    if evidence == [] then map[]
    else EvidenceById(evidence[..|evidence| - 1])[evidence[|evidence| - 1].candidateId := evidence[|evidence| - 1]]
  }

  function TriageOf(verdicts: seq<TriageVerdict>): map<string, Triage> {
    if verdicts == [] then map[]
    else TriageOf(verdicts[..|verdicts| - 1])[verdicts[|verdicts| - 1].candidateId := verdicts[|verdicts| - 1].triage]
  }

  /** Everything fixed for one cycle once the candidates have been run in sample. */
  datatype Desk = Desk(cycleId: string, now: int, candidates: map<string, Candidate>, evidence: map<string, Evidence>)

  function UpsertAll(entries: Entries, candidates: map<string, Candidate>, ids: seq<string>, runId: string,
                     now: int): Entries
    requires forall id :: id in ids ==> id in candidates
  {
    if ids == [] then entries
    else Upserted(UpsertAll(entries, candidates, ids[..|ids| - 1], runId, now), candidates[ids[|ids| - 1]], runId, now)
  }

  function RecordAll(entries: Entries, candidates: map<string, Candidate>, evidence: seq<Evidence>, now: int): Entries
    requires forall e :: e in evidence ==> e.candidateId in candidates
  {
    if evidence == [] then entries
    else
      var last := evidence[|evidence| - 1];
      WithBacktest(RecordAll(entries, candidates, evidence[..|evidence| - 1], now), candidates[last.candidateId].spec,
                   last, now)
  }

  datatype Triaged = Triaged(entries: Entries, killed: nat, survivors: seq<Candidate>)

  function TriageOne(desk: Desk, triage: map<string, Triage>, t: Triaged, id: string): Triaged
    requires id in desk.candidates
  {
    var candidate := desk.candidates[id];
    if id !in desk.evidence then t
    else if id in triage && triage[id] == RejectCandidate then
      t.(entries := WithState(t.entries, candidate.spec, Killed, desk.now), killed := t.killed + 1)
    else t.(survivors := t.survivors + [candidate])
  }

  function TriageAll(desk: Desk, triage: map<string, Triage>, entries: Entries, ids: seq<string>): Triaged
    requires forall id :: id in ids ==> id in desk.candidates
  {
    if ids == [] then Triaged(entries, 0, [])
    else TriageOne(desk, triage, TriageAll(desk, triage, entries, ids[..|ids| - 1]), ids[|ids| - 1])
  }

  function StressAll(survivors: seq<Candidate>, harness: Candidate -> Option<Option<int>>): seq<Robustness> {
    if survivors == [] then []
    else
      var last := survivors[|survivors| - 1];
      var outcome := harness(last);
      StressAll(survivors[..|survivors| - 1], harness)
      + (if outcome.None? then []
         else [Robustness(last.id, if outcome.value.Some? then Some(Evidence(last.id, outcome.value.value)) else None)])
  }

  function RobustnessById(robustness: seq<Robustness>): map<string, Robustness> {
    if robustness == [] then map[]
    else
      var last := robustness[|robustness| - 1];
      RobustnessById(robustness[..|robustness| - 1])[last.candidateId := last]
  }

  datatype Routing = Routing(store: Store, killed: nat, queued: seq<Identity>, lookupFailed: bool)

  function HeldOut(robustness: map<string, Robustness>, id: string): Option<Evidence> {
    if id in robustness then robustness[id].outOfSample else None
  }

  /** Kill is recorded; survive is recorded and queued for a human. A missing evidence lookup stops the loop. */
  ghost function RouteOne(desk: Desk, robustness: map<string, Robustness>, r: Routing, v: Verdict): Routing {
    if r.lookupFailed || v.candidateId !in desk.candidates then r
    else
      var candidate := desk.candidates[v.candidateId];
      var oos := HeldOut(robustness, v.candidateId);
      if v.kind.Kill? then
        r.(store := r.store.(entries := WithReview(r.store.entries, candidate.spec, v, Killed, oos, desk.now)),
           killed := r.killed + 1)
      else
        var reviewed := WithReview(r.store.entries, candidate.spec, v, SurvivedForNow, oos, desk.now);
        if v.candidateId !in desk.evidence then r.(store := r.store.(entries := reviewed), lookupFailed := true)
        else
          var entry := QueueEntry(desk.cycleId, candidate.spec, candidate, desk.evidence[v.candidateId], oos, v,
                                  desk.now);
          r.(store := Store(WithState(reviewed, candidate.spec, QueuedForApproval, desk.now),
                            Appended(r.store.queue, entry)),
             queued := r.queued + [candidate.spec])
  }

  ghost function RouteAll(desk: Desk, robustness: map<string, Robustness>, start: Routing,
                          verdicts: seq<Verdict>): Routing {
    if verdicts == [] then start
    else RouteOne(desk, robustness, RouteAll(desk, robustness, start, verdicts[..|verdicts| - 1]),
                  verdicts[|verdicts| - 1])
  }

  // -------------------------------------------------------------- the pipeline

  lemma {:induction false} EvidenceNamesCandidates(cs: seq<Candidate>, harness: Candidate -> Option<int>)
    ensures forall e :: e in InSampleRuns(cs, harness) ==> e.candidateId in Latest(cs)
    ensures forall id :: id in EvidenceById(InSampleRuns(cs, harness)) ==> id in Latest(cs)
  {
    if cs != [] {
      var earlier, runs := InSampleRuns(cs[..|cs| - 1], harness), InSampleRuns(cs, harness);
      EvidenceNamesCandidates(cs[..|cs| - 1], harness);
      if harness(cs[|cs| - 1]).Some? {
        assert runs[..|runs| - 1] == earlier;
      } else {
        assert runs == earlier;
      }
    }
  }

  ghost function Pipeline(cfg: CycleConfig, w: Workers, store: Store, m: Meter, cycleId: string,
                          now: int): PipelineRun {
    var (context, m1) := Called(cfg, m, MarketContext, w.context);
    if context.Err? then PipelineRun(Err(context.error), store, m1)
    else
      var (proposal, m2) := Called(cfg, m1, StrategyLab, w.lab);
      if proposal.Err? then PipelineRun(Err(proposal.error), store, m2)
      else AfterProposal(cfg, w, store, proposal.value, m2, cycleId, now)
  }

  function DeskFor(w: Workers, cs: seq<Candidate>, cycleId: string, now: int): Desk {
    Desk(cycleId, now, Latest(cs), EvidenceById(InSampleRuns(cs, w.inSample)))
  }

  function Recorded(w: Workers, entries: Entries, cs: seq<Candidate>, cycleId: string, now: int): Entries {
    EvidenceNamesCandidates(cs, w.inSample);
    RecordAll(UpsertAll(entries, Latest(cs), Ids(cs), cycleId, now), Latest(cs), InSampleRuns(cs, w.inSample), now)
  }

  ghost function AfterProposal(cfg: CycleConfig, w: Workers, store: Store, cs: seq<Candidate>, m: Meter,
                               cycleId: string, now: int): PipelineRun {
    var recorded := store.(entries := Recorded(w, store.entries, cs, cycleId, now));
    if InSampleRuns(cs, w.inSample) == [] then PipelineRun(Ok(Tally(|Ids(cs)|, 0, [])), recorded, m)
    else
      var (verdicts, m') := Called(cfg, m, BacktestAgent, w.backtest);
      if verdicts.Err? then PipelineRun(Err(verdicts.error), recorded, m')
      else AfterBacktest(cfg, w, recorded, cs, TriageOf(verdicts.value), m', cycleId, now)
  }

  ghost function AfterBacktest(cfg: CycleConfig, w: Workers, store: Store, cs: seq<Candidate>, triage: map<string,
                               Triage>,
                               m: Meter, cycleId: string, now: int): PipelineRun {
    var desk := DeskFor(w, cs, cycleId, now);
    var triaged := TriageAll(desk, triage, store.entries, Ids(cs));
    var after := store.(entries := triaged.entries);
    var robustness := StressAll(triaged.survivors, w.stress);
    if robustness == [] then PipelineRun(Ok(Tally(|Ids(cs)|, triaged.killed, [])), after, m)
    else
      var (verdicts, m') := Called(cfg, m, CriticAgent, w.critic);
      if verdicts.Err? then PipelineRun(Err(verdicts.error), after, m')
      else
        var routing := RouteAll(desk, RobustnessById(robustness), Routing(after, triaged.killed, [], false),
                                verdicts.value);
        PipelineRun(if routing.lookupFailed then Err(LookupFailure)
                    else Ok(Tally(|Ids(cs)|, routing.killed, routing.queued)), routing.store, m')
  }

  // ----------------------------------------------------------------- the cycle

  datatype Outcome = Completed | AbortedBudget | AbortedFailure

  datatype CycleResult = CycleResult(outcome: Outcome, cost: real, stages: seq<(Stage, real)>, tally: Tally)

  /** The report of a cycle; an aborted one reports no candidates. A failed lookup escapes it. */
  function Report(run: PipelineRun): Result<CycleResult, Signal> {
    match run.outcome
    case Ok(tally) => Ok(CycleResult(Completed, run.meter.running, run.meter.stages, tally))
    case Err(LookupFailure) => Err(LookupFailure)
    case Err(WorkerFailure(_)) => Ok(CycleResult(AbortedFailure, run.meter.running, run.meter.stages, Tally(0, 0, [])))
    case Err(_) => Ok(CycleResult(AbortedBudget, run.meter.running, run.meter.stages, Tally(0, 0, [])))
  }
}
