/** The deterministic coordinator of one slow-loop cycle, step by step against its registry and queue. */
module Orchestrator {
  import opened Models
  import opened Registry
  import opened Cycle

  class Orchestrator {
    const config: CycleConfig
    const registry: ChampionChallengerRegistry
    const queue: ApprovalQueue
    var runningCost: real
    var stageCosts: seq<(Stage, real)>

    constructor (config: CycleConfig, registry: ChampionChallengerRegistry, queue: ApprovalQueue)
      ensures this.config == config && this.registry == registry && this.queue == queue
      ensures Metered() == Meter(0.0, [])
    {
      this.config, this.registry, this.queue := config, registry, queue;
      runningCost, stageCosts := 0.0, [];
    }

    function Metered(): Meter
      reads this
    {
      Meter(runningCost, stageCosts)
    }

    function Stored(): Store
      reads registry, queue
    {
      Store(registry.entries, queue.entries)
    }

    /** Refuses before the call when the ceiling does not fit in what is left of the cap. */
    method RunAgent<T>(stage: Stage, reply: Reply<T>) returns (output: Result<T, Signal>)
      modifies this
      ensures (output, Metered()) == Called(config, old(Metered()), stage, reply)
    {
      if runningCost + config.ceiling > config.cap {
        return Err(BudgetAbort(stage));
      }
      if reply.OverBudget? {
        return Err(AgentBudgetExceeded);
      }
      runningCost := runningCost + reply.cost;
      stageCosts := stageCosts + [(stage, reply.cost)];
      if reply.output.None? {
        return Err(WorkerFailure(stage));
      }
      output := Ok(reply.output.value);
    }

    method Propose(cs: seq<Candidate>, cycleId: string, now: int)
      modifies registry
      ensures registry.entries == UpsertAll(old(registry.entries), Latest(cs), Ids(cs), cycleId, now)
    {
      hide Latest, Ids, Upserted;
      var candidates, ids := Latest(cs), Ids(cs);
      for i := 0 to |ids|
        invariant registry.entries == UpsertAll(old(registry.entries), candidates, ids[..i], cycleId, now)
      {
        assert ids[..i + 1][..i] == ids[..i];
        var _ := registry.UpsertProposed(candidates[ids[i]], cycleId, now);
      }
      assert ids[..|ids|] == ids;
    }

    method RunProposal(cs: seq<Candidate>, harness: Candidate -> Option<int>) returns (evidence: seq<Evidence>)
      ensures evidence == InSampleRuns(cs, harness)
    {
      evidence := [];
      for i := 0 to |cs|
        invariant evidence == InSampleRuns(cs[..i], harness)
      {
        assert cs[..i + 1][..i] == cs[..i];
        var figures := harness(cs[i]);
        if figures.Some? {
          evidence := evidence + [Evidence(cs[i].id, figures.value)];
        }
      }
      assert cs[..|cs|] == cs;
    }

    method RecordEvidence(candidates: map<string, Candidate>, evidence: seq<Evidence>, now: int)
      requires forall e :: e in evidence ==> e.candidateId in candidates
      modifies registry
      ensures registry.entries == RecordAll(old(registry.entries), candidates, evidence, now)
    {
      hide WithBacktest;
      for i := 0 to |evidence|
        invariant registry.entries == RecordAll(old(registry.entries), candidates, evidence[..i], now)
      {
        assert evidence[..i + 1][..i] == evidence[..i];
        var e := evidence[i];
        var _ := registry.RecordBacktest(candidates[e.candidateId].spec, e, now);
      }
      assert evidence[..|evidence|] == evidence;
    }

    method Sift(desk: Desk, triage: map<string, Triage>, ids: seq<string>)
      returns (killed: nat, survivors: seq<Candidate>)
      requires forall id :: id in ids ==> id in desk.candidates
      modifies registry
      ensures Triaged(registry.entries, killed, survivors) == TriageAll(desk, triage, old(registry.entries), ids)
    {
      hide WithState;
      killed, survivors := 0, [];
      ghost var before := registry.entries;
      for i := 0 to |ids|
        invariant Triaged(registry.entries, killed, survivors) == TriageAll(desk, triage, before, ids[..i])
      {
        assert ids[..i + 1][..i] == ids[..i];
        var id := ids[i];
        var candidate := desk.candidates[id];
        if id !in desk.evidence {
          continue;
        }
        if id in triage && triage[id] == RejectCandidate {
          MissingUnchanged(registry.entries, candidate.spec, Killed, desk.now);
          var _ := registry.SetState(candidate.spec, Killed, desk.now);
          killed := killed + 1;
        } else {
          survivors := survivors + [candidate];
        }
      }
      assert ids[..|ids|] == ids;
    }

    method Stress(survivors: seq<Candidate>, harness: Candidate -> Option<Option<int>>)
      returns (robustness: seq<Robustness>)
      ensures robustness == StressAll(survivors, harness)
    {
      robustness := [];
      for i := 0 to |survivors|
        invariant robustness == StressAll(survivors[..i], harness)
      {
        assert survivors[..i + 1][..i] == survivors[..i];
        var outcome := harness(survivors[i]);
        if outcome.None? {
          continue;
        }
        var held := if outcome.value.Some? then Some(Evidence(survivors[i].id, outcome.value.value)) else None;
        robustness := robustness + [Robustness(survivors[i].id, held)];
      }
      assert survivors[..|survivors|] == survivors;
    }

    /** Routes one critic verdict; false when the in-sample evidence lookup fails. */
    method RouteVerdict(desk: Desk, robustness: map<string, Robustness>, v: Verdict, killedSoFar: nat,
                        queuedSoFar: seq<Identity>)
      returns (killed: nat, queued: seq<Identity>, ok: bool)
      modifies registry, queue
      ensures Routing(Stored(), killed, queued, !ok)
           == RouteOne(desk, robustness, Routing(old(Stored()), killedSoFar, queuedSoFar, false), v)
    {
      killed, queued, ok := killedSoFar, queuedSoFar, true;
      if v.candidateId !in desk.candidates {
        return;
      }
      var candidate := desk.candidates[v.candidateId];
      var held := HeldOut(robustness, v.candidateId);
      if v.kind.Kill? {
        var _ := registry.RecordCritic(candidate.spec, v, Killed, held, desk.now);
        killed := killed + 1;
      } else {
        var _ := registry.RecordCritic(candidate.spec, v, SurvivedForNow, held, desk.now);
        if v.candidateId !in desk.evidence {
          ok := false;
          return;
        }
        queue.Append(QueueEntry(desk.cycleId, candidate.spec, candidate, desk.evidence[v.candidateId], held, v,
                                desk.now));
        var _ := registry.SetState(candidate.spec, QueuedForApproval, desk.now);
        queued := queued + [candidate.spec];
      }
    }

    method Route(desk: Desk, robustness: map<string, Robustness>, verdicts: seq<Verdict>, killedBefore: nat)
      returns (killed: nat, queued: seq<Identity>, ok: bool)
      modifies registry, queue
      ensures Routing(Stored(), killed, queued, !ok)
           == RouteAll(desk, robustness, Routing(old(Stored()), killedBefore, [], false), verdicts)
    {
      hide RouteOne;
      killed, queued, ok := killedBefore, [], true;
      ghost var start := Routing(Stored(), killed, queued, false);
      for i := 0 to |verdicts|
        invariant ok && Routing(Stored(), killed, queued, !ok) == RouteAll(desk, robustness, start, verdicts[..i])
      {
        assert verdicts[..i + 1][..i] == verdicts[..i];
        killed, queued, ok := RouteVerdict(desk, robustness, verdicts[i], killed, queued);
        if !ok {
          StoppedStays(desk, robustness, start, verdicts, i + 1);
          return;
        }
      }
      assert verdicts[..|verdicts|] == verdicts;
    }

    method RunPipeline(w: Workers, cycleId: string, now: int) returns (outcome: Result<Tally, Signal>)
      modifies this, registry, queue
      ensures PipelineRun(outcome, Stored(), Metered())
           == Pipeline(config, w, old(Stored()), old(Metered()), cycleId, now)
    {
      hide Called, UpsertAll, RecordAll, TriageAll, StressAll, RouteAll, InSampleRuns, EvidenceById, Latest, TriageOf,
        RobustnessById;
      var context := RunAgent(MarketContext, w.context);
      if context.Err? {
        return Err(context.error);
      }
      var proposal := RunAgent(StrategyLab, w.lab);
      if proposal.Err? {
        return Err(proposal.error);
      }
      outcome := Research(w, proposal.value, cycleId, now);
    }

    method Research(w: Workers, cs: seq<Candidate>, cycleId: string, now: int) returns (outcome: Result<Tally, Signal>)
      modifies this, registry, queue
      ensures PipelineRun(outcome, Stored(), Metered())
           == AfterProposal(config, w, old(Stored()), cs, old(Metered()), cycleId, now)
    {
      hide Called, UpsertAll, RecordAll, TriageAll, StressAll, RouteAll, InSampleRuns, EvidenceById, Latest, TriageOf,
        RobustnessById, AfterBacktest;
      EvidenceNamesCandidates(cs, w.inSample);
      Propose(cs, cycleId, now);
      var evidence := RunProposal(cs, w.inSample);
      RecordEvidence(Latest(cs), evidence, now);
      if evidence == [] {
        return Ok(Tally(|Ids(cs)|, 0, []));
      }
      var verdicts := RunAgent(BacktestAgent, w.backtest);
      if verdicts.Err? {
        return Err(verdicts.error);
      }
      outcome := Judge(w, cs, evidence, TriageOf(verdicts.value), cycleId, now);
    }

    method Judge(w: Workers, cs: seq<Candidate>, evidence: seq<Evidence>, triage: map<string, Triage>, cycleId: string,
                 now: int)
      returns (outcome: Result<Tally, Signal>)
      requires evidence == InSampleRuns(cs, w.inSample)
      modifies this, registry, queue
      ensures PipelineRun(outcome, Stored(), Metered())
           == AfterBacktest(config, w, old(Stored()), cs, triage, old(Metered()), cycleId, now)
    {
      hide Called, TriageAll, StressAll, RouteAll, InSampleRuns, EvidenceById, Latest, RobustnessById;
      var desk := Desk(cycleId, now, Latest(cs), EvidenceById(evidence));
      var killed, survivors := Sift(desk, triage, Ids(cs));
      if survivors == [] {
        NothingToStress(w.stress);
        return Ok(Tally(|Ids(cs)|, killed, []));
      }
      var robustness := Stress(survivors, w.stress);
      if robustness == [] {
        return Ok(Tally(|Ids(cs)|, killed, []));
      }
      var verdicts := RunAgent(CriticAgent, w.critic);
      if verdicts.Err? {
        return Err(verdicts.error);
      }
      var queued: seq<Identity>, ok: bool;
      killed, queued, ok := Route(desk, RobustnessById(robustness), verdicts.value, killed);
      outcome := if ok then Ok(Tally(|Ids(cs)|, killed, queued)) else Err(LookupFailure);
    }

    /** One full pass. Aborts are reported, never raised; only a failed evidence lookup escapes. */
    method RunCycle(w: Workers, cycleId: string, now: int) returns (result: Result<CycleResult, Signal>)
      modifies this, registry, queue
      ensures var run := Pipeline(config, w, old(Stored()), Meter(0.0, []), cycleId, now);
              Stored() == run.store && Metered() == run.meter && result == Report(run)
    {
      hide Pipeline;
      runningCost, stageCosts := 0.0, [];
      var outcome := RunPipeline(w, cycleId, now);
      if outcome.Ok? {
        return Ok(CycleResult(Completed, runningCost, stageCosts, outcome.value));
      }
      match outcome.error
      case LookupFailure => return Err(LookupFailure);
      case WorkerFailure(_) => return Ok(CycleResult(AbortedFailure, runningCost, stageCosts, Tally(0, 0, [])));
      case _ => return Ok(CycleResult(AbortedBudget, runningCost, stageCosts, Tally(0, 0, [])));
    }
  }

  lemma MissingUnchanged(entries: Entries, identity: Identity, state: State, now: int)
    ensures identity !in entries ==> WithState(entries, identity, state, now) == entries
  {
  }

  lemma NothingToStress(harness: Candidate -> Option<Option<int>>)
    ensures StressAll([], harness) == []
  {
  }

  lemma {:induction false} StoppedStays(desk: Desk, robustness: map<string, Robustness>, start: Routing,
                                        verdicts: seq<Verdict>, i: nat)
    requires i <= |verdicts| && RouteAll(desk, robustness, start, verdicts[..i]).lookupFailed
    ensures RouteAll(desk, robustness, start, verdicts) == RouteAll(desk, robustness, start, verdicts[..i])
  {
    if i < |verdicts| {
      assert verdicts[..|verdicts| - 1][..i] == verdicts[..i];
      StoppedStays(desk, robustness, start, verdicts[..|verdicts| - 1], i);
    } else {
      assert verdicts[..i] == verdicts;
    }
  }
}
