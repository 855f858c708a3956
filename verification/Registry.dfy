/** The champion and challenger registry and the append-only queue of candidates awaiting a human. */
module Registry {
  import opened Models

  /** The canonical rendering of archetype, instrument, timeframe and parameters. */
  type Identity = string

  datatype Candidate = Candidate(id: string, spec: Identity)

  datatype Evidence = Evidence(candidateId: string, figures: int)

  datatype VerdictKind = Kill | SurviveForNow

  datatype Verdict = Verdict(candidateId: string, kind: VerdictKind)

  datatype State = Proposed | Backtested | Killed | SurvivedForNow | QueuedForApproval | Approved | Champion | Live {

    /** States that authorise risk; only a human may set them. */
    predicate Authorised() {
      Approved? || Champion? || Live?
    }
  }

  datatype Entry = Entry(candidate: Candidate, state: State, runId: string,
                         inSample: Option<Evidence>, outOfSample: Option<Evidence>, verdict: Option<Verdict>,
                         createdAt: int, updatedAt: int)

  type Entries = map<Identity, Entry>

  datatype RegistryError = NotWritable | NoSuchEntry

  function Upserted(entries: Entries, c: Candidate, runId: string, now: int): Entries {
    var created := if c.spec in entries then entries[c.spec].createdAt else now;
    entries[c.spec := Entry(c, Proposed, runId, None, None, None, created, now)]
  }

  function WithBacktest(entries: Entries, identity: Identity, evidence: Evidence, now: int): Entries {
    if identity in entries then
      entries[identity := entries[identity].(inSample := Some(evidence), state := Backtested, updatedAt := now)]
    else entries
  }

  function WithReview(entries: Entries, identity: Identity, verdict: Verdict, state: State,
                      outOfSample: Option<Evidence>, now: int): Entries {
    if identity in entries then
      entries[identity := entries[identity].(verdict := Some(verdict), outOfSample := outOfSample,
                                             state := state, updatedAt := now)]
    else entries
  }

  function WithState(entries: Entries, identity: Identity, state: State, now: int): Entries {
    if identity in entries then entries[identity := entries[identity].(state := state, updatedAt := now)] else entries
  }

  function Refusal(entries: Entries, identity: Identity, state: State): Option<RegistryError> {
    if state.Authorised() then Some(NotWritable)
    else if identity !in entries then Some(NoSuchEntry)
    else None
  }

  class ChampionChallengerRegistry {
    var entries: Entries

    constructor ()
      ensures entries == map[]
    {
      entries := map[];
    }

    /** Refreshes the entry to proposed, whatever state it was in, keeping only its creation time. */
    method UpsertProposed(candidate: Candidate, runId: string, now: int) returns (identity: Identity)
      modifies this
      ensures identity == candidate.spec
      ensures entries == Upserted(old(entries), candidate, runId, now)
      ensures entries.Keys == old(entries).Keys + {identity}
    {
      identity := candidate.spec;
      var created := now;
      if identity in entries {
        created := entries[identity].createdAt;
      }
      entries := entries[identity := Entry(candidate, Proposed, runId, None, None, None, created, now)];
    }

    method RecordBacktest(identity: Identity, evidence: Evidence, now: int) returns (error: Option<RegistryError>)
      modifies this
      ensures error == if identity in old(entries) then None else Some(NoSuchEntry)
      ensures entries == WithBacktest(old(entries), identity, evidence, now)
    {
      if identity !in entries {
        return Some(NoSuchEntry);
      }
      entries := entries[identity :=
          entries[identity].(inSample := Some(evidence), state := Backtested, updatedAt := now)];
      error := None;
    }

    method RecordCritic(identity: Identity, verdict: Verdict, state: State, outOfSample: Option<Evidence>, now: int)
      returns (error: Option<RegistryError>)
      modifies this
      ensures error == Refusal(old(entries), identity, state)
      ensures entries == if error.Some? then old(entries)
                         else WithReview(old(entries), identity, verdict, state, outOfSample, now)
    {
      if state.Authorised() {
        return Some(NotWritable);
      }
      if identity !in entries {
        return Some(NoSuchEntry);
      }
      entries := entries[identity := entries[identity].(verdict := Some(verdict), outOfSample := outOfSample,
                                                        state := state, updatedAt := now)];
      error := None;
    }

    method SetState(identity: Identity, state: State, now: int) returns (error: Option<RegistryError>)
      modifies this
      ensures error == Refusal(old(entries), identity, state)
      ensures entries == if error.Some? then old(entries) else WithState(old(entries), identity, state, now)
    {
      if state.Authorised() {
        return Some(NotWritable);
      }
      if identity !in entries {
        return Some(NoSuchEntry);
      }
      entries := entries[identity := entries[identity].(state := state, updatedAt := now)];
      error := None;
    }
  }

  // ------------------------------------------------------------ approval queue

  /** One pending entry; its id is the pair of its cycle and its identity. */
  datatype QueueEntry = QueueEntry(cycleId: string, identity: Identity, candidate: Candidate, inSample: Evidence,
                                   outOfSample: Option<Evidence>, verdict: Verdict, createdAt: int)

  ghost predicate Waiting(queue: seq<QueueEntry>, cycleId: string, identity: Identity) {
    exists k :: 0 <= k < |queue| && queue[k].cycleId == cycleId && queue[k].identity == identity
  }

  ghost predicate UniqueIds(queue: seq<QueueEntry>) {
    forall j, k :: 0 <= j < k < |queue| ==>
        queue[j].cycleId != queue[k].cycleId || queue[j].identity != queue[k].identity
  }

  ghost function Appended(queue: seq<QueueEntry>, entry: QueueEntry): seq<QueueEntry> {
    if Waiting(queue, entry.cycleId, entry.identity) then queue else queue + [entry]
  }

  class ApprovalQueue {
    var entries: seq<QueueEntry>

    constructor ()
      ensures entries == []
    {
      entries := [];
    }

    /** Appends unless this cycle already queued the identity; never changes or removes what is there. */
    method Append(entry: QueueEntry)
      modifies this
      ensures entries == Appended(old(entries), entry)
      ensures old(entries) <= entries
      ensures Waiting(entries, entry.cycleId, entry.identity)
      ensures old(UniqueIds(entries)) ==> UniqueIds(entries)
    {
      for k := 0 to |entries|
        invariant entries == old(entries)
        invariant forall j :: 0 <= j < k ==>
               entries[j].cycleId != entry.cycleId || entries[j].identity != entry.identity
      {
        if entries[k].cycleId == entry.cycleId && entries[k].identity == entry.identity {
          return;
        }
      }
      entries := entries + [entry];
      assert entries[|entries| - 1] == entry;
    }
  }
}
