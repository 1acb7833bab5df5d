/**
 The Artifact Forge ledger: one record per game session and idempotency key, from an accepted intent over an
 associated SimOps run to at most one game outcome. The manager's calls hold a mutex, so each is one atomic step;
 what the run store and the eligibility store answer is the environment's choice. Messages are not modelled.
 */
module ArtifactForge {
  import opened Prelude

  type Time = int

  datatype Decision =
    | AwaitingRun
    | RunFailed
    | RunLaunchRetryable
    | TelemetryIneligible
    | ArtifactIncomplete
    | ArtifactIneligible
    | IntegrityFailed
    | ResultMissing
    | LineageMissing
    | LineageIneligible
    | OutcomeApplied
    | IntentRejected

  datatype EventType =
    | IntentAccepted | IntentRejectedEvent | RunAssociated | LaunchRetryable
    | EligibilityEvaluated | OutcomeAppliedEvent

  /** `index` and type are what the source hashes into the event id. */
  datatype Event = Event(
    index: nat, eventType: EventType, run: Option<string>, artifact: string, lineage: string, decision: Decision,
    occurredAt: Time)

  datatype Outcome = Outcome(reactor: string, artifact: string, lineage: string, value: string)

  /** Session and idempotency key. */
  type Key = (string, string)

  datatype Record = Record(
    session: string, key: string, reactor: string, job: string, recipe: string, submittedBy: string,
    run: Option<string>, decision: Decision, outcome: Option<Outcome>, artifact: string, lineage: string,
    events: seq<Event>, createdAt: Time, updatedAt: Time, lastActivityAt: Time, retainUntil: Time)

  type Records = map<Key, Record>

  datatype Request = Request(
    session: string, reactor: string, job: string, jobState: string, recipe: string, key: string)

  // ---------------------------------------------------------------- what the environment answers

  datatype Launch = LaunchOk(run: string) | LaunchErrFound(run: string) | LaunchErrLost

  /** The lifecycle an associated run is found in; Unfinished stands for every other one. */
  datatype RunSeen = NoRun | RunFailedSeen | RunStoppedSeen | RunComplete | Unfinished

  datatype ResultArtifact = ResultArtifact(
    id: string, kind: string, mediaType: string, schemaVersion: string, recipe: string, status: string,
    integrity: string,
    complete: bool)

  datatype Lineage = Lineage(
    schemaVersion: string, id: string, valueBasis: string, inputs: seq<(string, string)>,
    artifacts: seq<(string, string)>)

  datatype Evidence = Evidence(
    artifact: ResultArtifact, hasResult: bool, expectedValue: Option<string>, lineage: Option<Lineage>)

  datatype Eligibility = NoStore | NotFound | ReadFails | Found(evidence: Evidence)

  datatype Environment = Environment(launch: Launch, runs: string -> RunSeen, eligibility: Eligibility)

  // ---------------------------------------------------------------- records

  const DAY: Time := 86400

  function Retained(r: Record, at: Time): Record
  {
    r.(lastActivityAt := at, retainUntil := at + DAY + 7 * DAY)
  }

  function NewEvent(r: Record, eventType: EventType, now: Time): Event
  {
    Event(|r.events| + 1, eventType, r.run, r.artifact, r.lineage, r.decision, now)
  }

  function Log(r: Record, eventType: EventType, now: Time): Record
  {
    r.(events := r.events + [NewEvent(r, eventType, now)])
  }

  /** Whether appendEvaluationEvent drops an event because it repeats the last evaluation. */
  predicate Repeats(events: seq<Event>, e: Event)
  {
    && events != []
    && var last := events[|events| - 1];
       last.eventType == EligibilityEvaluated && last.decision == e.decision && last.artifact == e.artifact
         && last.lineage == e.lineage
  }

  function LogEvaluation(r: Record, eventType: EventType, now: Time): Record
  {
    if Repeats(r.events, NewEvent(r, eventType, now)) then r else Log(r, eventType, now)
  }

  // ---------------------------------------------------------------- eligibility

  const ELIGIBLE_KIND := "simulated-result-state"
  const ELIGIBLE_MEDIA := "application/vnd.radiant.simops-result+json"
  const RESULT_SCHEMA := "simops.result.v1"
  const LINEAGE_SCHEMA := "digital-twin.lineage.v1"
  const COMMITTED := "projection-committed"
  const VERIFIED := "verified"
  const RECIPE := "scheduler-drift"

  predicate Names(l: Lineage, kind: string, id: string)
  {
    (kind, id) in l.inputs
  }

  /** What artifactForgeLineageEligible demands: the lineage binds session, reactor, run, recipe and artifact. */
  predicate Binds(l: Lineage, r: Record, a: ResultArtifact)
  {
    && l.schemaVersion == LINEAGE_SCHEMA && l.valueBasis == "simulated" && !Blank(l.id)
    && Names(l, "game-session", r.session) && Names(l, "fleet-reactor", r.reactor)
    && (r.run.Some? && Names(l, "simulation-run", r.run.value)) && Names(l, "simulation-recipe", r.recipe)
    && (a.id, a.mediaType) in l.artifacts
  }

  method LineageEligible(l: Lineage, r: Record, a: ResultArtifact) returns (ok: bool)
    requires r.run.Some?
    ensures ok <==> Binds(l, r, a)
  {
    if l.schemaVersion != LINEAGE_SCHEMA || l.valueBasis != "simulated" || Blank(l.id) {
      return false;
    }
    var required := [("game-session", r.session), ("fleet-reactor", r.reactor),
                     ("simulation-run", r.run.value), ("simulation-recipe", r.recipe)];
    for i := 0 to |required|
      invariant forall k :: 0 <= k < i ==> required[k] in l.inputs
    {
      var found := false;
      for j := 0 to |l.inputs|
        invariant !found && forall k :: 0 <= k < j ==> l.inputs[k] != required[i]
      {
        if l.inputs[j] == required[i] {
          found := true;
          break;
        }
      }
      if !found {
        assert required[i] !in l.inputs;
        assert required[0] == ("game-session", r.session) && required[1] == ("fleet-reactor", r.reactor)
               && required[2] == ("simulation-run", r.run.value) && required[3] == ("simulation-recipe", r.recipe);
        return false;
      }
    }
    assert required[0] in l.inputs && required[1] in l.inputs && required[2] in l.inputs && required[3] in l.inputs;
    for j := 0 to |l.artifacts|
      invariant forall k :: 0 <= k < j ==> l.artifacts[k] != (a.id, a.mediaType)
    {
      if l.artifacts[j] == (a.id, a.mediaType) {
        return true;
      }
    }
    return false;
  }

  /** The decision on a completed run's evidence, in the order evaluate asks its questions. */
  function Judge(r: Record, e: Evidence): Decision
  {
    var a := e.artifact;
    if a.status != COMMITTED || !a.complete then ArtifactIncomplete
    else if a.kind != ELIGIBLE_KIND || a.mediaType != ELIGIBLE_MEDIA || a.schemaVersion != RESULT_SCHEMA
      || a.recipe != r.recipe
    then ArtifactIneligible
    else if a.integrity != VERIFIED then IntegrityFailed
    else if !e.hasResult || e.expectedValue.None? then ResultMissing
    else if e.lineage.None? then LineageMissing
    else if !Binds(e.lineage.value, r, a) then LineageIneligible
    else OutcomeApplied
  }

  /** recordDecision */
  function Decided(r: Record, decision: Decision, artifact: string, lineage: string, now: Time): Record
  {
    LogEvaluation(
      r.(decision := decision, artifact := if artifact != "" then artifact else r.artifact,
         lineage := if lineage != "" then lineage else r.lineage, updatedAt := now),
      EligibilityEvaluated, now)
  }

  /** The record once its eligible artifact has produced the outcome. */
  function Applied(r: Record, e: Evidence, now: Time): Record
    requires e.expectedValue.Some? && e.lineage.Some?
  {
    var lineage := e.lineage.value.id;
    Log(LogEvaluation(
          r.(decision := OutcomeApplied, artifact := e.artifact.id, lineage := lineage,
             outcome := Some(Outcome(r.reactor, e.artifact.id, lineage, e.expectedValue.value)), updatedAt := now),
          EligibilityEvaluated, now),
        OutcomeAppliedEvent, now)
  }

  function LineageOf(decision: Decision, e: Evidence): string
  {
    if decision == LineageIneligible && e.lineage.Some? then e.lineage.value.id else ""
  }

  /** evaluate, on a record with an associated run; a failing read leaves the record as it is stored. */
  function Evaluated(r: Record, env: Environment, now: Time): Record
    requires r.run.Some?
  {
    match env.runs(r.run.value)
    case NoRun => r
    case RunFailedSeen => Decided(r, RunFailed, "", "", now)
    case RunStoppedSeen => Decided(r, RunFailed, "", "", now)
    case Unfinished => r.(decision := AwaitingRun, updatedAt := now)
    case RunComplete =>
      match env.eligibility
      case NoStore => r
      case ReadFails => r
      case NotFound => Decided(r, TelemetryIneligible, "", "", now)
      case Found(e) =>
        var decision := Judge(r, e);
        if decision == OutcomeApplied
          then Applied(r, e, now) else Decided(r, decision, e.artifact.id, LineageOf(decision, e), now)
  }

  /** associateRun: the run is launched, found again, or stays missing for a later retry. */
  function Associated(r: Record, env: Environment, now: Time): Record
  {
    match env.launch
    case LaunchErrLost => LogEvaluation(r.(decision := RunLaunchRetryable, updatedAt := now), LaunchRetryable, now)
    case LaunchOk(run) => Log(r.(run := Some(run), decision := AwaitingRun, updatedAt := now), RunAssociated, now)
    case LaunchErrFound(run) => Evaluated(Log(r.(run := Some(run), decision := AwaitingRun, updatedAt := now),
        RunAssociated, now), env, now)
  }

  /** resume */
  function Resumed(r: Record, env: Environment, now: Time): Record
  {
    if r.outcome.Some? || r.decision == IntentRejected then r
    else if r.run.None? then Associated(r, env, now)
    else Evaluated(r, env, now)
  }

  // ---------------------------------------------------------------- requests

  predicate IdentifierChar(c: char)
  {
    'A' <= c <= 'Z' || 'a' <= c <= 'z' || '0' <= c <= '9'
  }

  /** The identifiers runIDPattern matches. */
  predicate Identifier(s: string)
  {
    && 1 <= |s| <= 128 && IdentifierChar(s[0])
    && forall i :: 0 <= i < |s| ==> IdentifierChar(s[i]) || s[i] in {'_', '.', ':', '-'}
  }

  function Normalized(q: Request): Request
  {
    Request(Trim(q.session), Trim(q.reactor), Trim(q.job), Trim(q.jobState), Trim(q.recipe), Trim(q.key))
  }

  predicate ValidRequest(q: Request)
  {
    && Identifier(q.session) && Identifier(q.reactor) && Identifier(q.job) && Identifier(q.key)
    && q.jobState != "" && q.recipe != ""
  }

  function NewRecord(q: Request, identity: string, now: Time): Record
  {
    Retained(
      Record(q.session, q.key, q.reactor, q.job, q.recipe, identity, None, AwaitingRun, None, "", "", [],
             now, now, now, now),
      now)
  }

  /** Whether a record counts against the caps. */
  predicate IsActive(r: Record)
  {
    r.outcome.None? && r.decision != IntentRejected && r.decision != RunFailed
  }

  function Active(records: Records, session: string): set<Key>
  {
    set k | k in records && Counts(records, k, session)
  }

  predicate Counts(records: Records, k: Key, session: string)
  {
    k in records && records[k].session == session && IsActive(records[k])
  }

  const SESSION_CAP := 4

  /** What enforceCaps allows: a reactor without an active request in a session with fewer than four. */
  predicate CapsAllow(records: Records, session: string, reactor: string)
  {
    && (forall k :: k in records && Counts(records, k, session) ==> records[k].reactor != reactor)
    && |Active(records, session)| < SESSION_CAP
  }

  function Touched(records: Records, session: string, at: Time): Records
  {
    map k | k in records :: if records[k].session == session then Retained(records[k], at) else records[k]
  }

  predicate Expired(r: Record, now: Time)
  {
    r.retainUntil != 0 && r.retainUntil <= now
  }

  function Pruned(records: Records, now: Time): Records
  {
    map k | k in records && !Expired(records[k], now) :: records[k]
  }

  function KeyOf(q: Request): Key
  {
    (q.session, q.key)
  }

  predicate SameRequest(r: Record, q: Request)
  {
    r.reactor == q.reactor && r.job == q.job && r.recipe == q.recipe
  }

  /** The record of a new key: rejected, or accepted and associated. */
  function Opened(q: Request, identity: string, env: Environment, now: Time): Record
  {
    var r := NewRecord(q, identity, now);
    if q.jobState != "completed" || q.recipe != RECIPE
    then Log(r.(decision := IntentRejected), IntentRejectedEvent, now)
    else Associated(Log(r, IntentAccepted, now), env, now)
  }

  function Requested(records: Records, request: Request, identity: string, env: Environment, now: Time): Records
  {
    var q := Normalized(request);
    if !ValidRequest(q) then records
    else
      var touched := Touched(records, q.session, now);
      if KeyOf(q) in touched then
        if SameRequest(touched[KeyOf(q)], q) then touched[KeyOf(q) := Resumed(touched[KeyOf(q)], env, now)] else touched
      else if q.jobState == "completed" && q.recipe == RECIPE && !CapsAllow(touched, q.session, q.reactor) then touched
      else touched[KeyOf(q) := Opened(q, identity, env, now)]
  }

  function Recovered(records: Records, session: string, key: string, env: Environment, now: Time): Records
  {
    var k := (Trim(session), Trim(key));
    if !Identifier(k.0) || !Identifier(k.1) || k !in records then records
    else records[k := Resumed(records[k], env, now)]
  }

  // ---------------------------------------------------------------- what the manager answers

  datatype Failure =
    | InvalidRequest | DifferentRequest | NoRecord | CapReached
    | RunUnavailable | NoEligibilityStore | EligibilityUnreadable

  /** The record as it is stored after the call, or why there is none to show. */
  function Answered(failure: Option<Failure>, r: Record): Result<Record, Failure>
  {
    if failure.Some? then Err(failure.value) else Ok(r)
  }

  /** An evaluation answers with an error where it cannot read the run or, once that is complete, its evidence. */
  function EvaluationFailure(run: string, env: Environment): Option<Failure>
  {
    match env.runs(run)
    case NoRun => Some(RunUnavailable)
    case RunComplete =>
      if env.eligibility.NoStore? then Some(NoEligibilityStore)
      else if env.eligibility.ReadFails? then Some(EligibilityUnreadable)
      else None
    case _ => None
  }

  /** A lost launch is no error; one that is found again is evaluated at once. */
  function AssociationFailure(env: Environment): Option<Failure>
  {
    if env.launch.LaunchErrFound? then EvaluationFailure(env.launch.run, env) else None
  }

  function ResumeFailure(r: Record, env: Environment): Option<Failure>
  {
    if r.outcome.Some? || r.decision == IntentRejected then None
    else if r.run.None? then AssociationFailure(env)
    else EvaluationFailure(r.run.value, env)
  }

  function RequestFailure(records: Records, request: Request, env: Environment, now: Time): Option<Failure>
  {
    var q := Normalized(request);
    if !ValidRequest(q) then Some(InvalidRequest)
    else
      var touched := Touched(records, q.session, now);
      if KeyOf(q) in touched then
        if SameRequest(touched[KeyOf(q)], q) then ResumeFailure(touched[KeyOf(q)], env) else Some(DifferentRequest)
      else OpeningFailure(touched, q, env)
  }

  function OpeningFailure(records: Records, q: Request, env: Environment): Option<Failure>
  {
    if q.jobState != "completed" || q.recipe != RECIPE then None
    else if !CapsAllow(records, q.session, q.reactor) then Some(CapReached)
    else AssociationFailure(env)
  }

  function RecoveryFailure(records: Records, session: string, key: string, env: Environment): Option<Failure>
  {
    var k := (Trim(session), Trim(key));
    if !Identifier(k.0) || !Identifier(k.1) then Some(InvalidRequest)
    else if k !in records then Some(NoRecord)
    else ResumeFailure(records[k], env)
  }

  // ---------------------------------------------------------------- the manager

  /** Every record lies under its own session and key. */
  ghost predicate Filed(records: Records)
  {
    forall k :: k in records ==> k == (records[k].session, records[k].key)
  }

  class InMemoryArtifactForgeStore {
    var records: Records

    constructor ()
      ensures records == map[]
    {
      records := map[];
    }

    /** An applied outcome can be neither removed nor replaced. */
    method Save(r: Record) returns (ok: bool)
      modifies this
      ensures var k := (r.session, r.key);
        && (ok <==> (k in old(records) && old(records)[k].outcome.Some? ==> r.outcome == old(records)[k].outcome))
        && records == if ok then old(records)[k := r] else old(records)
    {
      var k := (r.session, r.key);
      if k in records && records[k].outcome.Some? && r.outcome != records[k].outcome {
        return false;
      }
      records := records[k := r];
      return true;
    }

    method TouchSession(session: string, at: Time, order: seq<Key>)
      requires Visits(order, records.Keys)
      modifies this
      ensures records == Touched(old(records), session, at)
    {
      ghost var before := records;
      for i := 0 to |order|
        invariant records.Keys == before.Keys
        invariant forall k :: k in before ==>
          records[k] == if k in order[..i] then Touched(before, session, at)[k] else before[k]
      {
        var k := order[i];
        assert k in order && k !in order[..i];
        assert order[..i + 1] == order[..i] + [k];
        if records[k].session == session {
          records := records[k := Retained(records[k], at)];
        }
      }
      assert order[..|order|] == order;
    }

    method PruneExpired(now: Time, order: seq<Key>) returns (removed: nat)
      requires Visits(order, records.Keys)
      modifies this
      ensures records == Pruned(old(records), now)
    {
      removed := 0;
      ghost var before := records;
      for i := 0 to |order|
        invariant forall k :: k in records <==> k in before && !(k in order[..i] && Expired(before[k], now))
        invariant forall k :: k in records ==> records[k] == before[k]
      {
        var k := order[i];
        assert k in order && k !in order[..i];
        assert order[..i + 1] == order[..i] + [k];
        if records[k].retainUntil != 0 && records[k].retainUntil <= now {
          records := records - {k};
          removed := removed + 1;
        }
      }
      assert order[..|order|] == order;
    }
  }

  class ArtifactForgeManager {
    const store: InMemoryArtifactForgeStore

    constructor (store: InMemoryArtifactForgeStore)
      ensures this.store == store
    {
      this.store := store;
    }

    /** One pass over the session's records, stopping at the reactor's own active request. */
    method EnforceCaps(session: string, reactor: string, order: seq<Key>) returns (ok: bool)
      requires Visits(order, store.records.Keys)
      ensures ok <==> CapsAllow(store.records, session, reactor)
    {
      var active := 0;
      ghost var counted: set<Key> := {};
      for i := 0 to |order|
        invariant active == |counted|
        invariant forall k :: k in counted <==> k in order[..i] && Counts(store.records, k, session)
        invariant forall k :: k in order[..i] && Counts(store.records, k, session) ==>
          store.records[k].reactor != reactor
      {
        assert order[i] in order && order[i] !in order[..i];
        assert order[..i + 1] == order[..i] + [order[i]];
        if Counts(store.records, order[i], session) {
          active := active + 1;
          counted := counted + {order[i]};
          if store.records[order[i]].reactor == reactor {
            return false;
          }
        }
      }
      assert order[..|order|] == order;
      assert counted == Active(store.records, session);
      return active < SESSION_CAP;
    }

    method RecordDecision(
      r: Record, decision: Decision, artifact: string, lineage: string, now: Time) returns (next: Record)
      requires (r.session, r.key) in store.records && store.records[(r.session, r.key)].outcome.None? && r.outcome.None?
      modifies store
      ensures next == Decided(r, decision, artifact, lineage, now)
      ensures store.records == old(store.records)[(r.session, r.key) := next]
    {
      next := r.(decision := decision);
      if artifact != "" {
        next := next.(artifact := artifact);
      }
      if lineage != "" {
        next := next.(lineage := lineage);
      }
      next := next.(updatedAt := now);
      if !Repeats(next.events, NewEvent(next, EligibilityEvaluated, now)) {
        next := next.(events := next.events + [NewEvent(next, EligibilityEvaluated, now)]);
      }
      var saved := store.Save(next);
    }

    method Evaluate(r: Record, env: Environment, now: Time) returns (a: Result<Record, Failure>)
      requires r.run.Some? && r.outcome.None?
      requires (r.session, r.key) in store.records && store.records[(r.session, r.key)] == r
      modifies store
      ensures store.records == old(store.records)[(r.session, r.key) := Evaluated(r, env, now)]
      ensures a == Answered(EvaluationFailure(r.run.value, env), Evaluated(r, env, now))
    {
      var seen := env.runs(r.run.value);
      if seen == NoRun || (seen == RunComplete && (env.eligibility == NoStore || env.eligibility == ReadFails)) {
        assert store.records == store.records[(r.session, r.key) := r];
        return Err(if seen == NoRun then RunUnavailable
                   else if env.eligibility == NoStore then NoEligibilityStore else EligibilityUnreadable);
      }
      var next: Record;
      if seen == RunFailedSeen || seen == RunStoppedSeen {
        next := RecordDecision(r, RunFailed, "", "", now);
      } else if seen == Unfinished {
        next := r.(decision := AwaitingRun, updatedAt := now);
        var saved := store.Save(next);
      } else if env.eligibility == NotFound {
        next := RecordDecision(r, TelemetryIneligible, "", "", now);
      } else {
        next := EvaluateEvidence(r, env.eligibility.evidence, now);
      }
      return Ok(next);
    }

    method EvaluateEvidence(r: Record, e: Evidence, now: Time) returns (next: Record)
      requires r.run.Some? && r.outcome.None?
      requires (r.session, r.key) in store.records && store.records[(r.session, r.key)] == r
      modifies store
      ensures var decision := Judge(r, e);
        next == if decision == OutcomeApplied
          then Applied(r, e, now) else Decided(r, decision, e.artifact.id, LineageOf(decision, e), now)
      ensures store.records == old(store.records)[(r.session, r.key) := next]
    {
      var a := e.artifact;
      if a.status != COMMITTED || !a.complete {
        next := RecordDecision(r, ArtifactIncomplete, a.id, "", now);
        return;
      }
      if a.kind != ELIGIBLE_KIND || a.mediaType != ELIGIBLE_MEDIA || a.schemaVersion != RESULT_SCHEMA
        || a.recipe != r.recipe {
        next := RecordDecision(r, ArtifactIneligible, a.id, "", now);
        return;
      }
      if a.integrity != VERIFIED {
        next := RecordDecision(r, IntegrityFailed, a.id, "", now);
        return;
      }
      if !e.hasResult || e.expectedValue.None? {
        next := RecordDecision(r, ResultMissing, a.id, "", now);
        return;
      }
      if e.lineage.None? {
        next := RecordDecision(r, LineageMissing, a.id, "", now);
        return;
      }
      var bound := LineageEligible(e.lineage.value, r, a);
      if !bound {
        next := RecordDecision(r, LineageIneligible, a.id, e.lineage.value.id, now);
        return;
      }
      next := Applied(r, e, now);
      var saved := store.Save(next);
    }

    method AssociateRun(r: Record, env: Environment, now: Time) returns (a: Result<Record, Failure>)
      requires r.run.None? && r.outcome.None?
      requires (r.session, r.key) in store.records && store.records[(r.session, r.key)] == r
      modifies store
      ensures store.records == old(store.records)[(r.session, r.key) := Associated(r, env, now)]
      ensures a == Answered(AssociationFailure(env), Associated(r, env, now))
    {
      if env.launch == LaunchErrLost {
        var next := LogEvaluation(r.(decision := RunLaunchRetryable, updatedAt := now), LaunchRetryable, now);
        var saved := store.Save(next);
        return Ok(next);
      }
      var next := r.(run := Some(env.launch.run), decision := AwaitingRun, updatedAt := now);
      next := Log(next, RunAssociated, now);
      var saved := store.Save(next);
      if env.launch.LaunchErrFound? {
        a := Evaluate(next, env, now);
        return;
      }
      return Ok(next);
    }

    method Resume(k: Key, env: Environment, now: Time) returns (a: Result<Record, Failure>)
      requires k in store.records && Filed(store.records)
      modifies store
      ensures store.records == old(store.records)[k := Resumed(old(store.records)[k], env, now)]
      ensures a == Answered(ResumeFailure(old(store.records)[k], env), store.records[k])
    {
      var r := store.records[k];
      assert k == (r.session, r.key);
      if r.outcome.Some? || r.decision == IntentRejected {
        assert store.records == store.records[k := r];
        return Ok(r);
      }
      if r.run.None? {
        a := AssociateRun(r, env, now);
      } else {
        a := Evaluate(r, env, now);
      }
    }

    /** The record of the request's key as it is stored then, and whether this call created it. */
    method RequestForge(request: Request, identity: string, env: Environment, order: seq<Key>, now: Time)
      returns (a: Result<Record, Failure>, created: bool)
      requires Visits(order, store.records.Keys) && Filed(store.records)
      modifies store
      ensures store.records == Requested(old(store.records), request, identity, env, now)
      ensures var k, failure := KeyOf(Normalized(request)), RequestFailure(old(store.records), request, env, now);
        && (failure.None? ==> k in store.records && a == Ok(store.records[k]))
        && (failure.Some? ==> a == Err(failure.value))
        && (created <==> k in store.records && k !in old(store.records))
    {
      created := false;
      var q := Normalized(request);
      if !ValidRequest(q) {
        a := Err(InvalidRequest);
        return;
      }
      store.TouchSession(q.session, now, order);
      if KeyOf(q) in store.records {
        if !SameRequest(store.records[KeyOf(q)], q) {
          a := Err(DifferentRequest);
          return;
        }
        a := Resume(KeyOf(q), env, now);
        return;
      }
      a, created := Open(q, identity, env, order, now);
    }

    /** The part of Request for a new key. */
    method Open(q: Request, identity: string, env: Environment, order: seq<Key>, now: Time)
      returns (a: Result<Record, Failure>, created: bool)
      requires Visits(order, store.records.Keys) && KeyOf(q) !in store.records
      modifies store
      ensures store.records ==
        if q.jobState == "completed" && q.recipe == RECIPE && !CapsAllow(old(store.records), q.session, q.reactor)
        then old(store.records) else old(store.records)[KeyOf(q) := Opened(q, identity, env, now)]
      ensures a == Answered(OpeningFailure(old(store.records), q, env), Opened(q, identity, env, now))
      ensures created <==> KeyOf(q) in store.records
    {
      var r := NewRecord(q, identity, now);
      if q.jobState != "completed" || q.recipe != RECIPE {
        r := Log(r.(decision := IntentRejected), IntentRejectedEvent, now);
        var saved := store.Save(r);
        a, created := Ok(r), true;
        return;
      }
      var allowed := EnforceCaps(q.session, q.reactor, order);
      if !allowed {
        a, created := Err(CapReached), false;
        return;
      }
      r := Log(r, IntentAccepted, now);
      var saved := store.Save(r);
      a := AssociateRun(r, env, now);
      created := true;
    }

    method Recover(session: string, key: string, env: Environment, now: Time) returns (a: Result<Record, Failure>)
      requires Filed(store.records)
      modifies store
      ensures store.records == Recovered(old(store.records), session, key, env, now)
      ensures var k, failure := (Trim(session), Trim(key)), RecoveryFailure(old(store.records), session, key, env);
        && (failure.None? ==> k in store.records && a == Ok(store.records[k]))
        && (failure.Some? ==> a == Err(failure.value))
    {
      var k := (Trim(session), Trim(key));
      if !Identifier(k.0) || !Identifier(k.1) {
        return Err(InvalidRequest);
      }
      if k !in store.records {
        return Err(NoRecord);
      }
      a := Resume(k, env, now);
    }

    method ReconcileExpired(cancelled: bool, now: Time, order: seq<Key>) returns (removed: nat)
      requires Visits(order, store.records.Keys)
      modifies store
      ensures store.records == if cancelled then old(store.records) else Pruned(old(store.records), now)
    {
      if cancelled {
        return 0;
      }
      removed := store.PruneExpired(now, order);
    }
  }
}
