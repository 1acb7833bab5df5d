/**
 The SimOps artifact intent processor: telemetry events are buffered per run, cut into batches, and each batch is
 handed to the artifact writer. With a delivery store, an attempt ledger decides whether a batch may be written.
 */
module ArtifactDelivery {
  import opened Prelude

  type Time = int

  datatype Event = Event(run: string, eventType: string, frame: string, topic: string, partition: int, offset: int)

  /** The artifact fields a writer may change in Prepare. */
  datatype Artifact = Artifact(id: string, run: string, location: string, table: string)

  datatype Plan = Plan(
    artifact: Artifact, attempt: Option<Request>, topic: string, sequence: nat, count: nat, events: seq<Event>)

  // ---------------------------------------------------------------- delivery attempts

  datatype Coordinate = Coordinate(topic: string, partition: int, offset: int)

  /** What identifies an attempt; the source uses a hash of it. */
  datatype Request = Request(run: string, target: string, coordinates: seq<Coordinate>)

  datatype AttemptState = Pending | Unknown | Resolved

  datatype Evidence = Evidence(assurance: string, coordinates: seq<Coordinate>, observedAt: Time)

  datatype Attempt = Attempt(
    state: AttemptState, coordinates: seq<Coordinate>, location: string, reason: string, evidence: Option<Evidence>)

  datatype Ledger = Ledger(runs: set<string>, attempts: map<Request, Attempt>)

  predicate ValidCoordinate(c: Coordinate)
  {
    !Blank(c.topic) && c.partition >= 0 && c.offset >= 0
  }

  /** The requests deliveryAttemptID accepts. */
  predicate ValidRequest(r: Request)
  {
    !Blank(r.run) && !Blank(r.target) && r.coordinates != [] && forall i :: 0 <= i < |r.coordinates| ==>
      ValidCoordinate(r.coordinates[i])
  }

  predicate Creatable(l: Ledger, r: Request)
  {
    ValidRequest(r) && r.run in l.runs
  }

  function CreateAttempt(l: Ledger, r: Request): Ledger
    requires Creatable(l, r)
  {
    if r in l.attempts then l else l.(attempts := l.attempts[r := Attempt(Pending, r.coordinates, "", "", None)])
  }

  function Located(l: Ledger, r: Request, location: string): Ledger
  {
    if r !in l.attempts then l else l.(attempts := l.attempts[r := l.attempts[r].(location := location)])
  }

  /** ResolveDeliveryAttempt: the evidence gets the attempt's own coordinates. */
  function ResolveAttempt(l: Ledger, r: Request, e: Evidence): Ledger
  {
    if r !in l.attempts then l
    else
      var a := l.attempts[r];
      var evidence := Some(e.(coordinates := a.coordinates));
      l.(attempts := l.attempts[r := a.(evidence := evidence, state := Resolved, reason := "")])
  }

  function MarkUnknown(l: Ledger, r: Request, reason: string): Ledger
  {
    if r !in l.attempts then l
    else l.(attempts := l.attempts[r := l.attempts[r].(state := Unknown, reason := reason)])
  }

  class InMemoryDeliveryStore {
    var ledger: Ledger

    constructor (runs: set<string>)
      ensures ledger == Ledger(runs, map[])
    {
      ledger := Ledger(runs, map[]);
    }

    method CreateDeliveryAttempt(r: Request) returns (a: Option<Attempt>)
      modifies this
      ensures a.Some? <==> Creatable(old(ledger), r)
      ensures a.Some? ==> ledger == CreateAttempt(old(ledger), r) && a.value == ledger.attempts[r]
      ensures a.None? ==> ledger == old(ledger)
    {
      if !ValidRequest(r) || r.run !in ledger.runs {
        return None;
      }
      if r !in ledger.attempts {
        ledger := ledger.(attempts := ledger.attempts[r := Attempt(Pending, r.coordinates, "", "", None)]);
      }
      return Some(ledger.attempts[r]);
    }

    method PrepareDeliveryAttempt(r: Request, location: string)
      modifies this
      ensures ledger == Located(old(ledger), r, location)
    {
      if r in ledger.attempts {
        ledger := ledger.(attempts := ledger.attempts[r := ledger.attempts[r].(location := location)]);
      }
    }

    method ResolveDeliveryAttempt(r: Request, e: Evidence)
      modifies this
      ensures ledger == ResolveAttempt(old(ledger), r, e)
    {
      if r in ledger.attempts {
        var a := ledger.attempts[r];
        a := a.(evidence := Some(e.(coordinates := a.coordinates)), state := Resolved, reason := "");
        ledger := ledger.(attempts := ledger.attempts[r := a]);
      }
    }

    method MarkDeliveryAttemptUnknown(r: Request, reason: string)
      modifies this
      ensures ledger == MarkUnknown(old(ledger), r, reason)
    {
      if r in ledger.attempts {
        ledger := ledger.(attempts := ledger.attempts[r := ledger.attempts[r].(state := Unknown, reason := reason)]);
      }
    }
  }

  /** deliveryCoordinates: where each event of a batch came from. */
  function CoordinateOf(topic: string, e: Event): Coordinate
  {
    Coordinate(if Blank(e.topic) then topic else Trim(e.topic), e.partition, e.offset)
  }

  function Coordinates(topic: string, events: seq<Event>): seq<Coordinate>
  {
    seq(|events|, i requires 0 <= i < |events| => CoordinateOf(topic, events[i]))
  }

  method DeliveryCoordinates(topic: string, events: seq<Event>) returns (coordinates: seq<Coordinate>)
    ensures coordinates == Coordinates(topic, events)
  {
    coordinates := [];
    for i := 0 to |events|
      invariant coordinates == Coordinates(topic, events[..i])
    {
      coordinates := coordinates + [CoordinateOf(topic, events[i])];
    }
    assert events[..|events|] == events;
  }

  // ---------------------------------------------------------------- the system around one event

  datatype RunState = RunState(artifact: Artifact, sequence: nat, pending: nat, events: seq<Event>)

  /** A batch as handed to the writer's Prepare, and a plan as given to WriteArtifact. */
  datatype Handed = Handed(run: string, plan: Plan)

  datatype System = System(
    states: map<string, RunState>, ledger: Option<Ledger>, handed: seq<Handed>, written: seq<Handed>,
    settled: seq<Handed>)

  datatype Config = Config(topic: string, batchSize: nat, assurance: string)

  datatype Reconciliation = NoReconciler | ReconcileFails | StillUnknown | Reconciled(evidence: Evidence)

  /** What context, writer and event log do for one event. `prepared` is whatever plan Prepare returns. */
  datatype Environment = Environment(
    cancelled: bool, reconciliation: Reconciliation, prepared: Option<Plan>, writes: bool, commits: bool,
    publishes: bool,
    reason: string, now: Time)

  /** ensureRunState */
  function FreshState(run: string): RunState
  {
    RunState(Artifact("iceberg-telemetry-" + run, run, "", "simops.telemetry_frames"), 0, 0, [])
  }

  function StateOf(states: map<string, RunState>, run: string): RunState
  {
    if run in states then states[run] else FreshState(run)
  }

  /** The buffer of `run` is dropped, its batch being accounted for. */
  function Settle(s: System, run: string, plan: Plan): System
  {
    var state := StateOf(s.states, run);
    s.(states := s.states[run := state.(pending := 0, events := [])], settled := s.settled + [Handed(run, plan)])
  }

  function WithLedger(s: System, l: Ledger): System
  {
    s.(ledger := Some(l))
  }

  /** Prepare, write and commit a batch. */
  function Write(c: Config, s: System, run: string, plan: Plan, env: Environment): System
  {
    var handed := s.(handed := s.handed + [Handed(run, plan)]);
    if env.prepared.None? then Settle(handed, run, plan)
    else
      var prepared := env.prepared.value;
      var located := if plan.attempt.Some? && s.ledger.Some?
                     then WithLedger(handed, Located(s.ledger.value, plan.attempt.value, prepared.artifact.location))
                       else handed;
      var written := located.(written := located.written + [Handed(run, prepared.(attempt := plan.attempt))]);
      if !(env.writes && env.commits) then
        Settle(if plan.attempt.Some? && written.ledger.Some?
               then WithLedger(written, MarkUnknown(written.ledger.value, plan.attempt.value, env.reason))
                 else written, run, plan)
      else
        var resolved := if plan.attempt.Some? && written.ledger.Some?
                        then WithLedger(written, ResolveAttempt(written.ledger.value, plan.attempt.value,
                            Evidence(c.assurance, [], env.now)))
                        else written;
        var settled := Settle(resolved, run, plan);
        settled.(states := settled.states[run := settled.states[run].(artifact := prepared.artifact)])
  }

  function RequestOf(c: Config, run: string, plan: Plan): Request
  {
    Request(run, plan.artifact.table, Coordinates(c.topic, plan.events))
  }

  /** A batch that has been cut: the ledger, if there is one, decides whether it is written. */
  function Deliver(c: Config, s: System, run: string, plan: Plan, env: Environment): System
  {
    if s.ledger.None? then Write(c, s, run, plan, env)
    else
      var r := RequestOf(c, run, plan);
      if !Creatable(s.ledger.value, r) then s
      else
        var created := WithLedger(s, CreateAttempt(s.ledger.value, r));
        var named := plan.(attempt := Some(r));
        match created.ledger.value.attempts[r].state
        case Unknown =>
          if env.reconciliation.Reconciled?
          then Settle(WithLedger(created, ResolveAttempt(created.ledger.value, r, env.reconciliation.evidence)), run,
              named)
          else created
        case Resolved => Settle(created, run, named)
        case Pending => Write(c, created, run, named, env)
  }

  const TELEMETRY := "worker.telemetry"

  /** The events the processor buffers: telemetry of a named run, under a live context. */
  predicate Accepts(e: Event, env: Environment)
  {
    !Blank(e.run) && e.eventType == TELEMETRY && !env.cancelled
  }

  function Buffered(state: RunState, e: Event): RunState
  {
    state.(pending := state.pending + 1, events := state.events + [e])
  }

  function PlanOf(c: Config, state: RunState): Plan
  {
    Plan(state.artifact, None, c.topic, state.sequence, state.pending, state.events)
  }

  /** ProcessEvent */
  function Process(c: Config, s: System, e: Event, env: Environment): System
  {
    if !Accepts(e, env) then s
    else
      var grown := Buffered(StateOf(s.states, e.run), e);
      if grown.pending < c.batchSize then s.(states := s.states[e.run := grown])
      else
        var cut := grown.(sequence := grown.sequence + 1);
        Deliver(c, s.(states := s.states[e.run := cut]), e.run, PlanOf(c, cut), env)
  }

  // ---------------------------------------------------------------- what ProcessEvent returns

  /** A written and committed batch counts as ready once its commit intent is published. */
  function WriteAnswer(env: Environment): Result<nat, ()>
  {
    if env.prepared.Some? && env.writes && env.commits && env.publishes then Ok(1) else Err(())
  }

  function DeliverAnswer(c: Config, s: System, run: string, plan: Plan, env: Environment): Result<nat, ()>
  {
    if s.ledger.None? then WriteAnswer(env)
    else
      var r := RequestOf(c, run, plan);
      if !Creatable(s.ledger.value, r) then Err(())
      else
        match CreateAttempt(s.ledger.value, r).attempts[r].state
        case Unknown => if env.reconciliation.Reconciled? then Ok(1) else Err(())
        case Resolved => Ok(1)
        case Pending => WriteAnswer(env)
  }

  /** The number of batches made ready, or an error. */
  function Answer(c: Config, s: System, e: Event, env: Environment): Result<nat, ()>
  {
    if Blank(e.run) || e.eventType != TELEMETRY then Ok(0)
    else if env.cancelled then Err(())
    else
      var grown := Buffered(StateOf(s.states, e.run), e);
      if grown.pending < c.batchSize then Ok(0)
      else
        var cut := grown.(sequence := grown.sequence + 1);
        DeliverAnswer(c, s.(states := s.states[e.run := cut]), e.run, PlanOf(c, cut), env)
  }

  // ---------------------------------------------------------------- the processor

  /** The writer adapter, as the record of the calls it received. */
  class ArtifactWriter {
    var handed: seq<Handed>
    var written: seq<Handed>

    constructor ()
      ensures handed == [] && written == []
    {
      handed, written := [], [];
    }

    method Prepare(run: string, plan: Plan, result: Option<Plan>) returns (prepared: Option<Plan>)
      modifies this`handed
      ensures handed == old(handed) + [Handed(run, plan)] && prepared == result
    {
      handed := handed + [Handed(run, plan)];
      return result;
    }

    method WriteArtifact(run: string, plan: Plan)
      modifies this`written
      ensures written == old(written) + [Handed(run, plan)]
    {
      written := written + [Handed(run, plan)];
    }
  }

  class SimopsArtifactIntentProcessor {
    const config: Config
    const writer: ArtifactWriter
    const store: InMemoryDeliveryStore?
    var states: map<string, RunState>
    ghost var settled: seq<Handed>

    constructor (topic: string, batchSize: int, assurance: string, writer: ArtifactWriter,
        store: InMemoryDeliveryStore?)
      ensures this.writer == writer && this.store == store && states == map[] && settled == []
      ensures config.batchSize >= 1 && (batchSize >= 1 ==> config.batchSize == batchSize)
      ensures config.topic == topic && config.assurance == assurance
    {
      config := Config(topic, if batchSize <= 0 then 1 else batchSize, assurance);
      this.writer, this.store, states, settled := writer, store, map[], [];
    }

    ghost function Snapshot(): System
      reads this, writer, store
    {
      System(states, if store == null then None else Some(store.ledger), writer.handed, writer.written, settled)
    }

    method ClearPending(run: string, plan: Plan)
      modifies this
      ensures Snapshot() == Settle(old(Snapshot()), run, plan)
    {
      var state := StateOf(states, run);
      states := states[run := state.(pending := 0, events := [])];
      settled := settled + [Handed(run, plan)];
    }

    method ProcessEvent(e: Event, env: Environment) returns (r: Result<nat, ()>)
      modifies this, writer, store
      ensures Snapshot() == Process(config, old(Snapshot()), e, env)
      ensures r == Answer(config, old(Snapshot()), e, env)
    {
      if Blank(e.run) || e.eventType != TELEMETRY {
        return Ok(0);
      }
      if env.cancelled {
        return Err(());
      }
      var state := StateOf(states, e.run);
      state := state.(pending := state.pending + 1, events := state.events + [e]);
      if state.pending < config.batchSize {
        states := states[e.run := state];
        return Ok(0);
      }
      state := state.(sequence := state.sequence + 1);
      states := states[e.run := state];
      r := DeliverBatch(e.run, PlanOf(config, state), env);
    }

    method DeliverBatch(run: string, plan: Plan, env: Environment) returns (r: Result<nat, ()>)
      modifies this, writer, store
      ensures Snapshot() == Deliver(config, old(Snapshot()), run, plan, env)
      ensures r == DeliverAnswer(config, old(Snapshot()), run, plan, env)
    {
      if store == null {
        r := WriteBatch(run, plan, env);
        return;
      }
      var coordinates := DeliveryCoordinates(config.topic, plan.events);
      var request := Request(run, plan.artifact.table, coordinates);
      var attempt := store.CreateDeliveryAttempt(request);
      if attempt.None? {
        return Err(());
      }
      var named := plan.(attempt := Some(request));
      if attempt.value.state == Unknown {
        if !env.reconciliation.Reconciled? {
          return Err(());
        }
        store.ResolveDeliveryAttempt(request, env.reconciliation.evidence);
        ClearPending(run, named);
        return Ok(1);
      }
      if attempt.value.state == Resolved {
        ClearPending(run, named);
        return Ok(1);
      }
      r := WriteBatch(run, named, env);
    }

    method WriteBatch(run: string, plan: Plan, env: Environment) returns (r: Result<nat, ()>)
      modifies this, writer, store
      ensures Snapshot() == Write(config, old(Snapshot()), run, plan, env)
      ensures r == WriteAnswer(env)
    {
      var result := writer.Prepare(run, plan, env.prepared);
      if result.None? {
        ClearPending(run, plan);
        return Err(());
      }
      var prepared := result.value;
      if store != null && plan.attempt.Some? {
        store.PrepareDeliveryAttempt(plan.attempt.value, prepared.artifact.location);
      }
      writer.WriteArtifact(run, prepared.(attempt := plan.attempt));
      if !(env.writes && env.commits) {
        if store != null && plan.attempt.Some? {
          store.MarkDeliveryAttemptUnknown(plan.attempt.value, env.reason);
        }
        ClearPending(run, plan);
        return Err(());
      }
      if store != null && plan.attempt.Some? {
        store.ResolveDeliveryAttempt(plan.attempt.value, Evidence(config.assurance, [], env.now));
      }
      ClearPending(run, plan);
      states := states[run := states[run].(artifact := prepared.artifact)];
      return if env.publishes then Ok(1) else Err(());
    }
  }
}
