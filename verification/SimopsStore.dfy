/**
 The in-memory SimOps store. Its maps of runs, workers, artifacts, events, intents and evidence are all keyed
 by run id; they appear here as one map of run files. Each operation is proved against a function on files.
 */
module SimopsStore {
  import opened Prelude
  import opened SimopsState

  datatype Error = RunNotFound | ArtifactNotFound | Conflict

  /** A run record; its zero `State` is None. */
  datatype Run = Run(
    id: string, lifecycle: Lifecycle, state: Option<RunState>, idempotencyKey: string, submittedBy: string,
    updatedAt: Time)

  datatype ArtifactStatus = Received | ArtifactFailed | OtherStatus(text: string)

  datatype Artifact = Artifact(id: string, run: string, kind: string, status: ArtifactStatus)

  datatype Event = Event(
    run: string, worker: string, eventType: string, lifecycle: Option<Lifecycle>, frame: string, occurredAt: Time)

  /** The source joins these with `|`; run ids, event types and lifecycles hold no `|`. */
  datatype IntentId = IntentId(run: string, eventType: string, lifecycle: Option<Lifecycle>)

  datatype IntentState = PendingIntent | PublishedIntent | FailedIntent

  datatype Intent = Intent(
    event: Event, state: IntentState, attempts: nat, lastError: string, createdAt: Time, updatedAt: Time,
    publishedAt: Option<Time>)

  /** Everything the store holds about one run. */
  datatype RunFile = RunFile(
    run: Run, workers: map<string, Worker>, artifacts: seq<Artifact>, events: seq<Event>,
    intents: map<IntentId, Intent>, evidence: map<string, seq<Evidence>>)

  /** Go's map read: a missing entry reads as the zero value. */
  function Lookup<V>(m: map<string, V>, k: string, zero: V): V
  {
    if k in m then m[k] else zero
  }

  // ---------------------------------------------------------------- what each operation does to a run's file

  function EnsureRunState(r: Run): RunState
  {
    if r.state.Some? then r.state.value else RunStateOf(r.lifecycle)
  }

  /** One worker of CreateRun; a repeated id keeps the record with more frames. */
  function AddWorker(m: map<string, Worker>, w: Worker): map<string, Worker>
  {
    var added := w.(state := Some(EnsureWorkerState(w)));
    m[w.id :=
      if w.id in m && m[w.id].frames > w.frames
      then added.(frames := m[w.id].frames, lifecycle := m[w.id].lifecycle, updatedAt := m[w.id].updatedAt)
      else added]
  }

  function AddWorkers(workers: seq<Worker>): map<string, Worker>
  {
    if workers == [] then map[] else AddWorker(AddWorkers(workers[..|workers| - 1]), workers[|workers| - 1])
  }

  function NewFile(run: Run, workers: seq<Worker>): RunFile
  {
    RunFile(run.(state := Some(EnsureRunState(run))), AddWorkers(workers), [], [], map[], map[])
  }

  function PutLaunched(m: map<string, Worker>, workers: seq<Worker>): map<string, Worker>
  {
    if workers == [] then m
    else PutLaunched(m, workers[..|workers| - 1])[workers[|workers| - 1].id :=
        MaterializeLaunch(workers[|workers| - 1])]
  }

  function LaunchSaved(f: RunFile, workers: seq<Worker>): RunFile
  {
    f.(workers := PutLaunched(f.workers, workers))
  }

  /** UpdateRunLifecycle: the state is rebuilt from the lifecycle, which also clears the launch deadline. */
  function Transition(f: RunFile, lifecycle: Lifecycle, now: Time): RunFile
  {
    f.(run := f.run.(lifecycle := lifecycle, state := Some(RunStateOf(lifecycle)), updatedAt := now))
  }

  function IdOf(e: Event): IntentId
  {
    IntentId(e.run, e.eventType, e.lifecycle)
  }

  function NewIntent(e: Event, now: Time): Intent
  {
    Intent(e, PendingIntent, 0, "", now, now, None)
  }

  /** An event as UpdateRunLifecycleWithPublicationIntent completes it. */
  function Stamped(e: Event, run: string, now: Time): Event
  {
    e.(run := if e.run == "" then run else e.run, occurredAt := if e.occurredAt == ZERO_TIME then now else e.occurredAt)
  }

  /** The transition and its intent; an intent of the same id is kept as it is. */
  function TransitionWithIntent(f: RunFile, lifecycle: Lifecycle, event: Event, now: Time): RunFile
  {
    var g := Transition(f, lifecycle, now);
    var e := Stamped(event, f.run.id, now);
    if IdOf(e) in f.intents then g else g.(intents := f.intents[IdOf(e) := NewIntent(e, now)])
  }

  function WithFrames(f: RunFile, worker: string, lifecycle: Lifecycle, delta: int, now: Time): RunFile
    requires worker in f.workers
  {
    var w := f.workers[worker];
    f.(workers := f.workers[worker := w.(lifecycle := lifecycle, frames := w.frames + delta, updatedAt := now)])
  }

  function Filed(evidence: map<string, seq<Evidence>>, worker: string, more: seq<Evidence>): map<string, seq<Evidence>>
  {
    if more == [] then evidence else evidence[worker := Lookup(evidence, worker, []) + more]
  }

  function StatesOf(workers: map<string, Worker>, order: seq<string>): seq<WorkerState>
    requires forall id :: id in order ==> id in workers
  {
    seq(|order|, i requires 0 <= i < |order| => EnsureWorkerState(workers[order[i]]))
  }

  /** UpdateWorkerObservedLifecycle: the worker, its evidence, and the run state derived anew. */
  function ObservedIn(f: RunFile, o: Observation, order: seq<string>, now: Time): RunFile
    requires o.worker in f.workers && Visits(order, f.workers.Keys)
  {
    var (w, e) := ObserveWorker(f.workers[o.worker], o, now);
    var workers := f.workers[o.worker := w];
    f.(workers := workers, evidence := Filed(f.evidence, o.worker, e),
       run := f.run.(state := Some(Derived(EnsureRunState(f.run), StatesOf(workers, order))), updatedAt := w.updatedAt))
  }

  /** The part of ApplyStopTransition that goes over the workers. */
  function StopEach(f: RunFile, t: StopTransition, order: seq<string>, now: Time): RunFile
    requires forall id :: id in order ==> id in f.workers
  {
    if order == [] then f
    else
      var g := StopEach(f, t, order[..|order| - 1], now);
      var id := order[|order| - 1];
      var (w, e) := StopWorker(f.workers[id], t, now);
      g.(workers := g.workers[id := w], evidence := Filed(g.evidence, id, e))
  }

  function StoppedEvent(run: string, now: Time): Event
  {
    Event(run, "", "run.lifecycle", Some(LifecycleStopped), "", now)
  }

  /** The run's state after a stop transition has been applied to its workers. */
  function StopState(s: RunState, t: StopTransition, workers: seq<WorkerState>): RunState
  {
    var stopping := s.(phase := Stopping, cleanup := t.cleanup);
    if Clean(t) then Derived(stopping, workers).(cleanup := t.cleanup)
    else stopping.(condition := s.condition.(status := if s.condition.status == Failed then Failed else Degraded))
  }

  /** ApplyStopTransition; a run found stopped gets a fresh pending stopped intent. */
  function StopFile(f: RunFile, t: StopTransition, order: seq<string>, now: Time): RunFile
    requires Visits(order, f.workers.Keys)
  {
    StopEachKeepsKeys(f, t, order, now);
    var g := StopEach(f, t, order, now);
    var state := StopState(EnsureRunState(f.run), t, StatesOf(g.workers, order));
    var e := StoppedEvent(f.run.id, now);
    g.(run := f.run.(state := Some(state), lifecycle := ProjectRun(state), updatedAt := now),
       intents := if state.phase == RunStopped then g.intents[IdOf(e) := NewIntent(e, now)] else g.intents)
  }

  lemma {:induction false} StopEachKeepsKeys(f: RunFile, t: StopTransition, order: seq<string>, now: Time)
    requires forall id :: id in order ==> id in f.workers
    ensures StopEach(f, t, order, now).workers.Keys == f.workers.Keys
    ensures StopEach(f, t, order, now)
            == f.(workers := StopEach(f, t, order, now).workers, evidence := StopEach(f, t, order, now).evidence)
  {
    if order != [] {
      assert forall id :: id in order[..|order| - 1] ==> id in order;
      StopEachKeepsKeys(f, t, order[..|order| - 1], now);
      assert order[|order| - 1] in order;
    }
  }

  /** Index of the first artifact with an id. */
  function FindArtifact(artifacts: seq<Artifact>, id: string): (i: nat)
    ensures i <= |artifacts|
    ensures i < |artifacts| ==> artifacts[i].id == id
    ensures forall k :: 0 <= k < i ==> artifacts[k].id != id
  {
    if artifacts == [] then 0
    else if artifacts[0].id == id then 0
    else 1 + FindArtifact(artifacts[1..], id)
  }

  /** UpdateArtifactStatus changes the first artifact of that id only. */
  function WithStatus(f: RunFile, id: string, status: ArtifactStatus): RunFile
  {
    var i := FindArtifact(f.artifacts, id);
    if i == |f.artifacts| then f else f.(artifacts := f.artifacts[i := f.artifacts[i].(status := status)])
  }

  function WithEvent(f: RunFile, e: Event): RunFile
  {
    f.(events := f.events + [e])
  }

  /** eventAlreadySaved */
  predicate AlreadySaved(events: seq<Event>, e: Event)
  {
    exists x :: x in events && IdOf(x) == IdOf(e) && x.worker == e.worker
  }

  function MarkPublished(f: RunFile, id: IntentId, e: Event, now: Time): RunFile
    requires id in f.intents
  {
    f.(intents := f.intents[id :=
         f.intents[id].(state := PublishedIntent, lastError := "", updatedAt := now, publishedAt := Some(now))],
       events := if AlreadySaved(f.events, e) then f.events else f.events + [e])
  }

  function MarkFailed(f: RunFile, id: IntentId, error: string, now: Time): RunFile
    requires id in f.intents
  {
    f.(intents := f.intents[id := f.intents[id].(state := FailedIntent, attempts := f.intents[id].attempts + 1,
                                                 lastError := error, updatedAt := now)])
  }

  // ---------------------------------------------------------------- the store

  ghost predicate ValidWorkers(workers: map<string, Worker>)
  {
    forall id :: id in workers ==> workers[id].id == id && workers[id].state.Some?
  }

  ghost predicate ValidFile(r: string, f: RunFile)
  {
    f.run.id == r && f.run.state.Some? && ValidWorkers(f.workers)
  }

  /** The body of UpdateWorkerObservedLifecycle, on one run's file. */
  method ObserveFile(f: RunFile, o: Observation, order: seq<string>, now: Time) returns (g: RunFile)
    requires o.worker in f.workers && Visits(order, f.workers.Keys) && ValidWorkers(f.workers)
    ensures g == ObservedIn(f, o, order, now)
    ensures ValidWorkers(g.workers) && g.run.state.Some? && g.run.id == f.run.id
    ensures g.artifacts == f.artifacts && g.events == f.events && g.intents == f.intents
  {
    var (worker, evidence) := ObserveWorker(f.workers[o.worker], o, now);
    var workers := f.workers[o.worker := worker];
    var state := DeriveRunState(EnsureRunState(f.run), StatesOf(workers, order));
    g := f.(workers := workers, evidence := Filed(f.evidence, o.worker, evidence),
            run := f.run.(state := Some(state), updatedAt := worker.updatedAt));
  }

  /** The worker loop of ApplyStopTransition. */
  method StopWorkers(f: RunFile, t: StopTransition, order: seq<string>, now: Time) returns (g: RunFile)
    requires Visits(order, f.workers.Keys) && ValidWorkers(f.workers)
    ensures g == StopEach(f, t, order, now) && ValidWorkers(g.workers)
  {
    var workers, evidence := f.workers, f.evidence;
    for i := 0 to |order|
      invariant StopEach(f, t, order[..i], now) == f.(workers := workers, evidence := evidence)
      invariant forall k :: i <= k < |order| ==> order[k] in workers && workers[order[k]] == f.workers[order[k]]
      invariant ValidWorkers(workers)
    {
      assert order[..i + 1][..i] == order[..i];
      assert order[i] in order;
      StopKeepsId(workers[order[i]], t, now);
      var (w, e) := StopWorker(workers[order[i]], t, now);
      evidence := Filed(evidence, order[i], e);
      workers := workers[order[i] := w];
    }
    assert order[..|order|] == order;
    g := f.(workers := workers, evidence := evidence);
  }

  lemma StopKeepsId(w: Worker, t: StopTransition, now: Time)
    ensures StopWorker(w, t, now).0.id == w.id && StopWorker(w, t, now).0.state.Some?
  {
  }

  /** The run half of ApplyStopTransition. */
  method JudgeStop(s: RunState, t: StopTransition, workers: seq<WorkerState>) returns (state: RunState)
    ensures state == StopState(s, t, workers)
  {
    state := s.(phase := Stopping, cleanup := t.cleanup);
    if Clean(t) {
      state := DeriveRunState(state, workers);
    }
    state := state.(cleanup := t.cleanup);
    if !Clean(t) {
      state := state.(phase := Stopping);
      if state.condition.status != Failed {
        state := state.(condition := state.condition.(status := Degraded));
      }
    }
  }

  /** The body of ApplyStopTransition, on one run's file. */
  method Halt(f: RunFile, t: StopTransition, order: seq<string>, now: Time) returns (g: RunFile)
    requires Visits(order, f.workers.Keys) && ValidWorkers(f.workers)
    ensures g == StopFile(f, t, order, now)
    ensures ValidWorkers(g.workers) && g.run.state.Some? && g.run.id == f.run.id
  {
    g := StopWorkers(f, t, order, now);
    StopEachKeepsKeys(f, t, order, now);
    var state := JudgeStop(EnsureRunState(f.run), t, StatesOf(g.workers, order));
    g := g.(run := f.run.(state := Some(state), lifecycle := ProjectRun(state), updatedAt := now));
    if state.phase == RunStopped {
      var e := StoppedEvent(f.run.id, now);
      g := g.(intents := g.intents[IdOf(e) := NewIntent(e, now)]);
    }
  }

  class InMemorySimopsStore {
    var files: map<string, RunFile>
    var idempotency: map<(string, string), string>

    /** Runs are filed under their id, every stored run and worker has a state, and every key names a run. */
    ghost predicate Valid()
      reads this
    {
      && (forall k :: k in idempotency ==> idempotency[k] in files)
      && (forall r :: r in files ==> ValidFile(r, files[r]))
    }

    constructor ()
      ensures Valid() && files == map[] && idempotency == map[]
    {
      files, idempotency := map[], map[];
    }

    /** A key already used by the same identity returns the run it was first used for. */
    method CreateRun(record: Run, workers: seq<Worker>) returns (r: Result<(Run, bool), Error>)
      requires Valid()
      modifies this
      ensures Valid()
      ensures var key := (record.submittedBy, record.idempotencyKey);
        if record.idempotencyKey != "" && key in old(idempotency) then
          r == Ok((old(files)[old(idempotency)[key]].run, false)) && files == old(files)
            && idempotency == old(idempotency)
        else if record.id in old(files) then
          r == Err(Conflict) && files == old(files) && idempotency == old(idempotency)
        else
          && files == old(files)[record.id := NewFile(record, workers)]
          && r == Ok((files[record.id].run, true))
          && idempotency == if record.idempotencyKey == "" then old(idempotency) else old(idempotency)[key := record.id]
    {
      var key := (record.submittedBy, record.idempotencyKey);
      if record.idempotencyKey != "" && key in idempotency {
        return Ok((files[idempotency[key]].run, false));
      }
      if record.id in files {
        return Err(Conflict);
      }
      var workerMap: map<string, Worker> := map[];
      for i := 0 to |workers|
        invariant workerMap == AddWorkers(workers[..i]) && ValidWorkers(workerMap)
      {
        assert workers[..i + 1][..i] == workers[..i];
        workerMap := AddWorker(workerMap, workers[i]);
      }
      assert workers[..|workers|] == workers;
      var run := record.(state := Some(EnsureRunState(record)));
      files := files[record.id := RunFile(run, workerMap, [], [], map[], map[])];
      if record.idempotencyKey != "" {
        idempotency := idempotency[key := record.id];
      }
      return Ok((run, true));
    }

    method SaveLaunch(run: string, workers: seq<Worker>) returns (r: Result<(), Error>)
      requires Valid()
      modifies this`files
      ensures Valid()
      ensures r == if run in old(files) then Ok(()) else Err(RunNotFound)
      ensures files == if run in old(files)
              then old(files)[run := LaunchSaved(old(files)[run], workers)] else old(files)
    {
      if run !in files {
        return Err(RunNotFound);
      }
      var workerMap := files[run].workers;
      for i := 0 to |workers|
        invariant workerMap == PutLaunched(files[run].workers, workers[..i]) && ValidWorkers(workerMap)
      {
        assert workers[..i + 1][..i] == workers[..i];
        workerMap := workerMap[workers[i].id := MaterializeLaunch(workers[i])];
      }
      assert workers[..|workers|] == workers;
      files := files[run := files[run].(workers := workerMap)];
      return Ok(());
    }

    method UpdateRunLifecycle(run: string, lifecycle: Lifecycle, now: Time) returns (r: Result<Run, Error>)
      requires Valid()
      modifies this`files
      ensures Valid()
      ensures files == if run in old(files)
              then old(files)[run := Transition(old(files)[run], lifecycle, now)] else old(files)
      ensures r == if run in old(files) then Ok(files[run].run) else Err(RunNotFound)
    {
      if run !in files {
        return Err(RunNotFound);
      }
      var record := files[run].run.(lifecycle := lifecycle, state := Some(RunStateOf(lifecycle)), updatedAt := now);
      files := files[run := files[run].(run := record)];
      return Ok(record);
    }

    method UpdateRunLifecycleWithPublicationIntent(run: string, lifecycle: Lifecycle, event: Event, now: Time)
      returns (r: Result<(Run, Intent), Error>)
      requires Valid()
      modifies this`files
      ensures Valid()
      ensures files ==
              if run in old(files) then old(files)[run := TransitionWithIntent(old(files)[run], lifecycle, event, now)]
              else old(files)
      ensures r.Err? <==> run !in old(files)
      ensures r.Ok? ==> var id := IdOf(Stamped(event, run, now));
        id in files[run].intents && r.value == (files[run].run, files[run].intents[id])
    {
      if run !in files {
        return Err(RunNotFound);
      }
      var record := files[run].run.(lifecycle := lifecycle, state := Some(RunStateOf(lifecycle)), updatedAt := now);
      files := files[run := files[run].(run := record)];
      var e := Stamped(event, run, now);
      if IdOf(e) in files[run].intents {
        return Ok((record, files[run].intents[IdOf(e)]));
      }
      files := files[run := files[run].(intents := files[run].intents[IdOf(e) := NewIntent(e, now)])];
      return Ok((record, NewIntent(e, now)));
    }

    method UpdateWorkerFrames(run: string, worker: string, lifecycle: Lifecycle, delta: int, now: Time)
      returns (r: Result<(), Error>)
      requires Valid()
      modifies this`files
      ensures Valid()
      ensures var known := run in old(files) && worker in old(files)[run].workers;
        && r == (if known then Ok(()) else Err(RunNotFound))
        && files == if known then old(files)[run := WithFrames(old(files)[run], worker, lifecycle, delta, now)]
          else old(files)
    {
      if run !in files || worker !in files[run].workers {
        return Err(RunNotFound);
      }
      files := files[run := WithFrames(files[run], worker, lifecycle, delta, now)];
      return Ok(());
    }

    /** `order` is the order in which ranging over the run's workers happens to visit them. */
    method UpdateWorkerObservedLifecycle(o: Observation, order: seq<string>, now: Time) returns (r: Result<(), Error>)
      requires Valid()
      requires o.run in files ==> Visits(order, files[o.run].workers.Keys)
      modifies this`files
      ensures Valid()
      ensures var known := o.run in old(files) && o.worker in old(files)[o.run].workers;
        && r == (if known then Ok(()) else Err(RunNotFound))
        && files == if known then old(files)[o.run := ObservedIn(old(files)[o.run], o, order, now)] else old(files)
    {
      if o.run !in files || o.worker !in files[o.run].workers {
        return Err(RunNotFound);
      }
      var g := ObserveFile(files[o.run], o, order, now);
      files := files[o.run := g];
      return Ok(());
    }

    /** `order` as above. */
    method ApplyStopTransition(
      run: string, t: StopTransition, order: seq<string>, clock: Time) returns (r: Result<Run, Error>)
      requires Valid()
      requires run in files ==> Visits(order, files[run].workers.Keys)
      modifies this`files
      ensures Valid()
      ensures files ==
              if run in old(files)
              then old(files)[run := StopFile(old(files)[run], t, order, if t.at == ZERO_TIME then clock else t.at)]
              else old(files)
      ensures r == if run in old(files) then Ok(files[run].run) else Err(RunNotFound)
    {
      if run !in files {
        return Err(RunNotFound);
      }
      var g := Halt(files[run], t, order, if t.at == ZERO_TIME then clock else t.at);
      files := files[run := g];
      return Ok(g.run);
    }

    method SaveArtifact(a: Artifact) returns (r: Result<(), Error>)
      requires Valid()
      modifies this`files
      ensures Valid()
      ensures r == if a.run in old(files) then Ok(()) else Err(RunNotFound)
      ensures files ==
              if a.run in old(files)
              then old(files)[a.run := old(files)[a.run].(artifacts := old(files)[a.run].artifacts + [a])]
                else old(files)
    {
      if a.run !in files {
        return Err(RunNotFound);
      }
      files := files[a.run := files[a.run].(artifacts := files[a.run].artifacts + [a])];
      return Ok(());
    }

    method SaveEvent(e: Event) returns (r: Result<(), Error>)
      requires Valid()
      modifies this`files
      ensures Valid()
      ensures r == if e.run in old(files) then Ok(()) else Err(RunNotFound)
      ensures files == if e.run in old(files) then old(files)[e.run := WithEvent(old(files)[e.run], e)] else old(files)
    {
      if e.run !in files {
        return Err(RunNotFound);
      }
      files := files[e.run := files[e.run].(events := files[e.run].events + [e])];
      return Ok(());
    }

    method UpdateArtifactStatus(run: string, id: string, status: ArtifactStatus) returns (r: Result<(), Error>)
      requires Valid()
      modifies this`files
      ensures Valid()
      ensures run !in old(files) ==> r == Err(RunNotFound) && files == old(files)
      ensures run in old(files) ==>
        && r == (if FindArtifact(old(files)[run].artifacts, id) < |old(files)[run].artifacts|
            then Ok(()) else Err(ArtifactNotFound))
        && files == old(files)[run := WithStatus(old(files)[run], id, status)]
    {
      if run !in files {
        return Err(RunNotFound);
      }
      var artifacts := files[run].artifacts;
      for i := 0 to |artifacts|
        invariant files == old(files)
        invariant forall k :: 0 <= k < i ==> artifacts[k].id != id
      {
        if artifacts[i].id == id {
          artifacts := artifacts[i := artifacts[i].(status := status)];
          files := files[run := files[run].(artifacts := artifacts)];
          return Ok(());
        }
      }
      assert files == files[run := files[run]];
      return Err(ArtifactNotFound);
    }

    method MarkPublicationIntentPublished(id: IntentId, e: Event, now: Time) returns (r: Result<(), Error>)
      requires Valid()
      modifies this`files
      ensures Valid()
      ensures var known := id.run in old(files) && id in old(files)[id.run].intents;
        && r == (if known then Ok(()) else Err(RunNotFound))
        && files == if known then old(files)[id.run := MarkPublished(old(files)[id.run], id, e, now)] else old(files)
    {
      if id.run !in files || id !in files[id.run].intents {
        return Err(RunNotFound);
      }
      var f := files[id.run];
      f := f.(intents := f.intents[id :=
        f.intents[id].(state := PublishedIntent, lastError := "", updatedAt := now, publishedAt := Some(now))]);
      if !AlreadySaved(f.events, e) {
        f := f.(events := f.events + [e]);
      }
      files := files[id.run := f];
      return Ok(());
    }

    method MarkPublicationIntentFailed(id: IntentId, error: string, now: Time) returns (r: Result<(), Error>)
      requires Valid()
      modifies this`files
      ensures Valid()
      ensures var known := id.run in old(files) && id in old(files)[id.run].intents;
        && r == (if known then Ok(()) else Err(RunNotFound))
        && files == if known then old(files)[id.run := MarkFailed(old(files)[id.run], id, error, now)] else old(files)
    {
      if id.run !in files || id !in files[id.run].intents {
        return Err(RunNotFound);
      }
      var f := files[id.run];
      files := files[id.run := f.(intents := f.intents[id := f.intents[id].(state := FailedIntent,
        attempts := f.intents[id].attempts + 1, lastError := error, updatedAt := now)])];
      return Ok(());
    }
  }
}
