/**
 Starting a SimOps run: admit it, launch its workers, mark it streaming, plan its artifact, and on any failure
 compensate and record the run as failed. The runtime and the event log may do anything.
 */
module RunLaunch {
  import opened Prelude
  import opened SimopsState
  import opened SimopsStore
  import opened PublicationOutbox

  datatype LaunchPhase =
    | Persistence
    | RuntimeLaunch
    | LaunchPersistence
    | StreamingTransition
    | ArtifactPlanning
    | ArtifactPersistence
    | IncompleteRecovery

  datatype LifecycleError = LifecycleError(phase: LaunchPhase, compensated: bool)

  // ---------------------------------------------------------------- planned and launched workers

  function PlannedId(kind: string): string
  {
    kind + "-01"
  }

  function PlannedWorker(run: string, kind: string, now: Time): Worker
  {
    Worker(run, PlannedId(kind), kind, Starting, None, None, "", "", "", "", None, None, 0, now)
  }

  function PlannedFor(run: string, kinds: seq<string>, now: Time): seq<Worker>
  {
    seq(|kinds|, i requires 0 <= i < |kinds| => PlannedWorker(run, kinds[i], now))
  }

  method PlannedWorkerRecords(run: string, kinds: seq<string>, now: Time) returns (records: seq<Worker>)
    ensures records == PlannedFor(run, kinds, now)
  {
    records := [];
    for i := 0 to |kinds|
      invariant records == PlannedFor(run, kinds[..i], now)
    {
      records := records + [PlannedWorker(run, kinds[i], now)];
    }
    assert kinds[..|kinds|] == kinds;
  }

  predicate HasId(workers: seq<Worker>, id: string)
  {
    exists w :: w in workers && w.id == id
  }

  /** The last of the workers with each id. */
  function LatestById(workers: seq<Worker>): map<string, Worker>
  {
    if workers == [] then map[]
    else LatestById(workers[..|workers| - 1])[workers[|workers| - 1].id := workers[|workers| - 1]]
  }

  lemma {:induction false} LatestHasId(workers: seq<Worker>)
    ensures forall id :: id in LatestById(workers) <==> HasId(workers, id)
    ensures forall id :: id in LatestById(workers) ==>
      LatestById(workers)[id] in workers && LatestById(workers)[id].id == id
  {
    if workers != [] {
      var before, last := workers[..|workers| - 1], workers[|workers| - 1];
      LatestHasId(before);
      assert workers == before + [last];
    }
  }

  function IdsOf(workers: seq<Worker>): seq<string>
  {
    seq(|workers|, i requires 0 <= i < |workers| => workers[i].id)
  }

  predicate Expected(expected: map<string, Worker>, w: Worker)
  {
    w.id in expected && expected[w.id].kind == w.kind
  }

  /** The runtime launched exactly what was planned: every planned id once, with its kind, and nothing else. */
  ghost predicate LaunchedAsPlanned(planned: seq<Worker>, launched: seq<Worker>)
  {
    && AllDifferent(IdsOf(launched))
    && (forall w :: w in launched ==> Expected(LatestById(planned), w))
    && (forall w :: w in planned ==> HasId(launched, w.id))
  }

  /** validateLaunchedWorkers: one pass over the launched workers, then a count. */
  method ValidateLaunchedWorkers(planned: seq<Worker>, launched: seq<Worker>) returns (ok: bool)
    ensures ok <==> LaunchedAsPlanned(planned, launched)
  {
    LatestHasId(planned);
    var expected: map<string, Worker> := map[];
    for i := 0 to |planned|
      invariant expected == LatestById(planned[..i])
    {
      assert planned[..i + 1][..i] == planned[..i];
      expected := expected[planned[i].id := planned[i]];
    }
    assert planned[..|planned|] == planned;
    var seen: set<string> := {};
    for i := 0 to |launched|
      invariant forall id :: id in seen <==> HasId(launched[..i], id)
      invariant seen <= expected.Keys
      invariant AllDifferent(IdsOf(launched[..i]))
      invariant forall w :: w in launched[..i] ==> Expected(expected, w)
    {
      var w := launched[i];
      assert launched[..i + 1] == launched[..i] + [w];
      if !Expected(expected, w) {
        assert w in launched;
        return false;
      }
      if w.id in seen {
        RepeatedId(launched, i);
        return false;
      }
      NewId(launched[..i], w);
      seen := seen + {w.id};
    }
    assert launched[..|launched|] == launched;
    AllSeen(planned, launched, seen);
    return |seen| == |expected|;
  }

  lemma RepeatedId(launched: seq<Worker>, i: nat)
    requires i < |launched| && HasId(launched[..i], launched[i].id)
    ensures !AllDifferent(IdsOf(launched))
  {
    var w :| w in launched[..i] && w.id == launched[i].id;
    var j :| 0 <= j < i && launched[j] == w;
    assert IdsOf(launched)[j] == IdsOf(launched)[i];
  }

  lemma NewId(launched: seq<Worker>, w: Worker)
    requires AllDifferent(IdsOf(launched)) && !HasId(launched, w.id)
    ensures AllDifferent(IdsOf(launched + [w]))
  {
    forall j | 0 <= j < |launched| ensures IdsOf(launched + [w])[j] != w.id {
      assert launched[j] in launched;
    }
    assert forall j :: 0 <= j < |launched| ==> IdsOf(launched + [w])[j] == IdsOf(launched)[j];
  }

  /** Counting suffices: as many seen as planned means all of them. */
  lemma AllSeen(planned: seq<Worker>, launched: seq<Worker>, seen: set<string>)
    requires seen <= LatestById(planned).Keys && forall id :: id in seen <==> HasId(launched, id)
    ensures |seen| == |LatestById(planned)| <==> forall w :: w in planned ==> HasId(launched, w.id)
  {
    LatestHasId(planned);
    var ids := LatestById(planned).Keys;
    SizeOfSubset(seen, ids);
    if seen != ids {
      var missing :| missing in ids && missing !in seen;
      assert LatestById(planned)[missing] in planned;
    } else {
      forall w | w in planned ensures HasId(launched, w.id) {
        assert HasId(planned, w.id);
      }
    }
  }

  // ---------------------------------------------------------------- a failed launch

  /** One entry of failedWorkerOutcomes: a launched worker is stopped if compensation worked, all others failed. */
  function OutcomeOf(planned: Worker, launched: map<string, Worker>, compensated: bool, now: Time): Worker
  {
    if planned.id in launched
    then launched[planned.id].(lifecycle := if compensated then LifecycleStopped else LifecycleFailed, updatedAt := now)
    else planned.(lifecycle := LifecycleFailed, updatedAt := now)
  }

  method FailedWorkerOutcomes(planned: seq<Worker>, launched: seq<Worker>, compensated: bool, now: Time)
    returns (outcomes: seq<Worker>)
    ensures IsOutcome(outcomes, planned, launched, compensated, now)
    ensures forall i :: 0 <= i < |planned| ==>
      outcomes[i].lifecycle == FailedLifecycle(planned[i].id, launched, compensated)
  {
    var launchedById: map<string, Worker> := map[];
    for i := 0 to |launched|
      invariant launchedById == LatestById(launched[..i])
    {
      assert launched[..i + 1][..i] == launched[..i];
      launchedById := launchedById[launched[i].id := launched[i]];
    }
    assert launched[..|launched|] == launched;
    LatestHasId(launched);
    outcomes := [];
    for i := 0 to |planned|
      invariant IsOutcome(outcomes, planned[..i], launched, compensated, now)
      invariant forall j :: 0 <= j < i ==>
        outcomes[j].lifecycle == FailedLifecycle(planned[j].id, launched, compensated)
    {
      outcomes := outcomes + [OutcomeOf(planned[i], launchedById, compensated, now)];
    }
    assert planned[..|planned|] == planned;
  }

  ghost predicate IsOutcome(
    outcomes: seq<Worker>, planned: seq<Worker>, launched: seq<Worker>, compensated: bool, now: Time)
  {
    && |outcomes| == |planned|
    && forall i :: 0 <= i < |planned| ==> outcomes[i] == OutcomeOf(planned[i], LatestById(launched), compensated, now)
  }

  /** What a planned worker ends as: stopped iff it was launched and compensation worked. */
  function FailedLifecycle(id: string, launched: seq<Worker>, compensated: bool): Lifecycle
  {
    if HasId(launched, id) && compensated then LifecycleStopped else LifecycleFailed
  }

  /** Artifacts after each has been marked failed by its id: only the first of an id changes. */
  function FailFirsts(artifacts: seq<Artifact>): seq<Artifact>
  {
    FailSome(artifacts, |artifacts|)
  }

  function FailSome(artifacts: seq<Artifact>, n: nat): seq<Artifact>
  {
    seq(|artifacts|, i requires 0 <= i < |artifacts| =>
      if i < n && FindArtifact(artifacts, artifacts[i].id) == i
        then artifacts[i].(status := ArtifactFailed) else artifacts[i])
  }

  lemma FindIgnoresStatus(artifacts: seq<Artifact>, n: nat, id: string)
    ensures FindArtifact(FailSome(artifacts, n), id) == FindArtifact(artifacts, id)
  {
    var i, j := FindArtifact(artifacts, id), FindArtifact(FailSome(artifacts, n), id);
    assert forall k :: 0 <= k < |artifacts| ==> FailSome(artifacts, n)[k].id == artifacts[k].id;
  }

  lemma FailOneMore(f: RunFile, artifacts: seq<Artifact>, i: nat)
    requires i < |artifacts| && f.artifacts == FailSome(artifacts, i)
    ensures WithStatus(f, artifacts[i].id, ArtifactFailed) == f.(artifacts := FailSome(artifacts, i + 1))
  {
    FindIgnoresStatus(artifacts, i, artifacts[i].id);
    var k := FindArtifact(artifacts, artifacts[i].id);
    assert k <= i;
    assert WithStatus(f, artifacts[i].id, ArtifactFailed).artifacts == FailSome(artifacts, i + 1);
  }

  /** All artifacts end failed exactly if every artifact repeating an earlier id was failed before. */
  lemma AllArtifactsFail(artifacts: seq<Artifact>)
    ensures (forall a :: a in FailFirsts(artifacts) ==> a.status == ArtifactFailed)
      <==> (forall i, j :: 0 <= i < j < |artifacts| && artifacts[i].id == artifacts[j].id ==>
          artifacts[j].status == ArtifactFailed)
  {
    var failed := FailFirsts(artifacts);
    if forall a :: a in failed ==> a.status == ArtifactFailed {
      forall i, j | 0 <= i < j < |artifacts| && artifacts[i].id == artifacts[j].id
        ensures artifacts[j].status == ArtifactFailed {
        assert failed[j] in failed;
      }
    } else {
      var a :| a in failed && a.status != ArtifactFailed;
      var j :| 0 <= j < |failed| && failed[j] == a;
      var i := FindArtifact(artifacts, artifacts[j].id);
      assert artifacts[i].id == artifacts[j].id && i < j;
    }
  }

  function FailureEvent(run: string, phase: LaunchPhase, now: Time): Event
  {
    Event(run, "", "run.lifecycle.failure", Some(LifecycleFailed), "", now)
  }

  /** What a failed launch stores for a planned id: the outcome of its last record, with the launch materialised. */
  ghost function FailedWorker(
    id: string, planned: seq<Worker>, launched: seq<Worker>, compensated: bool, now: Time): Worker
    requires HasId(planned, id)
  {
    LatestHasId(planned);
    MaterializeLaunch(OutcomeOf(LatestById(planned)[id], LatestById(launched), compensated, now))
  }

  /** `g` is `f` after a failed launch of `planned`. */
  ghost predicate LaunchFailed(
    f: RunFile, g: RunFile, planned: seq<Worker>, launched: seq<Worker>, compensated: bool, now: Time)
  {
    && g.run.id == f.run.id && g.run.lifecycle == LifecycleFailed && g.run.state == Some(RunStateOf(LifecycleFailed))
    && WorkersFailed(f.workers, g.workers, planned, launched, compensated, now)
    && g.artifacts == FailFirsts(f.artifacts)
    && g.intents == f.intents && g.evidence == f.evidence
    && |g.events| == |f.events| + 1 && f.events <= g.events && g.events[|f.events|].eventType == "run.lifecycle.failure"
  }

  ghost predicate WorkersFailed(
    before: map<string, Worker>, after: map<string, Worker>, planned: seq<Worker>, launched: seq<Worker>,
    compensated: bool,
    now: Time)
  {
    && (forall id :: id in after <==> id in before || HasId(planned, id))
    && (forall id :: id in before && !HasId(planned, id) ==> after[id] == before[id])
    && (forall id :: id in after && HasId(planned, id) ==>
          && after[id] == FailedWorker(id, planned, launched, compensated, now)
          && after[id].lifecycle == FailedLifecycle(id, launched, compensated))
  }

  lemma HasOneMore(workers: seq<Worker>, id: string)
    requires workers != []
    ensures HasId(workers, id) <==> HasId(workers[..|workers| - 1], id) || workers[|workers| - 1].id == id
  {
    assert workers == workers[..|workers| - 1] + [workers[|workers| - 1]];
  }

  /** SaveLaunch stores the last record of each id. */
  lemma {:induction false} PutLaunchedAt(m: map<string, Worker>, workers: seq<Worker>, id: string)
    ensures id in PutLaunched(m, workers) <==> id in m || HasId(workers, id)
    ensures HasId(workers, id) ==>
      id in LatestById(workers) && PutLaunched(m, workers)[id] == MaterializeLaunch(LatestById(workers)[id])
    ensures !HasId(workers, id) && id in m ==> PutLaunched(m, workers)[id] == m[id]
  {
    if workers != [] {
      var fewer, last := workers[..|workers| - 1], workers[|workers| - 1];
      PutLaunchedAt(m, fewer, id);
      HasOneMore(workers, id);
    }
  }

  lemma OutcomeKeepsId(planned: Worker, launched: seq<Worker>, compensated: bool, now: Time)
    ensures OutcomeOf(planned, LatestById(launched), compensated, now).id == planned.id
    ensures OutcomeOf(planned, LatestById(launched), compensated, now).lifecycle
            == FailedLifecycle(planned.id, launched, compensated)
    ensures OutcomeOf(planned, LatestById(launched), compensated, now).updatedAt == now
  {
    LatestHasId(launched);
  }

  lemma {:induction false} LatestOutcome(
    outcomes: seq<Worker>, planned: seq<Worker>, launched: seq<Worker>, compensated: bool, now: Time, id: string)
    requires IsOutcome(outcomes, planned, launched, compensated, now)
    ensures HasId(outcomes, id) <==> HasId(planned, id)
    ensures HasId(planned, id) ==> id in LatestById(outcomes) && id in LatestById(planned)
    ensures HasId(planned, id) ==>
      LatestById(outcomes)[id] == OutcomeOf(LatestById(planned)[id], LatestById(launched), compensated, now)
    decreases |planned|
  {
    if planned != [] {
      var n := |planned| - 1;
      LatestOutcome(outcomes[..n], planned[..n], launched, compensated, now, id);
      OutcomeKeepsId(planned[n], launched, compensated, now);
      HasOneMore(outcomes, id);
      HasOneMore(planned, id);
    }
  }

  lemma OutcomesFail(
    before: map<string, Worker>, planned: seq<Worker>, outcomes: seq<Worker>, launched: seq<Worker>, compensated: bool,
    now: Time)
    requires IsOutcome(outcomes, planned, launched, compensated, now)
    ensures WorkersFailed(before, PutLaunched(before, outcomes), planned, launched, compensated, now)
  {
    var after := PutLaunched(before, outcomes);
    forall id ensures id in after <==> id in before || HasId(planned, id)
      ensures id in before && !HasId(planned, id) ==> after[id] == before[id]
      ensures HasId(planned, id) ==>
        && after[id] == FailedWorker(id, planned, launched, compensated, now)
        && after[id].lifecycle == FailedLifecycle(id, launched, compensated)
    {
      PutLaunchedAt(before, outcomes, id);
      LatestOutcome(outcomes, planned, launched, compensated, now, id);
      LatestHasId(planned);
      if HasId(planned, id) {
        OutcomeKeepsId(LatestById(planned)[id], launched, compensated, now);
      }
    }
  }

  /** The worker half of fail. The second write of each outcome's lifecycle repeats what the first has stored. */
  method SettleWorkers(
    store: InMemorySimopsStore, run: string, planned: seq<Worker>, launched: seq<Worker>, compensated: bool, now: Time)
    requires store.Valid() && run in store.files
    modifies store`files
    ensures store.Valid() && run in store.files
    ensures store.files == old(store.files)[run := old(store.files)[run].(workers := store.files[run].workers)]
    ensures WorkersFailed(old(store.files)[run].workers, store.files[run].workers, planned, launched, compensated, now)
  {
    ghost var before := store.files[run].workers;
    var outcomes := FailedWorkerOutcomes(planned, launched, compensated, now);
    var saved := store.SaveLaunch(run, outcomes);
    OutcomesFail(before, planned, outcomes, launched, compensated, now);
    ghost var after := store.files;
    for i := 0 to |outcomes|
      invariant store.Valid() && store.files == after
    {
      assert planned[i] in planned;
      OutcomeKeepsId(planned[i], launched, compensated, now);
      StoredAt(planned, launched, compensated, now, outcomes[i].id);
      RewritingChangesNothing(store.files[run], outcomes[i].id, outcomes[i].lifecycle, now);
      var updated := store.UpdateWorkerFrames(run, outcomes[i].id, outcomes[i].lifecycle, 0, now);
    }
  }

  lemma StoredAt(planned: seq<Worker>, launched: seq<Worker>, compensated: bool, now: Time, id: string)
    requires HasId(planned, id)
    ensures FailedWorker(id, planned, launched, compensated, now).updatedAt == now
  {
    LatestHasId(planned);
    OutcomeKeepsId(LatestById(planned)[id], launched, compensated, now);
  }

  lemma RewritingChangesNothing(f: RunFile, id: string, lifecycle: Lifecycle, now: Time)
    requires id in f.workers && f.workers[id].lifecycle == lifecycle && f.workers[id].updatedAt == now
    ensures WithFrames(f, id, lifecycle, 0, now) == f
  {
    assert f.workers[id := f.workers[id]] == f.workers;
  }

  /** The artifact half of fail. */
  method FailArtifacts(store: InMemorySimopsStore, run: string)
    requires store.Valid() && run in store.files
    modifies store`files
    ensures store.Valid()
    ensures var f := old(store.files)[run];
      store.files == old(store.files)[run := f.(artifacts := FailFirsts(f.artifacts))]
  {
    var artifacts := store.files[run].artifacts;
    ghost var g := store.files[run];
    assert FailSome(artifacts, 0) == artifacts;
    for i := 0 to |artifacts|
      invariant store.Valid() && run in store.files
      invariant store.files == old(store.files)[run := g.(artifacts := FailSome(artifacts, i))]
    {
      FailOneMore(store.files[run], artifacts, i);
      var marked := store.UpdateArtifactStatus(run, artifacts[i].id, ArtifactFailed);
    }
  }

  /** The event half of fail: published, or at least recorded. */
  method RecordFailure(
    store: InMemorySimopsStore, log: RedpandaEventLog, run: string, phase: LaunchPhase, fault: PublishFault, now: Time)
    requires store.Valid() && log.store == store && run in store.files
    modifies store`files, log`broker
    ensures store.Valid()
    ensures store.files == old(store.files)[run := WithEvent(old(store.files)[run], FailureEvent(run, phase, now))]
  {
    var event := FailureEvent(run, phase, now);
    var published := log.Publish(event, fault);
    if published.Err? {
      var recorded := store.SaveEvent(event);
    }
  }

  /** The half of fail after the workers. */
  method FailRun(
    store: InMemorySimopsStore, log: RedpandaEventLog, run: string, phase: LaunchPhase, fault: PublishFault, now: Time)
    requires store.Valid() && log.store == store && run in store.files
    modifies store`files, log`broker
    ensures store.Valid()
    ensures var f := old(store.files)[run];
      store.files == old(store.files)[run := WithEvent(
        Transition(f, LifecycleFailed, now).(artifacts := FailFirsts(f.artifacts)), FailureEvent(run, phase, now))]
  {
    var failed := store.UpdateRunLifecycle(run, LifecycleFailed, now);
    FailArtifacts(store, run);
    RecordFailure(store, log, run, phase, fault, now);
  }

  /** SimopsRunLifecyclePolicy.fail. Its store calls cannot fail on the in-memory store. */
  method Fail(
    store: InMemorySimopsStore, log: RedpandaEventLog, run: string, planned: seq<Worker>, launched: seq<Worker>,
    compensated: bool, fault: PublishFault, phase: LaunchPhase, now: Time) returns (error: LifecycleError)
    requires store.Valid() && log.store == store && run in store.files
    modifies store`files, log`broker
    ensures store.Valid()
    ensures error == LifecycleError(phase, compensated)
    ensures run in store.files && store.files == old(store.files)[run := store.files[run]]
    ensures LaunchFailed(old(store.files)[run], store.files[run], planned, launched, compensated, now)
  {
    SettleWorkers(store, run, planned, launched, compensated, now);
    FailRun(store, log, run, phase, fault, now);
    error := LifecycleError(phase, compensated);
  }

  // ---------------------------------------------------------------- stored lifecycle and stored state

  /** The stored lifecycle is the one the stored state projects to. */
  predicate Agrees(w: Worker)
  {
    w.state.Some? && w.lifecycle == ProjectWorker(w.state.value)
  }

  /** Whether materialising a launch leaves the worker's state as it is. */
  predicate LaunchStands(s: WorkerState, w: Worker)
  {
    s.launch in {Launched, Rejected} || (w.runtimeId == "" && w.lifecycle != LifecycleFailed && s.launch != Unattempted)
  }

  /** A launch outcome is stored with a lifecycle its state agrees with exactly if the state stands and agreed before,
      or the launch is decided now, as rejected. */
  lemma OutcomeAgreesExactly(w: Worker)
    requires w.lifecycle in {LifecycleStopped, LifecycleFailed}
    ensures Agrees(MaterializeLaunch(w)) <==>
      var s := EnsureWorkerState(w);
      if LaunchStands(s, w) then ProjectWorker(s) == w.lifecycle
      else w.lifecycle == LifecycleFailed && w.runtimeId == ""
  {
  }

  /** Without a state of its own, an outcome agrees with its state exactly if it is failed and has no runtime
      resource; a compensated one never does. */
  lemma FreshOutcomeAgreesExactly(w: Worker)
    requires w.state.None? && w.lifecycle in {LifecycleStopped, LifecycleFailed}
    ensures Agrees(MaterializeLaunch(w)) <==> w.lifecycle == LifecycleFailed && w.runtimeId == ""
  {
    OutcomeAgreesExactly(w);
  }

  /** The record that the outcome of a planned id is made from: the launched one if there is one. */
  ghost function RecordOf(id: string, planned: seq<Worker>, launched: seq<Worker>): Worker
    requires HasId(planned, id)
  {
    LatestHasId(planned);
    if id in LatestById(launched) then LatestById(launched)[id] else LatestById(planned)[id]
  }

  /** After a failed launch, a planned worker whose record had no state agrees with its state exactly if it was not
      both launched and compensated and its record names no runtime resource. */
  lemma FailedLaunchAgreesExactly(
    f: RunFile, g: RunFile, planned: seq<Worker>, launched: seq<Worker>, compensated: bool, now: Time, id: string)
    requires LaunchFailed(f, g, planned, launched, compensated, now) && HasId(planned, id)
    requires RecordOf(id, planned, launched).state.None?
    ensures id in g.workers
    ensures Agrees(g.workers[id]) <==>
      !(HasId(launched, id) && compensated) && RecordOf(id, planned, launched).runtimeId == ""
  {
    LatestHasId(planned);
    LatestHasId(launched);
    FreshOutcomeAgreesExactly(OutcomeOf(LatestById(planned)[id], LatestById(launched), compensated, now));
  }

  // ---------------------------------------------------------------- a successful launch

  ghost predicate KindsAgree(planned: seq<Worker>)
  {
    forall v, w :: v in planned && w in planned && v.id == w.id ==> v.kind == w.kind
  }

  /** A planned id determines its kind, even if a kind is requested twice. */
  lemma PlannedKindsAgree(run: string, kinds: seq<string>, now: Time)
    ensures KindsAgree(PlannedFor(run, kinds, now))
  {
    var planned := PlannedFor(run, kinds, now);
    forall v, w | v in planned && w in planned && v.id == w.id ensures v.kind == w.kind {
      assert v.kind == v.id[..|v.id| - 3] && w.kind == w.id[..|w.id| - 3];
    }
  }

  lemma {:induction false} AddWorkersIds(workers: seq<Worker>)
    ensures forall id :: id in AddWorkers(workers) <==> HasId(workers, id)
  {
    if workers != [] {
      var before, last := workers[..|workers| - 1], workers[|workers| - 1];
      AddWorkersIds(before);
      assert workers == before + [last];
      assert forall id :: HasId(workers, id) <==> HasId(before, id) || last.id == id;
    }
  }

  lemma {:induction false} PutLaunchedKinds(m: map<string, Worker>, launched: seq<Worker>)
    requires AllDifferent(IdsOf(launched))
    ensures forall id :: id in PutLaunched(m, launched) <==> id in m || HasId(launched, id)
    ensures forall w :: w in launched ==>
      w.id in PutLaunched(m, launched) && PutLaunched(m, launched)[w.id].kind == w.kind
  {
    if launched != [] {
      var before, last := launched[..|launched| - 1], launched[|launched| - 1];
      assert launched == before + [last];
      assert forall i :: 0 <= i < |before| ==> IdsOf(before)[i] == IdsOf(launched)[i];
      PutLaunchedKinds(m, before);
      assert forall id :: HasId(launched, id) <==> HasId(before, id) || last.id == id;
      assert MaterializeLaunch(last).kind == last.kind;
      forall w | w in before ensures w.id != last.id {
        var i :| 0 <= i < |before| && before[i] == w;
        assert IdsOf(launched)[i] == w.id && IdsOf(launched)[|before|] == last.id;
      }
    }
  }

  /** The stored workers are exactly the planned (id, kind) pairs. */
  ghost predicate AsPlanned(workers: map<string, Worker>, planned: seq<Worker>)
  {
    && (forall id :: id in workers <==> HasId(planned, id))
    && (forall w :: w in planned ==> w.id in workers && workers[w.id].kind == w.kind)
  }

  lemma LaunchedWorkersAsPlanned(planned: seq<Worker>, launched: seq<Worker>)
    requires KindsAgree(planned) && LaunchedAsPlanned(planned, launched)
    ensures AsPlanned(PutLaunched(AddWorkers(planned), launched), planned)
  {
    AddWorkersIds(planned);
    PutLaunchedKinds(AddWorkers(planned), launched);
    LatestHasId(planned);
    forall w | w in planned ensures PutLaunched(AddWorkers(planned), launched)[w.id].kind == w.kind {
      var l :| l in launched && l.id == w.id;
      assert Expected(LatestById(planned), l);
      assert LatestById(planned)[l.id] in planned;
    }
    forall id | HasId(launched, id) ensures HasId(planned, id) {
      var l :| l in launched && l.id == id;
      assert Expected(LatestById(planned), l);
    }
  }

  /** validatePlannedArtifact */
  predicate ValidArtifact(run: string, a: Artifact)
  {
    !Blank(a.id) && Trim(a.run) == Trim(run) && !Blank(a.kind) && !(a.status.OtherStatus? && Blank(a.status.text))
  }

  function StreamingEvent(run: string, now: Time): Event
  {
    Event(run, "", LIFECYCLE_EVENT, Some(Streaming), "", now)
  }

  /** What the runtime, the artifact sink and the event log do during one Start. */
  datatype Environment = Environment(
    started: bool, launched: seq<Worker>, compensated: bool, sink: Option<Artifact>,
    failureFault: PublishFault, dispatchFault: PublishFault)

  /** The run is streaming with exactly its planned workers, one streaming intent and its one artifact. */
  ghost predicate LaunchSucceeded(g: RunFile, planned: seq<Worker>, env: Environment)
  {
    && g.run.lifecycle == Streaming && g.run.state == Some(RunStateOf(Streaming))
    && AsPlanned(g.workers, planned)
    && g.artifacts == (if env.sink.Some? && env.sink.value.run == g.run.id then [env.sink.value] else [])
    && g.intents.Keys == {StreamingId(g.run.id)}
    && (IsPublished(g, StreamingId(g.run.id)) <==> env.dispatchFault == Delivered)
    && CountOf(g.events, StreamingId(g.run.id)) == (if env.dispatchFault == Delivered then 1 else 0)
  }

  /** The run is failed, so is every artifact, and each planned worker is stopped or failed. A failure after the
      streaming transition leaves the streaming intent queued. */
  ghost predicate LaunchUndone(g: RunFile, planned: seq<Worker>, env: Environment, phase: LaunchPhase)
  {
    && g.run.lifecycle == LifecycleFailed && g.run.state == Some(RunStateOf(LifecycleFailed))
    && (forall id :: id in g.workers <==> HasId(planned, id))
    && (forall w :: w in planned ==>
        w.id in g.workers && g.workers[w.id].lifecycle == FailedLifecycle(w.id, env.launched, env.compensated))
    && (forall a :: a in g.artifacts ==> a.status == ArtifactFailed)
    && g.intents.Keys == (if phase in {ArtifactPlanning, ArtifactPersistence} then {StreamingId(g.run.id)} else {})
    && (exists e :: e in g.events && e.eventType == "run.lifecycle.failure")
  }

  /** Everything the launch needs goes well, in a store that knows these runs. */
  ghost predicate LaunchWorks(runs: set<string>, run: string, planned: seq<Worker>, env: Environment)
  {
    && env.started
    && LaunchedAsPlanned(planned, env.launched)
    && SinkWorks(runs, run, env.sink)
  }

  /** An artifact is kept if it is valid for the run and names a known one; that is this run up to blanks around it. */
  predicate SinkWorks(runs: set<string>, run: string, sink: Option<Artifact>)
  {
    sink.Some? ==> ValidArtifact(run, sink.value) && sink.value.run in runs
  }

  /** The files once the artifact is saved, where it names another run than this one. */
  function Elsewhere(files: map<string, RunFile>, run: string, sink: Option<Artifact>): map<string, RunFile>
  {
    if sink.Some? && sink.value.run != run && sink.value.run in files
    then files[sink.value.run := files[sink.value.run].(artifacts := files[sink.value.run].artifacts + [sink.value])]
      else files
  }

  /** A run on its way: nothing saved but its planned workers and, once announced, the streaming intent. */
  ghost predicate OnItsWay(f: RunFile, planned: seq<Worker>, announced: bool, now: Time)
  {
    && (forall id :: id in f.workers <==> HasId(planned, id))
    && f.artifacts == [] && f.events == []
    && f.intents == if announced
      then map[StreamingId(f.run.id) := NewIntent(StreamingEvent(f.run.id, now), now)] else map[]
  }

  /** Giving up at some phase of the launch. */
  method Abort(
    store: InMemorySimopsStore, log: RedpandaEventLog, run: string, planned: seq<Worker>, env: Environment,
    phase: LaunchPhase, now: Time) returns (error: Option<LifecycleError>)
    requires store.Valid() && log.store == store && run in store.files
    requires OnItsWay(store.files[run], planned, phase in {ArtifactPlanning, ArtifactPersistence}, now)
    modifies store`files, log`broker
    ensures store.Valid()
    ensures run in store.files && store.files == old(store.files)[run := store.files[run]]
    ensures error == Some(LifecycleError(phase, env.compensated))
    ensures LaunchUndone(store.files[run], planned, env, phase)
  {
    var e := Fail(store, log, run, planned, env.launched, env.compensated, env.failureFault, phase, now);
    error := Some(e);
    assert store.files[run].events[0] in store.files[run].events;
  }

  /** Saving a validated launch and queueing the streaming transition. */
  method Announce(store: InMemorySimopsStore, run: string, planned: seq<Worker>, launched: seq<Worker>, now: Time)
    requires store.Valid() && run in store.files
    requires KindsAgree(planned) && LaunchedAsPlanned(planned, launched)
    requires store.files[run].workers == AddWorkers(planned) && OnItsWay(store.files[run], planned, false, now)
    modifies store`files
    ensures store.Valid()
    ensures run in store.files && store.files == old(store.files)[run := store.files[run]]
    ensures OnItsWay(store.files[run], planned, true, now) && AsPlanned(store.files[run].workers, planned)
    ensures store.files[run].run.lifecycle == Streaming && store.files[run].run.state == Some(RunStateOf(Streaming))
  {
    ghost var f := store.files[run];
    var saved := store.SaveLaunch(run, launched);
    var streaming := store.UpdateRunLifecycleWithPublicationIntent(run, Streaming, StreamingEvent(run, now), now);
    AnnouncedFile(f, planned, launched, now);
  }

  lemma AnnouncedFile(f: RunFile, planned: seq<Worker>, launched: seq<Worker>, now: Time)
    requires KindsAgree(planned) && LaunchedAsPlanned(planned, launched)
    requires f.workers == AddWorkers(planned) && OnItsWay(f, planned, false, now)
    ensures var g := TransitionWithIntent(LaunchSaved(f, launched), Streaming, StreamingEvent(f.run.id, now), now);
      && g.run.id == f.run.id && g.run.lifecycle == Streaming && g.run.state == Some(RunStateOf(Streaming))
      && OnItsWay(g, planned, true, now) && AsPlanned(g.workers, planned)
  {
    LaunchedWorkersAsPlanned(planned, launched);
  }

  /** Planning and saving the run's artifact, when there is an artifact sink. */
  method PlanArtifact(
    store: InMemorySimopsStore, run: string, sink: Option<Artifact>) returns (trouble: Option<LaunchPhase>)
    requires store.Valid() && run in store.files
    modifies store`files
    ensures store.Valid()
    ensures trouble.None? <==> SinkWorks(old(store.files).Keys, run, sink)
    ensures trouble.Some? ==>
      trouble.value in {ArtifactPlanning, ArtifactPersistence} && store.files == old(store.files)
    ensures trouble.None? ==> var f := old(store.files)[run];
      store.files == Elsewhere(old(store.files), run, sink)[run :=
        if sink.Some? && sink.value.run == run then f.(artifacts := f.artifacts + [sink.value]) else f]
  {
    if sink.Some? {
      if !ValidArtifact(run, sink.value) {
        return Some(ArtifactPlanning);
      }
      var kept := store.SaveArtifact(sink.value);
      if kept.Err? {
        return Some(ArtifactPersistence);
      }
    }
    return None;
  }

  /** The last step of Start: one dispatch of the streaming intent, whose failure is ignored. */
  method Publicize(store: InMemorySimopsStore, log: RedpandaEventLog, run: string, fault: PublishFault, now: Time)
    requires store.Valid() && log.store == store && run in store.files && store.files[run].events == []
    requires store.files[run].intents == map[StreamingId(run) := NewIntent(StreamingEvent(run, now), now)]
    modifies store`files, log`broker
    ensures store.Valid()
    ensures run in store.files
    ensures var f, g := old(store.files)[run], store.files[run];
      && store.files == old(store.files)[run := g]
      && g == f.(intents := g.intents, events := g.events)
      && g.intents.Keys == {StreamingId(run)}
      && (IsPublished(g, StreamingId(run)) <==> fault == Delivered)
      && CountOf(g.events, StreamingId(run)) == (if fault == Delivered then 1 else 0)
  {
    ghost var was := Ledger(store.files[run], log.broker);
    var order := [StreamingId(run)];
    var failures := DispatchPublicationIntents(store, log, run, order, _ => fault, now);
    assert order[..0] == [];
    DispatchOneTurns(was, StreamingId(run), was.file.intents[StreamingId(run)], fault, now);
    CountOneMore([], StreamingEvent(run, now), StreamingId(run));
  }

  /** The launch of `run` has come to its end, in success or undone, and no other run changed but by its artifact. */
  ghost predicate Concluded(
    before: map<string, RunFile>, after: map<string, RunFile>, run: string, planned: seq<Worker>, env: Environment,
    error: Option<LifecycleError>)
  {
    && run in after
    && match error
       case None =>
         after == Elsewhere(before, run, env.sink)[run := after[run]] && LaunchSucceeded(after[run], planned, env)
       case Some(e) =>
         && after == before[run := after[run]]
         && e.compensated == env.compensated && LaunchUndone(after[run], planned, env, e.phase)
  }

  lemma ConcludedSinceAnnouncement(
    before: map<string, RunFile>, announced: RunFile, after: map<string, RunFile>, run: string, planned: seq<Worker>,
    env: Environment, error: Option<LifecycleError>)
    requires Concluded(before[run := announced], after, run, planned, env, error)
    ensures Concluded(before, after, run, planned, env, error)
  {
    assert before[run := announced][run := after[run]] == before[run := after[run]];
    assert Elsewhere(before[run := announced], run, env.sink)[run := after[run]]
      == Elsewhere(before, run, env.sink)[run := after[run]];
  }

  /** The part of Start after the streaming transition. */
  method Conclude(
    store: InMemorySimopsStore, log: RedpandaEventLog, run: string, planned: seq<Worker>, env: Environment, now: Time)
    returns (error: Option<LifecycleError>)
    requires store.Valid() && log.store == store && run in store.files
    requires OnItsWay(store.files[run], planned, true, now) && AsPlanned(store.files[run].workers, planned)
    requires store.files[run].run.lifecycle == Streaming && store.files[run].run.state == Some(RunStateOf(Streaming))
    modifies store`files, log`broker
    ensures store.Valid()
    ensures Concluded(old(store.files), store.files, run, planned, env, error)
    ensures error.None? <==> SinkWorks(old(store.files).Keys, run, env.sink)
  {
    var trouble := PlanArtifact(store, run, env.sink);
    if trouble.Some? {
      error := Abort(store, log, run, planned, env, trouble.value, now);
      return;
    }
    Publicize(store, log, run, env.dispatchFault, now);
    return None;
  }

  /** The part of Start after the run was admitted. */
  method LaunchRun(
    store: InMemorySimopsStore, log: RedpandaEventLog, run: string, planned: seq<Worker>, env: Environment, now: Time)
    returns (error: Option<LifecycleError>)
    requires store.Valid() && log.store == store && run in store.files
    requires KindsAgree(planned)
    requires store.files[run].workers == AddWorkers(planned) && OnItsWay(store.files[run], planned, false, now)
    modifies store`files, log`broker
    ensures store.Valid()
    ensures Concluded(old(store.files), store.files, run, planned, env, error)
    ensures error.None? <==> LaunchWorks(old(store.files).Keys, run, planned, env)
  {
    var valid := false;
    if env.started {
      valid := ValidateLaunchedWorkers(planned, env.launched);
    }
    if !valid {
      error := Abort(store, log, run, planned, env, RuntimeLaunch, now);
      return;
    }
    Announce(store, run, planned, env.launched, now);
    ghost var announced := store.files[run];
    error := Conclude(store, log, run, planned, env, now);
    ConcludedSinceAnnouncement(old(store.files), announced, store.files, run, planned, env, error);
  }
}
