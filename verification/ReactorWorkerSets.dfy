/**
 Reactor Telemetry worker sets: one per dynamic reactor of a game session. The manager's calls hold a mutex, so
 each is one atomic step; launches, stops, source registrations and contexts may fail in every step.
 */
module ReactorWorkerSets {
  import opened Prelude

  type Time = int

  datatype Lifecycle = Starting | Active | LaunchFailed | Cleanup | CleanupFailed | Removed

  /** Session and reactor: the store key, and what a set id is a hash of. */
  type Key = (string, string)

  /** A source id: set key and worker index, hashed in the source. */
  datatype SourceId = SourceId(owner: Key, index: nat)

  datatype Claims = Claims(setId: Key, source: SourceId, reactor: string)

  /** A worker with the credential it was issued, if that has not been redacted. */
  datatype Worker = Worker(source: SourceId, token: Option<Claims>)

  datatype RemoveKey = NoKey | Requested(key: string) | Expiry

  datatype WorkerSet = WorkerSet(
    registerKey: string, removeKey: RemoveKey, lifecycle: Lifecycle, workers: seq<Worker>, revoked: bool,
    createdAt: Time, updatedAt: Time, expiresAt: Time, cleanupDeadline: Option<Time>, lastError: string)

  type Sets = map<Key, WorkerSet>

  datatype Config = Config(
    maxReactors: int, workersPerSet: int, sessionTtl: Time, cleanupTimeout: Time, restValid: bool)

  const ACCEPTED_REACTORS := 4
  const ACCEPTED_WORKERS := 3

  /** ReactorTelemetryConfig.Validate, its durations and texts summed up in `restValid`. */
  predicate Valid(c: Config)
  {
    1 <= c.maxReactors <= ACCEPTED_REACTORS && 1 <= c.workersPerSet <= ACCEPTED_WORKERS && c.restValid
  }

  predicate Live(l: Lifecycle)
  {
    l == Starting || l == Active || l == LaunchFailed
  }

  // ---------------------------------------------------------------- what each step does to a set

  function Redacted(s: WorkerSet): WorkerSet
  {
    s.(workers := seq(|s.workers|, i requires 0 <= i < |s.workers| => s.workers[i].(token := None)))
  }

  function Issue(key: Key, index: nat): Worker
  {
    Worker(SourceId(key, index), Some(Claims(key, SourceId(key, index), key.1)))
  }

  function NewSet(c: Config, key: Key, registerKey: string, now: Time): WorkerSet
  {
    var n := if c.workersPerSet > 0 then c.workersPerSet else 0;
    WorkerSet(registerKey, NoKey, Starting, seq(n, i requires 0 <= i < n => Issue(key, i)), false,
              now, now, now + c.sessionTtl, None, "")
  }

  /** How a launch goes: a source cannot be registered, the runtime refuses, or it starts. */
  datatype LaunchFault = SourceRejected | StartFails(error: string) | StartWorks

  /** The stored set after a launch of a set already stored as starting. */
  function Launched(s: WorkerSet, fault: LaunchFault, now: Time): WorkerSet
  {
    match fault
    case SourceRejected => s
    case StartFails(error) => s.(lifecycle := LaunchFailed, lastError := error, updatedAt := now)
    case StartWorks => s.(lifecycle := Active, updatedAt := now)
  }

  /** retryWorkerSet: a rejected source leaves the stored set as it was. */
  function Retried(s: WorkerSet, fault: LaunchFault, now: Time): WorkerSet
  {
    if fault == SourceRejected then s
    else Launched(s.(lifecycle := Starting, lastError := "", updatedAt := now), fault, now)
  }

  /** How a cleanup goes: the context is over before it starts, the stop fails (and that is saved or not), the
      stop works but the result is not saved, or all works. */
  datatype CleanupFault = Cancelled | StopFails(error: string) | StopFailsUnsaved | StoppedUnsaved | CleanupWorks

  /** cleanupWorkerSet */
  function Cleaned(c: Config, s: WorkerSet, removeKey: RemoveKey, fault: CleanupFault, now: Time): WorkerSet
  {
    if fault == Cancelled then s
    else
      var cleaning := s.(
        removeKey := if removeKey == NoKey then s.removeKey else removeKey,
        revoked := true, lifecycle := Cleanup,
        cleanupDeadline := if s.cleanupDeadline.None? then Some(now + c.cleanupTimeout) else s.cleanupDeadline,
        updatedAt := now, lastError := "");
      match fault
      case StopFails(error) => cleaning.(lifecycle := CleanupFailed, lastError := error)
      case CleanupWorks => cleaning.(lifecycle := Removed)
      case _ => cleaning
  }

  function Touched(c: Config, s: WorkerSet, now: Time): WorkerSet
  {
    if Live(s.lifecycle) then s.(updatedAt := now, expiresAt := now + c.sessionTtl) else s
  }

  /** Whether ReconcileExpired cleans a set up. */
  predicate Due(s: WorkerSet, now: Time)
  {
    s.lifecycle == Cleanup || s.lifecycle == CleanupFailed || (Live(s.lifecycle) && now >= s.expiresAt)
  }

  function Expired(c: Config, s: WorkerSet, fault: CleanupFault, now: Time): WorkerSet
  {
    if Due(s, now) then Cleaned(c, s, if s.removeKey == NoKey then Expiry else s.removeKey, fault, now) else s
  }

  /** One set of ReconcileActive. */
  function Reactivated(c: Config, s: WorkerSet, cleanup: CleanupFault, launch: LaunchFault, now: Time): WorkerSet
  {
    if s.lifecycle == Cleanup || s.lifecycle == CleanupFailed then Cleaned(c, s, s.removeKey, cleanup, now)
    else if Live(s.lifecycle) && now < s.expiresAt then Retried(s, launch, now)
    else s
  }

  // ---------------------------------------------------------------- what each step does to the store

  predicate Registers(sets: Sets, k: Key, session: string, registerKey: string)
  {
    k in sets && k.0 == session && sets[k].registerKey == registerKey
  }

  /** InMemoryReactorTelemetryStore.FindRegistration: some set of the session with that key. */
  ghost function FindRegistration(sets: Sets, session: string, registerKey: string): Option<Key>
  {
    if exists k: Key :: Registers(sets, k, session, registerKey) then
      var k: Key :| Registers(sets, k, session, registerKey);
      Some(k)
    else None
  }

  /** The sets of a session that still count against its cap. */
  function Unremoved(sets: Sets, session: string): set<Key>
  {
    set k | k in sets && Counts(sets, k, session)
  }

  predicate Counts(sets: Sets, k: Key, session: string)
  {
    k in sets && k.0 == session && sets[k].lifecycle != Removed
  }

  predicate ValidIdentity(session: string, reactor: string, key: string)
  {
    !Blank(session) && !Blank(reactor) && !Blank(key)
  }

  /** An existing set is launched again if its launch has not succeeded, and otherwise left alone. */
  function Existing(sets: Sets, k: Key, fault: LaunchFault, now: Time): Sets
    requires k in sets
  {
    if sets[k].lifecycle == Starting || sets[k].lifecycle == LaunchFailed
      then sets[k := Retried(sets[k], fault, now)] else sets
  }

  ghost function Registered(
    c: Config, sets: Sets, session: string, reactor: string, key: string, fault: LaunchFault, now: Time): Sets
  {
    var found := FindRegistration(sets, session, key);
    if !Valid(c) || !ValidIdentity(session, reactor, key) then sets
    else if found.Some? then Existing(sets, found.value, fault, now)
    else if (session, reactor) in sets then Existing(sets, (session, reactor), fault, now)
    else if |Unremoved(sets, session)| >= c.maxReactors || fault == SourceRejected then sets
    else sets[(session, reactor) := Launched(Redacted(NewSet(c, (session, reactor), key, now)), fault, now)]
  }

  function RemovedReactor(
    c: Config, sets: Sets, session: string, reactor: string, key: string, fault: CleanupFault, now: Time): Sets
  {
    var k := (session, reactor);
    if !ValidIdentity(session, reactor, key) || k !in sets || sets[k].lifecycle == Removed then sets
    else sets[k := Cleaned(c, sets[k], Requested(key), fault, now)]
  }

  /** The sets a touch of `session` reaches; no session at all stands for every one. */
  predicate Reaches(session: string, k: Key)
  {
    session == "" || k.0 == session
  }

  function TouchedAll(c: Config, sets: Sets, session: string, now: Time): Sets
  {
    map k | k in sets :: if Reaches(session, k) then Touched(c, sets[k], now) else sets[k]
  }

  function ExpiredAll(c: Config, sets: Sets, fault: Key -> CleanupFault, now: Time): Sets
  {
    map k | k in sets :: Expired(c, sets[k], fault(k), now)
  }

  function ReactivatedAll(
    c: Config, sets: Sets, cleanup: Key -> CleanupFault, launch: Key -> LaunchFault, now: Time): Sets
  {
    map k | k in sets :: Reactivated(c, sets[k], cleanup(k), launch(k), now)
  }

  // ---------------------------------------------------------------- what the manager answers

  datatype Failure = InvalidConfig | InvalidRequest | NotFound | SessionCap | SourceError | StartError | CleanupError

  /** What a launch of set `k` answers, newly created or not. */
  function LaunchAnswer(k: Key, created: bool, fault: LaunchFault): Result<(Key, bool), Failure>
  {
    match fault
    case SourceRejected => Err(SourceError)
    case StartFails(_) => Err(StartError)
    case StartWorks => Ok((k, created))
  }

  function ExistingAnswer(sets: Sets, k: Key, fault: LaunchFault): Result<(Key, bool), Failure>
    requires k in sets
  {
    if sets[k].lifecycle == Starting || sets[k].lifecycle == LaunchFailed
      then LaunchAnswer(k, false, fault) else Ok((k, false))
  }

  /** The set a registration comes to, and whether it is new. */
  ghost function RegistrationAnswer(
    c: Config, sets: Sets, session: string, reactor: string, key: string, fault: LaunchFault): Result<(Key, bool),
        Failure>
  {
    var found := FindRegistration(sets, session, key);
    if !Valid(c) then Err(InvalidConfig)
    else if !ValidIdentity(session, reactor, key) then Err(InvalidRequest)
    else if found.Some? then ExistingAnswer(sets, found.value, fault)
    else if (session, reactor) in sets then ExistingAnswer(sets, (session, reactor), fault)
    else if |Unremoved(sets, session)| >= c.maxReactors then Err(SessionCap)
    else LaunchAnswer((session, reactor), true, fault)
  }

  function RemovalFailure(
    sets: Sets, session: string, reactor: string, key: string, fault: CleanupFault): Option<Failure>
  {
    if !ValidIdentity(session, reactor, key) then Some(InvalidRequest)
    else if (session, reactor) !in sets then Some(NotFound)
    else if sets[(session, reactor)].lifecycle == Removed || fault == CleanupWorks then None
    else Some(CleanupError)
  }

  /** Whether one set of ReconcileExpired reports an error. */
  predicate ExpiryFails(s: WorkerSet, fault: CleanupFault, now: Time)
  {
    Due(s, now) && fault != CleanupWorks
  }

  /** Whether one set of ReconcileActive reports an error. */
  predicate ReactivationFails(s: WorkerSet, cleanup: CleanupFault, launch: LaunchFault, now: Time)
  {
    if s.lifecycle == Cleanup || s.lifecycle == CleanupFailed then cleanup != CleanupWorks
    else Live(s.lifecycle) && now < s.expiresAt && launch != StartWorks
  }

  // ---------------------------------------------------------------- the manager

  /** `now` is on its way from `before` to `after`: the keys in `done` have been dealt with. */
  ghost predicate Partly(before: Sets, after: Sets, now: Sets, done: seq<Key>)
  {
    && after.Keys == before.Keys && now.Keys == before.Keys
    && forall k :: k in before ==> now[k] == if k in done then after[k] else before[k]
  }

  lemma PartlyNext(before: Sets, after: Sets, now: Sets, order: seq<Key>, i: nat)
    requires Visits(order, before.Keys) && i < |order| && Partly(before, after, now, order[..i])
    ensures order[i] in before && now[order[i]] == before[order[i]]
    ensures Partly(before, after, now[order[i] := after[order[i]]], order[..i + 1])
  {
    assert order[i] in order && order[i] !in order[..i] && order[..i + 1] == order[..i] + [order[i]];
  }

  lemma PartlyDone(before: Sets, after: Sets, now: Sets, order: seq<Key>)
    requires Visits(order, before.Keys) && Partly(before, after, now, order[..|order|])
    ensures now == after
  {
    assert order[..|order|] == order;
  }

  /** The members of `keys` that have been visited. */
  ghost function Among(visited: seq<Key>, keys: set<Key>): set<Key>
  {
    set k | k in keys && k in visited
  }

  lemma AmongNext(order: seq<Key>, i: nat, keys: set<Key>)
    requires AllDifferent(order) && i < |order|
    ensures |Among(order[..i + 1], keys)| == |Among(order[..i], keys)| + (if order[i] in keys then 1 else 0)
  {
    assert order[..i + 1] == order[..i] + [order[i]];
    assert Among(order[..i + 1], keys) == Among(order[..i], keys) + (if order[i] in keys then {order[i]} else {});
  }

  lemma AllAmong(order: seq<Key>, keys: set<Key>)
    requires forall k :: k in keys ==> k in order
    ensures Among(order[..|order|], keys) == keys
  {
    assert order[..|order|] == order;
  }

  class InMemoryReactorTelemetryStore {
    var sets: Sets

    constructor ()
      ensures sets == map[]
    {
      sets := map[];
    }

    method SaveWorkerSet(k: Key, s: WorkerSet)
      modifies this
      ensures sets == old(sets)[k := Redacted(s)]
    {
      sets := sets[k := Redacted(s)];
    }

    method FindRegistered(session: string, registerKey: string, order: seq<Key>) returns (found: Option<Key>)
      requires Visits(order, sets.Keys) && KeysNameOneSet(sets)
      ensures found == FindRegistration(sets, session, registerKey)
    {
      for i := 0 to |order|
        invariant forall j :: 0 <= j < i ==> !Registers(sets, order[j], session, registerKey)
      {
        assert order[i] in order;
        if order[i].0 == session && sets[order[i]].registerKey == registerKey {
          assert Registers(sets, order[i], session, registerKey);
          return Some(order[i]);
        }
      }
      return None;
    }
  }

  class ReactorTelemetryManager {
    const cfg: Config
    const store: InMemoryReactorTelemetryStore

    constructor (cfg: Config)
      ensures this.cfg == cfg && fresh(store) && store.sets == map[]
    {
      this.cfg := cfg;
      store := new InMemoryReactorTelemetryStore();
    }

    method TouchSession(session: string, order: seq<Key>, now: Time)
      requires Visits(order, store.sets.Keys) && Books(cfg, store.sets)
      modifies store
      ensures store.sets == TouchedAll(cfg, old(store.sets), session, now)
    {
      ghost var before, after := store.sets, TouchedAll(cfg, store.sets, session, now);
      for i := 0 to |order|
        invariant Partly(before, after, store.sets, order[..i])
      {
        var k := order[i];
        PartlyNext(before, after, store.sets, order, i);
        if Reaches(session, k) && Live(store.sets[k].lifecycle) {
          RedactedAgain(cfg, before, k);
          store.SaveWorkerSet(k, Touched(cfg, store.sets[k], now));
        } else {
          assert store.sets == store.sets[k := after[k]];
        }
      }
      PartlyDone(before, after, store.sets, order);
    }

    /** The start both registration and retry share: save, start, save the result. */
    method StartWorkerSet(k: Key, s: WorkerSet, fault: LaunchFault, now: Time) returns (result: WorkerSet, failed: bool)
      requires s.lifecycle == Starting && fault != SourceRejected
      modifies store
      ensures result == Launched(s, fault, now) && (failed <==> fault.StartFails?)
      ensures store.sets == old(store.sets)[k := Redacted(result)]
    {
      store.SaveWorkerSet(k, s);
      if fault.StartFails? {
        result := s.(lifecycle := LaunchFailed, lastError := fault.error, updatedAt := now);
        store.SaveWorkerSet(k, result);
        return result, true;
      }
      result := s.(lifecycle := Active, updatedAt := now);
      store.SaveWorkerSet(k, result);
      return result, false;
    }

    method RetryWorkerSet(k: Key, fault: LaunchFault, now: Time) returns (failed: bool)
      requires k in store.sets && SetBooks(cfg, k, store.sets[k])
      modifies store
      ensures store.sets == old(store.sets)[k := Retried(old(store.sets)[k], fault, now)]
      ensures failed <==> fault != StartWorks
    {
      var s := store.sets[k].(lifecycle := Starting, lastError := "", updatedAt := now);
      for i := 0 to |s.workers|
        invariant |s.workers| == |old(store.sets)[k].workers|
        invariant s == old(store.sets)[k].(
                         lifecycle := Starting, lastError := "", updatedAt := now, workers := s.workers)
        invariant forall j :: 0 <= j < |s.workers| ==> s.workers[j].source == old(store.sets)[k].workers[j].source
      {
        s := s.(workers := s.workers[i := s.workers[i].(token := Some(Claims(k, s.workers[i].source, k.1)))]);
      }
      if fault == SourceRejected {
        assert store.sets == old(store.sets)[k := old(store.sets)[k]];
        return true;
      }
      var result;
      result, failed := StartWorkerSet(k, s, fault, now);
      assert Redacted(result).workers == old(store.sets)[k].workers;
    }

    method RegisterDynamicReactor(
      session: string, reactor: string, key: string, fault: LaunchFault, order: seq<Key>, now: Time)
      returns (r: Result<(Key, bool), Failure>)
      requires Visits(order, store.sets.Keys) && Books(cfg, store.sets)
      modifies store
      ensures store.sets == Registered(cfg, old(store.sets), session, reactor, key, fault, now)
      ensures r == RegistrationAnswer(cfg, old(store.sets), session, reactor, key, fault)
      ensures r.Ok? ==> r.value.0 in store.sets
    {
      if !Valid(cfg) {
        return Err(InvalidConfig);
      }
      if !ValidIdentity(session, reactor, key) {
        return Err(InvalidRequest);
      }
      var found := store.FindRegistered(session, key, order);
      if found.None? && (session, reactor) in store.sets {
        found := Some((session, reactor));
      }
      if found.Some? {
        if store.sets[found.value].lifecycle == Starting || store.sets[found.value].lifecycle == LaunchFailed {
          var failed := RetryWorkerSet(found.value, fault, now);
          return LaunchAnswer(found.value, false, fault);
        }
        return Ok((found.value, false));
      }
      var active := CountUnremoved(session, order);
      if active >= cfg.maxReactors {
        return Err(SessionCap);
      }
      if fault == SourceRejected {
        return Err(SourceError);
      }
      var result, failed := StartWorkerSet((session, reactor), NewSet(cfg, (session, reactor), key, now), fault, now);
      return LaunchAnswer((session, reactor), true, fault);
    }

    method CountUnremoved(session: string, order: seq<Key>) returns (active: nat)
      requires Visits(order, store.sets.Keys)
      ensures active == |Unremoved(store.sets, session)|
    {
      active := 0;
      ghost var counted: set<Key> := {};
      for i := 0 to |order|
        invariant active == |counted|
        invariant forall k :: k in counted <==> k in order[..i] && Counts(store.sets, k, session)
      {
        assert order[..i + 1] == order[..i] + [order[i]];
        assert order[i] in order && order[i] !in order[..i];
        if Counts(store.sets, order[i], session) {
          active := active + 1;
          counted := counted + {order[i]};
        }
      }
      assert order[..|order|] == order;
      assert counted == Unremoved(store.sets, session);
    }

    method CleanupWorkerSet(k: Key, removeKey: RemoveKey, fault: CleanupFault, now: Time) returns (failed: bool)
      requires k in store.sets && SetBooks(cfg, k, store.sets[k])
      modifies store
      ensures store.sets == old(store.sets)[k := Cleaned(cfg, old(store.sets)[k], removeKey, fault, now)]
      ensures failed <==> fault != CleanupWorks
    {
      if fault == Cancelled {
        assert store.sets == old(store.sets)[k := old(store.sets)[k]];
        return true;
      }
      var s := store.sets[k];
      RedactedIsRedacted(s);
      if removeKey != NoKey {
        s := s.(removeKey := removeKey);
      }
      s := s.(revoked := true, lifecycle := Cleanup);
      if s.cleanupDeadline.None? {
        s := s.(cleanupDeadline := Some(now + cfg.cleanupTimeout));
      }
      s := s.(updatedAt := now, lastError := "");
      store.SaveWorkerSet(k, s);
      RedactedIsRedacted(s);
      if fault.StopFails? || fault == StopFailsUnsaved {
        if fault.StopFails? {
          store.SaveWorkerSet(k, s.(lifecycle := CleanupFailed, lastError := fault.error));
          RedactedIsRedacted(s.(lifecycle := CleanupFailed, lastError := fault.error));
        }
        return true;
      }
      if fault == StoppedUnsaved {
        return true;
      }
      store.SaveWorkerSet(k, s.(lifecycle := Removed));
      RedactedIsRedacted(s.(lifecycle := Removed));
      return false;
    }

    method RemoveDynamicReactor(session: string, reactor: string, key: string, fault: CleanupFault, now: Time)
      returns (error: Option<Failure>)
      requires Books(cfg, store.sets)
      modifies store
      ensures store.sets == RemovedReactor(cfg, old(store.sets), session, reactor, key, fault, now)
      ensures error == RemovalFailure(old(store.sets), session, reactor, key, fault)
    {
      if !ValidIdentity(session, reactor, key) {
        return Some(InvalidRequest);
      }
      if (session, reactor) !in store.sets {
        return Some(NotFound);
      }
      if store.sets[(session, reactor)].lifecycle == Removed {
        return None;
      }
      var failed := CleanupWorkerSet((session, reactor), Requested(key), fault, now);
      return if failed then Some(CleanupError) else None;
    }

    /** One set of ReconcileExpired. */
    method ReconcileIfDue(k: Key, fault: CleanupFault, now: Time) returns (failed: bool)
      requires k in store.sets && SetBooks(cfg, k, store.sets[k])
      modifies store
      ensures store.sets == old(store.sets)[k := Expired(cfg, old(store.sets)[k], fault, now)]
      ensures failed <==> ExpiryFails(old(store.sets)[k], fault, now)
    {
      failed := false;
      if Due(store.sets[k], now) {
        var removeKey := if store.sets[k].removeKey == NoKey then Expiry else store.sets[k].removeKey;
        failed := CleanupWorkerSet(k, removeKey, fault, now);
      } else {
        assert store.sets == store.sets[k := store.sets[k]];
      }
    }

    method ReconcileExpired(fault: Key -> CleanupFault, order: seq<Key>, now: Time) returns (failures: nat)
      requires Visits(order, store.sets.Keys) && Books(cfg, store.sets)
      modifies store
      ensures store.sets == ExpiredAll(cfg, old(store.sets), fault, now)
      ensures failures == |set k | k in old(store.sets) && ExpiryFails(old(store.sets)[k], fault(k), now)|
    {
      failures := 0;
      ghost var before, after := store.sets, ExpiredAll(cfg, store.sets, fault, now);
      ghost var failing := set k | k in before && ExpiryFails(before[k], fault(k), now);
      for i := 0 to |order|
        invariant Partly(before, after, store.sets, order[..i])
        invariant failures == |Among(order[..i], failing)|
      {
        PartlyNext(before, after, store.sets, order, i);
        AmongNext(order, i, failing);
        var failed := ReconcileIfDue(order[i], fault(order[i]), now);
        failures := if failed then failures + 1 else failures;
      }
      PartlyDone(before, after, store.sets, order);
      AllAmong(order, failing);
    }

    /** One set of ReconcileActive. */
    method ReconcileIfActive(k: Key, cleanup: CleanupFault, launch: LaunchFault, now: Time) returns (failed: bool)
      requires k in store.sets && SetBooks(cfg, k, store.sets[k])
      modifies store
      ensures store.sets == old(store.sets)[k := Reactivated(cfg, old(store.sets)[k], cleanup, launch, now)]
      ensures failed <==> ReactivationFails(old(store.sets)[k], cleanup, launch, now)
    {
      failed := false;
      if store.sets[k].lifecycle == Cleanup || store.sets[k].lifecycle == CleanupFailed {
        failed := CleanupWorkerSet(k, store.sets[k].removeKey, cleanup, now);
      } else if Live(store.sets[k].lifecycle) && now < store.sets[k].expiresAt {
        failed := RetryWorkerSet(k, launch, now);
      } else {
        assert store.sets == store.sets[k := store.sets[k]];
      }
    }

    method ReconcileActive(cleanup: Key -> CleanupFault, launch: Key -> LaunchFault, order: seq<Key>, now: Time)
      returns (failures: nat)
      requires Visits(order, store.sets.Keys) && Books(cfg, store.sets)
      modifies store
      ensures store.sets == ReactivatedAll(cfg, old(store.sets), cleanup, launch, now)
      ensures failures == |set k | k in old(store.sets)
              && ReactivationFails(old(store.sets)[k], cleanup(k), launch(k), now)|
    {
      failures := 0;
      ghost var before, after := store.sets, ReactivatedAll(cfg, store.sets, cleanup, launch, now);
      ghost var failing := set k | k in before && ReactivationFails(before[k], cleanup(k), launch(k), now);
      for i := 0 to |order|
        invariant Partly(before, after, store.sets, order[..i])
        invariant failures == |Among(order[..i], failing)|
      {
        PartlyNext(before, after, store.sets, order, i);
        AmongNext(order, i, failing);
        var failed := ReconcileIfActive(order[i], cleanup(order[i]), launch(order[i]), now);
        failures := if failed then failures + 1 else failures;
      }
      PartlyDone(before, after, store.sets, order);
      AllAmong(order, failing);
    }

    /** `claims` is what a verified token says; None stands for a token that does not verify. */
    method AuthorizeSourceCredential(
      claims: Option<Claims>, source: SourceId, reactor: string, order: seq<Key>, now: Time)
      returns (ok: bool)
      requires Visits(order, store.sets.Keys)
      ensures ok <==> Authorized(store.sets, claims, source, reactor, now)
    {
      if claims.None? || claims.value.source != source || claims.value.reactor != reactor {
        return false;
      }
      for i := 0 to |order|
        invariant forall j :: 0 <= j < i ==> !Grants(store.sets, order[j], claims.value, source, reactor, now)
      {
        assert order[i] in order;
        var s := store.sets[order[i]];
        if order[i] != claims.value.setId || order[i].1 != reactor || s.revoked
           || !(s.lifecycle == Starting || s.lifecycle == Active) || now >= s.expiresAt {
          continue;
        }
        for w := 0 to |s.workers|
          invariant forall v :: 0 <= v < w ==> s.workers[v].source != source
        {
          if s.workers[w].source == source {
            assert Grants(store.sets, order[i], claims.value, source, reactor, now);
            return true;
          }
        }
      }
      return false;
    }
  }

  predicate Grants(sets: Sets, k: Key, claims: Claims, source: SourceId, reactor: string, now: Time)
  {
    && k in sets && k == claims.setId && k.1 == reactor && !sets[k].revoked
    && (sets[k].lifecycle == Starting || sets[k].lifecycle == Active) && now < sets[k].expiresAt
    && exists i :: 0 <= i < |sets[k].workers| && sets[k].workers[i].source == source
  }

  predicate Authorized(sets: Sets, claims: Option<Claims>, source: SourceId, reactor: string, now: Time)
  {
    && claims.Some? && claims.value.source == source && claims.value.reactor == reactor
    && Grants(sets, claims.value.setId, claims.value, source, reactor, now)
  }

  // ---------------------------------------------------------------- invariants

  /** What the store keeps about one set: credentials are revoked exactly outside the live group, tokens are
      never stored, and its sources are its own. */
  ghost predicate SetBooks(c: Config, k: Key, s: WorkerSet)
  {
    && (s.revoked <==> !Live(s.lifecycle))
    && (s.cleanupDeadline.None? <==> Live(s.lifecycle))
    && |s.workers| == (if c.workersPerSet > 0 then c.workersPerSet else 0)
    && forall i :: 0 <= i < |s.workers| ==> s.workers[i] == Worker(SourceId(k, i), None)
  }

  /** A session and registration key name at most one set. */
  ghost predicate KeysNameOneSet(sets: Sets)
  {
    forall j, k :: j in sets && k in sets && j.0 == k.0 && sets[j].registerKey == sets[k].registerKey ==> j == k
  }

  ghost predicate Books(c: Config, sets: Sets)
  {
    && KeysNameOneSet(sets)
    && (forall k :: k in sets ==> SetBooks(c, k, sets[k]))
  }

  lemma RedactedIsRedacted(s: WorkerSet)
    ensures (forall i :: 0 <= i < |s.workers| ==> s.workers[i].token.None?) ==> Redacted(s) == s
  {
    if forall i :: 0 <= i < |s.workers| ==> s.workers[i].token.None? {
      assert Redacted(s).workers == s.workers;
    }
  }

  lemma RedactedAgain(c: Config, sets: Sets, k: Key)
    requires Books(c, sets) && k in sets
    ensures forall updatedAt, expiresAt ::
      Redacted(sets[k].(updatedAt := updatedAt, expiresAt := expiresAt))
        == sets[k].(updatedAt := updatedAt, expiresAt := expiresAt)
  {
    RedactedIsRedacted(sets[k]);
  }

  // ---------------------------------------------------------------- over whole runs

  datatype Step =
    | Touch(session: string, now: Time)
    | Register(session: string, reactor: string, key: string, fault: LaunchFault, now: Time)
    | Remove(session: string, reactor: string, key: string, cleanup: CleanupFault, now: Time)
    | Expire(cleanups: Key -> CleanupFault, now: Time)
    | Reactivate(cleanups: Key -> CleanupFault, launches: Key -> LaunchFault, now: Time)

  ghost function StepSets(c: Config, sets: Sets, step: Step): Sets
  {
    match step
    case Touch(session, now) => TouchedAll(c, sets, session, now)
    case Register(session, reactor, key, fault, now) => Registered(c, sets, session, reactor, key, fault, now)
    case Remove(session, reactor, key, cleanup, now) => RemovedReactor(c, sets, session, reactor, key, cleanup, now)
    case Expire(cleanups, now) => ExpiredAll(c, sets, cleanups, now)
    case Reactivate(cleanups, launches, now) => ReactivatedAll(c, sets, cleanups, launches, now)
  }

  ghost function RunSets(c: Config, sets: Sets, steps: seq<Step>): Sets
  {
    if steps == [] then sets else StepSets(c, RunSets(c, sets, steps[..|steps| - 1]), steps[|steps| - 1])
  }

  /** The irreversible phases: live, being cleaned up, removed. */
  function Phase(l: Lifecycle): nat
  {
    if Live(l) then 0 else if l == Removed then 2 else 1
  }

  /** Nothing about the set is taken back: its phase, its registration key, and a cleanup deadline once set. */
  ghost predicate Forward(s: WorkerSet, t: WorkerSet)
  {
    && Phase(s.lifecycle) <= Phase(t.lifecycle)
    && t.registerKey == s.registerKey
    && (s.cleanupDeadline.Some? ==> t.cleanupDeadline == s.cleanupDeadline)
  }

  ghost predicate AllForward(sets: Sets, next: Sets)
  {
    forall k :: k in sets ==> k in next && Forward(sets[k], next[k])
  }

  /** A step that changes sets one by one, adding none. */
  ghost predicate EachForward(c: Config, sets: Sets, next: Sets)
  {
    && next.Keys == sets.Keys
    && forall k :: k in sets ==> SetBooks(c, k, next[k]) && Forward(sets[k], next[k])
  }

  lemma CleaningForward(c: Config, k: Key, s: WorkerSet, removeKey: RemoveKey, fault: CleanupFault, now: Time)
    requires SetBooks(c, k, s) && s.lifecycle != Removed
    ensures SetBooks(c, k, Cleaned(c, s, removeKey, fault, now)) && Forward(s, Cleaned(c, s, removeKey, fault, now))
  {
  }

  lemma RetryingForward(c: Config, k: Key, s: WorkerSet, fault: LaunchFault, now: Time)
    requires SetBooks(c, k, s) && Live(s.lifecycle)
    ensures SetBooks(c, k, Retried(s, fault, now)) && Forward(s, Retried(s, fault, now))
  {
  }

  lemma ExpiringForward(c: Config, k: Key, s: WorkerSet, fault: CleanupFault, now: Time)
    requires SetBooks(c, k, s)
    ensures SetBooks(c, k, Expired(c, s, fault, now)) && Forward(s, Expired(c, s, fault, now))
  {
    if Due(s, now) {
      CleaningForward(c, k, s, if s.removeKey == NoKey then Expiry else s.removeKey, fault, now);
    }
  }

  lemma ReactivatingForward(c: Config, k: Key, s: WorkerSet, cleanup: CleanupFault, launch: LaunchFault, now: Time)
    requires SetBooks(c, k, s)
    ensures SetBooks(c, k, Reactivated(c, s, cleanup, launch, now))
            && Forward(s, Reactivated(c, s, cleanup, launch, now))
  {
    if s.lifecycle == Cleanup || s.lifecycle == CleanupFailed {
      CleaningForward(c, k, s, s.removeKey, cleanup, now);
    } else if Live(s.lifecycle) {
      RetryingForward(c, k, s, launch, now);
    }
  }

  lemma RemovingForward(
    c: Config, sets: Sets, session: string, reactor: string, key: string, fault: CleanupFault, now: Time)
    requires Books(c, sets)
    ensures EachForward(c, sets, RemovedReactor(c, sets, session, reactor, key, fault, now))
  {
    if (session, reactor) in sets && sets[(session, reactor)].lifecycle != Removed {
      CleaningForward(c, (session, reactor), sets[(session, reactor)], Requested(key), fault, now);
    }
  }

  lemma ChangesForward(c: Config, sets: Sets, step: Step)
    requires Books(c, sets) && !step.Register?
    ensures EachForward(c, sets, StepSets(c, sets, step))
  {
    match step {
      case Touch(session, now) =>
      case Remove(session, reactor, key, cleanup, now) => RemovingForward(c, sets, session, reactor, key, cleanup, now);
      case Expire(cleanups, now) =>
        forall k | k in sets
          ensures var t := Expired(c, sets[k], cleanups(k), now); SetBooks(c, k, t) && Forward(sets[k], t)
        {
          ExpiringForward(c, k, sets[k], cleanups(k), now);
        }
      case Reactivate(cleanups, launches, now) =>
        forall k | k in sets
          ensures var t := Reactivated(c, sets[k], cleanups(k), launches(k), now);
            SetBooks(c, k, t) && Forward(sets[k], t)
        {
          ReactivatingForward(c, k, sets[k], cleanups(k), launches(k), now);
        }
    }
  }

  lemma ExistingForward(c: Config, sets: Sets, k: Key, fault: LaunchFault, now: Time)
    requires Books(c, sets) && k in sets
    ensures EachForward(c, sets, Existing(sets, k, fault, now))
  {
    if sets[k].lifecycle == Starting || sets[k].lifecycle == LaunchFailed {
      RetryingForward(c, k, sets[k], fault, now);
    }
  }

  lemma NewSetBooks(c: Config, k: Key, key: string, fault: LaunchFault, now: Time)
    ensures var s := Launched(Redacted(NewSet(c, k, key, now)), fault, now);
      SetBooks(c, k, s) && s.registerKey == key
  {
  }

  /** A registration is new when its config and identity are valid, neither its key nor its reactor is known, the
      session has room, and every source is accepted. */
  ghost predicate IsNew(c: Config, sets: Sets, session: string, reactor: string, key: string, fault: LaunchFault)
  {
    && Valid(c) && ValidIdentity(session, reactor, key)
    && FindRegistration(sets, session, key).None? && (session, reactor) !in sets
    && |Unremoved(sets, session)| < c.maxReactors && fault != SourceRejected
  }

  lemma OldRegistrationForward(
    c: Config, sets: Sets, session: string, reactor: string, key: string, fault: LaunchFault, now: Time)
    requires Books(c, sets) && !IsNew(c, sets, session, reactor, key, fault)
    ensures EachForward(c, sets, Registered(c, sets, session, reactor, key, fault, now))
  {
    var found := FindRegistration(sets, session, key);
    if found.Some? {
      ExistingForward(c, sets, found.value, fault, now);
    } else if (session, reactor) in sets {
      ExistingForward(c, sets, (session, reactor), fault, now);
    }
  }

  lemma OnlyRemovedLeave(sets: Sets, next: Sets, session: string)
    requires next.Keys == sets.Keys && forall k :: k in sets ==> Forward(sets[k], next[k])
    ensures |Unremoved(next, session)| <= |Unremoved(sets, session)|
  {
    assert Unremoved(next, session) <= Unremoved(sets, session);
    SizeOfSubset(Unremoved(next, session), Unremoved(sets, session));
  }

  ghost predicate Capped(c: Config, sets: Sets)
  {
    && (!Valid(c) ==> sets == map[])
    && (Valid(c) ==> forall session :: |Unremoved(sets, session)| <= c.maxReactors)
  }

  lemma EachKeeps(c: Config, sets: Sets, next: Sets)
    requires Books(c, sets) && Capped(c, sets) && EachForward(c, sets, next)
    ensures Books(c, next) && Capped(c, next) && AllForward(sets, next)
  {
    forall session ensures |Unremoved(next, session)| <= |Unremoved(sets, session)| {
      OnlyRemovedLeave(sets, next, session);
    }
    if sets == map[] {
      assert next.Keys == {};
    }
  }

  lemma AddingKeepsCap(sets: Sets, k: Key, s: WorkerSet, session: string, cap: int)
    requires k !in sets && |Unremoved(sets, session)| <= cap && |Unremoved(sets, k.0)| < cap
    ensures |Unremoved(sets[k := s], session)| <= cap
  {
    if session == k.0 && s.lifecycle != Removed {
      assert Unremoved(sets[k := s], session) == Unremoved(sets, session) + {k};
    } else {
      assert Unremoved(sets[k := s], session) == Unremoved(sets, session);
    }
  }

  lemma AddingKeepsKeys(sets: Sets, k: Key, s: WorkerSet)
    requires KeysNameOneSet(sets) && FindRegistration(sets, k.0, s.registerKey).None?
    ensures KeysNameOneSet(sets[k := s])
  {
    forall j | j in sets && j.0 == k.0 ensures sets[j].registerKey != s.registerKey {
      assert !Registers(sets, j, k.0, s.registerKey);
    }
  }

  lemma AddingKeeps(c: Config, sets: Sets, k: Key, s: WorkerSet)
    requires Books(c, sets) && Capped(c, sets) && Valid(c) && k !in sets && SetBooks(c, k, s)
    requires |Unremoved(sets, k.0)| < c.maxReactors && FindRegistration(sets, k.0, s.registerKey).None?
    ensures Books(c, sets[k := s]) && Capped(c, sets[k := s]) && AllForward(sets, sets[k := s])
  {
    var next := sets[k := s];
    forall session ensures |Unremoved(next, session)| <= c.maxReactors {
      AddingKeepsCap(sets, k, s, session, c.maxReactors);
    }
    AddingKeepsKeys(sets, k, s);
  }

  lemma StepKeeps(c: Config, sets: Sets, step: Step)
    requires Books(c, sets) && Capped(c, sets)
    ensures var next := StepSets(c, sets, step); Books(c, next) && Capped(c, next) && AllForward(sets, next)
  {
    var next := StepSets(c, sets, step);
    match step {
      case Register(session, reactor, key, fault, now) =>
        if IsNew(c, sets, session, reactor, key, fault) {
          NewSetBooks(c, (session, reactor), key, fault, now);
          AddingKeeps(c, sets, (session, reactor),
              Launched(Redacted(NewSet(c, (session, reactor), key, now)), fault, now));
        } else {
          OldRegistrationForward(c, sets, session, reactor, key, fault, now);
          EachKeeps(c, sets, next);
        }
      case _ =>
        ChangesForward(c, sets, step);
        EachKeeps(c, sets, next);
    }
  }

  lemma {:induction false} RunKeeps(c: Config, sets: Sets, steps: seq<Step>)
    requires Books(c, sets) && Capped(c, sets)
    ensures var next := RunSets(c, sets, steps); Books(c, next) && Capped(c, next) && AllForward(sets, next)
    decreases |steps|
  {
    if steps != [] {
      RunKeeps(c, sets, steps[..|steps| - 1]);
      StepKeeps(c, RunSets(c, sets, steps[..|steps| - 1]), steps[|steps| - 1]);
    }
  }

  /** In every reachable store, credentials are revoked exactly outside the live group and no token is stored. */
  lemma RevokedOutsideLive(c: Config, steps: seq<Step>, k: Key)
    requires k in RunSets(c, map[], steps)
    ensures var s := RunSets(c, map[], steps)[k];
      (s.revoked <==> !Live(s.lifecycle)) && forall i :: 0 <= i < |s.workers| ==> s.workers[i].token.None?
  {
    RunKeeps(c, map[], steps);
  }

  /** No session ever holds more unremoved sets than the configuration allows, nor more than four. */
  lemma CapHolds(c: Config, steps: seq<Step>, session: string)
    ensures |Unremoved(RunSets(c, map[], steps), session)|
            <= (if Valid(c) then c.maxReactors else 0) <= ACCEPTED_REACTORS
  {
    RunKeeps(c, map[], steps);
    if !Valid(c) {
      assert Unremoved(RunSets(c, map[], steps), session) == {};
    }
  }

  /** A session and a registration key never come to name two sets. */
  lemma RegistrationIsUnique(c: Config, steps: seq<Step>, j: Key, k: Key)
    requires var sets := RunSets(c, map[], steps);
      j in sets && k in sets && j.0 == k.0 && sets[j].registerKey == sets[k].registerKey
    ensures j == k
  {
    RunKeeps(c, map[], steps);
  }

  /** Live, cleaning up, removed: no step of any kind leads back, and no set is forgotten. */
  lemma PhasesAreIrreversible(c: Config, steps: seq<Step>, more: seq<Step>, k: Key)
    requires k in RunSets(c, map[], steps)
    ensures k in RunSets(c, RunSets(c, map[], steps), more)
    ensures Forward(RunSets(c, map[], steps)[k], RunSets(c, RunSets(c, map[], steps), more)[k])
  {
    RunKeeps(c, map[], steps);
    RunKeeps(c, RunSets(c, map[], steps), more);
  }

  /** Once the cleanup of a set has been stored, no credential for it is accepted again, whatever happens. */
  lemma CleanupEndsAuthorization(
    c: Config, steps: seq<Step>, more: seq<Step>, k: Key, claims: Claims, source: SourceId, reactor: string, now: Time)
    requires k in RunSets(c, map[], steps) && !Live(RunSets(c, map[], steps)[k].lifecycle)
    requires claims.setId == k
    ensures !Authorized(RunSets(c, RunSets(c, map[], steps), more), Some(claims), source, reactor, now)
  {
    PhasesAreIrreversible(c, steps, more, k);
    RunKeeps(c, map[], steps);
    RunKeeps(c, RunSets(c, map[], steps), more);
  }

  /** The credential issued for a source is accepted exactly while its set is starting or active and unexpired. */
  lemma IssuedCredentialWorks(c: Config, steps: seq<Step>, k: Key, index: nat, now: Time)
    ensures var sets := RunSets(c, map[], steps);
      Authorized(sets, Issue(k, index).token, SourceId(k, index), k.1, now) <==>
        k in sets && (sets[k].lifecycle == Starting || sets[k].lifecycle == Active) && now < sets[k].expiresAt
          && index < |sets[k].workers|
  {
    RunKeeps(c, map[], steps);
    var sets := RunSets(c, map[], steps);
    if k in sets && index < |sets[k].workers| {
      assert sets[k].workers[index].source == SourceId(k, index);
    }
  }

  /** Expiry treats every set on its own: a set ends removed iff it was removed already, or was due and its own
      cleanup worked, whatever failed for the others. */
  lemma ExpiryIsIndependent(c: Config, sets: Sets, fault: Key -> CleanupFault, now: Time, k: Key)
    requires k in sets
    ensures k in ExpiredAll(c, sets, fault, now)
    ensures ExpiredAll(c, sets, fault, now)[k].lifecycle == Removed <==>
      sets[k].lifecycle == Removed || (Due(sets[k], now) && fault(k) == CleanupWorks)
  {
  }

  /** Touching a session lets every credential of its live sets expire a full session time later. It changes no other
      set, neither one that is being cleaned up or gone nor one of another session. */
  lemma TouchExtendsLiveSets(c: Config, steps: seq<Step>, session: string, now: Time, k: Key, index: nat, at: Time)
    requires k in RunSets(c, map[], steps) && index < |RunSets(c, map[], steps)[k].workers|
    ensures var sets := RunSets(c, map[], steps);
      var next := RunSets(c, map[], steps + [Touch(session, now)]);
      && next.Keys == sets.Keys
      && (Reaches(session, k) && Live(sets[k].lifecycle) && sets[k].lifecycle != LaunchFailed ==>
            (Authorized(next, Issue(k, index).token, SourceId(k, index), k.1, at) <==> at < now + c.sessionTtl))
      && (!Reaches(session, k) || !Live(sets[k].lifecycle) ==> next[k] == sets[k])
  {
    assert (steps + [Touch(session, now)])[..|steps|] == steps;
    IssuedCredentialWorks(c, steps + [Touch(session, now)], k, index, at);
  }
}
