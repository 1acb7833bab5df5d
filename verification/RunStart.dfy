/**
 SimopsRunLifecyclePolicy.Start: a new run is launched or undone; a retried idempotency key gets the run it first
 created, and one whose start was left incomplete is first recovered into a failed run.
 */
module RunStart {
  import opened Prelude
  import opened SimopsState
  import opened SimopsStore
  import opened PublicationOutbox
  import opened RunLaunch

  // ---------------------------------------------------------------- recovering an incomplete start

  /** What the runtime reports when the workers of an incomplete start are looked up, and how the recovery goes. */
  datatype Recovery = Recovery(
    profilesBuilt: bool, synced: bool, observations: seq<Observation>, compensated: bool, fault: PublishFault)

  /** observedRuntimeResourceExists */
  predicate ResourceExists(o: Observation)
  {
    !Blank(o.runtimeId) || o.state in {Pending, ActiveSeen, Succeeded, FailedSeen, StoppedSeen}
  }

  /** The observations that say a worker of the run exists in the runtime. */
  predicate SeenRunning(observations: seq<Observation>, id: string)
  {
    exists o :: o in observations && o.worker == id && ResourceExists(o)
  }

  /** What the workers of a recovered run ended as. */
  ghost predicate Recovered(f: RunFile, g: RunFile, recovery: Recovery)
  {
    && g.run.id == f.run.id && g.run.lifecycle == LifecycleFailed && g.run.state == Some(RunStateOf(LifecycleFailed))
    && g.workers.Keys == f.workers.Keys
    && (forall id :: id in g.workers ==>
          g.workers[id].lifecycle ==
            if recovery.profilesBuilt && recovery.synced && SeenRunning(recovery.observations, id)
              && recovery.compensated
            then LifecycleStopped else LifecycleFailed)
    && g.artifacts == FailFirsts(f.artifacts)
    && g.intents == f.intents
    && |g.events| == |f.events| + 1 && f.events <= g.events && g.events[|f.events|].eventType == "run.lifecycle.failure"
  }

  /** Recording observations changes no worker's identity and nothing but workers, evidence and the run's state. */
  ghost predicate OnlyObserved(f: RunFile, g: RunFile)
  {
    && g.run.id == f.run.id && g.workers.Keys == f.workers.Keys
    && g.artifacts == f.artifacts && g.events == f.events && g.intents == f.intents
  }

  /** How ranging over the workers of each run happens to go. */
  type Listing = string -> seq<string>

  ghost predicate ListsAll(listing: Listing, files: map<string, RunFile>)
  {
    forall r :: r in files ==> Visits(listing(r), files[r].workers.Keys)
  }

  /** Only recorded observations changed the files, and only those of the runs they name. */
  ghost predicate FilesObserved(
    before: map<string, RunFile>, after: map<string, RunFile>, observations: seq<Observation>)
  {
    && after.Keys == before.Keys
    && (forall r :: r in before ==> OnlyObserved(before[r], after[r]))
    && (forall r :: r in before && (forall o :: o in observations ==> o.run != r) ==> after[r] == before[r])
  }

  lemma ListingStays(
    listing: Listing, before: map<string, RunFile>, after: map<string, RunFile>, observations: seq<Observation>)
    requires ListsAll(listing, before) && FilesObserved(before, after, observations)
    ensures ListsAll(listing, after)
  {
    forall r | r in after ensures Visits(listing(r), after[r].workers.Keys) {
      assert OnlyObserved(before[r], after[r]);
    }
  }

  /** Recording one observation, with the run it names; it may fail, which the recovery only notes. */
  method RecordObservation(store: InMemorySimopsStore, o: Observation, listing: Listing, now: Time)
    requires store.Valid() && ListsAll(listing, store.files)
    modifies store`files
    ensures store.Valid() && FilesObserved(old(store.files), store.files, [o])
  {
    ghost var before := store.files;
    var recorded := store.UpdateWorkerObservedLifecycle(o, listing(o.run), now);
    assert o in [o];
    assert recorded.Ok? ==> OnlyObserved(before[o.run], store.files[o.run]);
  }

  lemma OneMoreObserved(
    before: map<string, RunFile>, mid: map<string, RunFile>, after: map<string, RunFile>,
    observations: seq<Observation>,
    o: Observation)
    requires FilesObserved(before, mid, observations) && FilesObserved(mid, after, [o])
    ensures FilesObserved(before, after, observations + [o])
  {
    forall r | r in before ensures OnlyObserved(before[r], after[r])
      ensures (forall x :: x in observations + [o] ==> x.run != r) ==> after[r] == before[r]
    {
      assert OnlyObserved(before[r], mid[r]) && OnlyObserved(mid[r], after[r]);
      assert o in observations + [o];
      assert forall x :: x in observations ==> x in observations + [o];
    }
  }

  /** The loop body: an observation of an unknown worker is passed over. */
  method NoteObservation(
    store: InMemorySimopsStore, workersById: map<string, Worker>, launched: seq<Worker>, o: Observation,
    listing: Listing, now: Time)
    returns (noted: seq<Worker>)
    requires store.Valid() && ListsAll(listing, store.files)
    requires o.worker in workersById ==> workersById[o.worker].id == o.worker
    modifies store`files
    ensures store.Valid() && FilesObserved(old(store.files), store.files, [o])
    ensures forall id :: HasId(noted, id) <==>
      HasId(launched, id) || (id in workersById && o.worker == id && ResourceExists(o))
  {
    noted := launched;
    if o.worker in workersById {
      RecordObservation(store, o, listing, now);
      if ResourceExists(o) {
        noted := launched + [ApplyObserved(workersById[o.worker], o, now)];
        forall id ensures HasId(noted, id) <==> HasId(launched, id) || o.worker == id {
          HasOneMore(noted, id);
          assert noted[..|launched|] == launched;
        }
      }
    }
  }

  /** The observation loop of recoverIncompleteStart. */
  method RecordObservations(
    store: InMemorySimopsStore, workers: seq<Worker>, listing: Listing, observations: seq<Observation>, now: Time)
    returns (launched: seq<Worker>)
    requires store.Valid() && ListsAll(listing, store.files)
    modifies store`files
    ensures store.Valid() && FilesObserved(old(store.files), store.files, observations)
    ensures forall id :: HasId(launched, id) <==> HasId(workers, id) && SeenRunning(observations, id)
  {
    LatestHasId(workers);
    launched := [];
    for i := 0 to |observations|
      invariant store.Valid() && FilesObserved(old(store.files), store.files, observations[..i])
      invariant forall id :: HasId(launched, id) <==> HasId(workers, id) && SeenRunning(observations[..i], id)
    {
      ghost var mid := store.files;
      ListingStays(listing, old(store.files), mid, observations[..i]);
      launched := NoteObservation(store, LatestById(workers), launched, observations[i], listing, now);
      assert observations[..i + 1] == observations[..i] + [observations[i]];
      SeenOneMore(observations[..i], observations[i]);
      OneMoreObserved(old(store.files), mid, store.files, observations[..i], observations[i]);
    }
    assert observations[..|observations|] == observations;
  }

  lemma SeenOneMore(observations: seq<Observation>, o: Observation)
    ensures forall id :: SeenRunning(observations + [o], id) <==>
      SeenRunning(observations, id) || (o.worker == id && ResourceExists(o))
  {
    assert forall x :: x in observations + [o] <==> x in observations || x == o;
  }

  /** Recovering a run fails it; reports that name another run are recorded with that run. */
  ghost predicate RecoveredFiles(
    before: map<string, RunFile>, after: map<string, RunFile>, run: string, recovery: Recovery)
  {
    && run in before && after.Keys == before.Keys
    && Recovered(before[run], after[run], recovery)
    && (forall r :: r in before && r != run ==> OnlyObserved(before[r], after[r]))
    && (forall r :: r in before && r != run && (forall o :: o in recovery.observations ==> o.run != r) ==>
        after[r] == before[r])
  }

  /** recoverIncompleteStart: find out what runs, stop it, and record the run as failed. */
  method RecoverIncompleteStart(
    store: InMemorySimopsStore, log: RedpandaEventLog, run: string, listing: Listing, recovery: Recovery, now: Time)
    returns (error: LifecycleError)
    requires store.Valid() && log.store == store && run in store.files && ListsAll(listing, store.files)
    modifies store`files, log`broker
    ensures store.Valid()
    ensures error == LifecycleError(IncompleteRecovery, recovery.compensated)
    ensures RecoveredFiles(old(store.files), store.files, run, recovery)
  {
    var stored, order := store.files[run].workers, listing(run);
    var workers := seq(|order|, i requires 0 <= i < |order| => stored[order[i]]);
    assert IdsOf(workers) == order;
    ListedIds(workers, order);
    var launched: seq<Worker> := [];
    if recovery.profilesBuilt && recovery.synced {
      launched := RecordObservations(store, workers, listing, recovery.observations, now);
    }
    ghost var observed := store.files;
    error := Fail(store, log, run, workers, launched, recovery.compensated, recovery.fault, IncompleteRecovery, now);
    FailingRecovers(old(store.files)[run], observed[run], store.files[run], workers, launched, recovery, now);
  }

  lemma FailingRecovers(
    f: RunFile, observed: RunFile, g: RunFile, workers: seq<Worker>, launched: seq<Worker>, recovery: Recovery,
    now: Time)
    requires OnlyObserved(f, observed) && LaunchFailed(observed, g, workers, launched, recovery.compensated, now)
    requires forall id :: id in f.workers <==> HasId(workers, id)
    requires forall id :: HasId(launched, id) <==>
      HasId(workers, id) && recovery.profilesBuilt && recovery.synced && SeenRunning(recovery.observations, id)
    ensures Recovered(f, g, recovery)
  {
    forall id | id in g.workers ensures HasId(workers, id) && id in f.workers {
    }
  }

  lemma ListedIds(workers: seq<Worker>, listing: seq<string>)
    requires IdsOf(workers) == listing
    ensures forall id :: HasId(workers, id) <==> id in listing
  {
    forall id ensures HasId(workers, id) <==> id in listing {
      if HasId(workers, id) {
        var i :| 0 <= i < |workers| && workers[i].id == id;
        assert IdsOf(workers)[i] == id;
      }
      if id in listing {
        var i :| 0 <= i < |listing| && listing[i] == id;
        assert workers[i] in workers;
      }
    }
  }

  // ---------------------------------------------------------------- starting

  const STALE_AFTER: Time := 60

  /** incompleteStartIsStale */
  predicate Stale(run: Run, now: Time)
  {
    run.updatedAt == ZERO_TIME || now >= run.updatedAt + STALE_AFTER
  }

  datatype Outcome = Started(
    run: string, created: bool) | Refused(reason: Error) | Failed(run: string, created: bool, error: LifecycleError)

  /** The run an idempotency key already stands for. */
  function Earlier(idempotency: map<(string, string), string>, record: Run): Option<string>
  {
    if record.idempotencyKey != "" && (record.submittedBy, record.idempotencyKey) in idempotency
    then Some(idempotency[(record.submittedBy, record.idempotencyKey)]) else None
  }

  /** A retry found `was`: a start left incomplete long enough is recovered, anything else is returned as it is. */
  ghost predicate Retried(
    before: map<string, RunFile>, after: map<string, RunFile>, run: string, recovery: Recovery, now: Time,
    outcome: Outcome)
    requires run in before
  {
    if before[run].run.lifecycle == Starting && Stale(before[run].run, now) then
      && outcome == Outcome.Failed(run, false, LifecycleError(IncompleteRecovery, recovery.compensated))
      && RecoveredFiles(before, after, run, recovery)
    else outcome == Started(run, false) && after == before
  }

  /** A new run was launched if everything worked, and undone otherwise. */
  ghost predicate Attempted(
    before: map<string, RunFile>, after: map<string, RunFile>, run: string, planned: seq<Worker>, env: Environment,
    outcome: Outcome)
  {
    && run in after
    && if LaunchWorks(before.Keys + {run}, run, planned, env) then
         && after == Elsewhere(before, run, env.sink)[run := after[run]]
         && outcome == Started(run, true) && LaunchSucceeded(after[run], planned, env)
       else
         && after == before[run := after[run]]
         && outcome.Failed? && outcome.run == run && outcome.created
         && LaunchUndone(after[run], planned, env, outcome.error.phase)
  }

  /** The new-run branch of Start. */
  method StartNew(
    store: InMemorySimopsStore, log: RedpandaEventLog, record: Run, planned: seq<Worker>, env: Environment, now: Time)
    returns (outcome: Outcome)
    requires store.Valid() && log.store == store && record.id in store.files
    requires KindsAgree(planned) && store.files[record.id] == NewFile(record, planned)
    modifies store`files, log`broker
    ensures store.Valid()
    ensures Attempted(old(store.files), store.files, record.id, planned, env, outcome)
  {
    AddWorkersIds(planned);
    var trouble := LaunchRun(store, log, record.id, planned, env, now);
    return if trouble.Some? then Outcome.Failed(record.id, true, trouble.value) else Started(record.id, true);
  }

  lemma AttemptedSinceAdmission(
    before: map<string, RunFile>, admitted: RunFile, after: map<string, RunFile>, run: string, planned: seq<Worker>,
    env: Environment, outcome: Outcome)
    requires Attempted(before[run := admitted], after, run, planned, env, outcome)
    ensures Attempted(before, after, run, planned, env, outcome)
  {
    assert before[run := admitted].Keys + {run} == before.Keys + {run};
    assert before[run := admitted][run := after[run]] == before[run := after[run]];
    assert Elsewhere(before[run := admitted], run, env.sink)[run := after[run]]
      == Elsewhere(before, run, env.sink)[run := after[run]];
  }

  /** The retry branch of Start. */
  method Retry(
    store: InMemorySimopsStore, log: RedpandaEventLog, run: Run, listing: Listing, recovery: Recovery, now: Time)
    returns (outcome: Outcome)
    requires store.Valid() && log.store == store && run.id in store.files && store.files[run.id].run == run
    requires ListsAll(listing, store.files)
    modifies store`files, log`broker
    ensures store.Valid()
    ensures Retried(old(store.files), store.files, run.id, recovery, now, outcome)
  {
    if run.lifecycle == Starting && Stale(run, now) {
      var error := RecoverIncompleteStart(store, log, run.id, listing, recovery, now);
      return Outcome.Failed(run.id, false, error);
    }
    return Started(run.id, false);
  }

  /** SimopsRunLifecyclePolicy.Start. */
  method Start(
    store: InMemorySimopsStore, log: RedpandaEventLog, record: Run, kinds: seq<string>, env: Environment,
    listing: Listing, recovery: Recovery, now: Time) returns (outcome: Outcome)
    requires store.Valid() && log.store == store
    requires Earlier(store.idempotency, record).Some? ==> ListsAll(listing, store.files)
    modifies store, log`broker
    ensures store.Valid()
    ensures var earlier := Earlier(old(store.idempotency), record);
      if earlier.Some? then
        && store.idempotency == old(store.idempotency)
        && Retried(old(store.files), store.files, earlier.value, recovery, now, outcome)
      else if record.id in old(store.files) then
        outcome == Refused(Conflict) && store.files == old(store.files) && store.idempotency == old(store.idempotency)
      else
        && Earlier(store.idempotency, record) == (if record.idempotencyKey == "" then None else Some(record.id))
        && Attempted(old(store.files), store.files, record.id, PlannedFor(record.id, kinds, now), env, outcome)
  {
    var planned := PlannedWorkerRecords(record.id, kinds, now);
    var created := store.CreateRun(record, planned);
    if created.Err? {
      return Refused(created.error);
    }
    var (run, isNew) := created.value;
    if !isNew {
      outcome := Retry(store, log, run, listing, recovery, now);
      return;
    }
    PlannedKindsAgree(record.id, kinds, now);
    outcome := StartNew(store, log, record, planned, env, now);
    AttemptedSinceAdmission(old(store.files), NewFile(record, planned), store.files, record.id, planned, env, outcome);
  }

  lemma ListingAfterAttempt(
    before: map<string, RunFile>, after: map<string, RunFile>, run: string, planned: seq<Worker>, env: Environment,
    outcome: Outcome, listing: Listing)
    requires Attempted(before, after, run, planned, env, outcome) && run !in before && ListsAll(listing, before)
    requires Visits(listing(run), AddWorkers(planned).Keys)
    ensures ListsAll(listing, after) && after.Keys == before.Keys + {run} && after[run].run.lifecycle != Starting
  {
    AddWorkersIds(planned);
    assert after[run].workers.Keys == AddWorkers(planned).Keys;
    forall r | r in after ensures Visits(listing(r), after[r].workers.Keys) {
      assert r != run ==> r in before && after[r].workers == before[r].workers;
    }
  }

  /** Starting twice with the same key, while the first run is not stuck, creates nothing and finds the first run. */
  method StartTwice(
    store: InMemorySimopsStore, log: RedpandaEventLog, record: Run, again: Run, kinds: seq<string>, env: Environment,
    other: Environment, listing: Listing, recovery: Recovery, now: Time, later: Time) returns (first: Outcome,
    second: Outcome)
    requires store.Valid() && log.store == store && Earlier(store.idempotency, record).None?
    requires record.id !in store.files
    requires record.idempotencyKey != ""
    requires again.idempotencyKey == record.idempotencyKey && again.submittedBy == record.submittedBy
    requires ListsAll(listing, store.files)
            && Visits(listing(record.id), AddWorkers(PlannedFor(record.id, kinds, now)).Keys)
    modifies store, log`broker
    ensures store.Valid()
    ensures first != Refused(Conflict) && second == Started(record.id, false)
    ensures store.files.Keys == old(store.files.Keys) + {record.id}
    ensures LaunchWorks(old(store.files.Keys) + {record.id}, record.id, PlannedFor(record.id, kinds, now), env) ==>
              record.id in store.files
                && LaunchSucceeded(store.files[record.id], PlannedFor(record.id, kinds, now), env)
  {
    first := Start(store, log, record, kinds, env, listing, recovery, now);
    ListingAfterAttempt(old(store.files), store.files, record.id, PlannedFor(record.id, kinds, now), env, first,
        listing);
    second := Start(store, log, again, kinds, other, listing, recovery, later);
  }
}
