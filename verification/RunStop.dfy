/** SimopsStopOrchestrator.Stop: three store transitions around the runtime's stop and cleanup. */
module RunStop {
  import opened Prelude
  import opened SimopsState
  import opened SimopsStore

  /** An error of a runtime adapter; a confirmed one is known to have happened. */
  datatype RuntimeError = RuntimeError(message: string, confirmed: bool)

  /** One store transition of a Stop: how the store's map range goes, and what the orchestrator's and the store's
      clocks show. */
  datatype Pass = Pass(order: seq<string>, at: Time, clock: Time)

  /** What the adapters do during one Stop, and how its three transitions go. */
  datatype Attempt = Attempt(
    profilesBuilt: bool, stop: Option<RuntimeError>, cleanup: Option<RuntimeError>,
    requested: Pass, inProgress: Pass, final: Pass)

  /** The store reads its own clock only where the orchestrator's shows no time. */
  function Moment(p: Pass): Time
  {
    if p.at == ZERO_TIME then p.clock else p.at
  }

  function ErrorText(e: Option<RuntimeError>): string
  {
    if e.None? then "" else e.value.message
  }

  predicate IsConfirmed(e: Option<RuntimeError>)
  {
    e.Some? && e.value.confirmed
  }

  function CleanupOf(e: Option<RuntimeError>): Cleanup
  {
    if e.None? then CleanupCompleted else if e.value.confirmed then CleanupFailed else CleanupIncomplete
  }

  function Requesting(a: Attempt): StopTransition
  {
    StopTransition(Requested, "", false, "", a.requested.at)
  }

  function Progressing(a: Attempt): StopTransition
  {
    StopTransition(InProgress, ErrorText(a.stop), IsConfirmed(a.stop), "", a.inProgress.at)
  }

  function Finishing(a: Attempt): StopTransition
  {
    StopTransition(CleanupOf(a.cleanup), ErrorText(a.stop), IsConfirmed(a.stop), ErrorText(a.cleanup), a.final.at)
  }

  ghost predicate Ranges(a: Attempt, f: RunFile)
  {
    Visits(a.requested.order, f.workers.Keys) && Visits(a.inProgress.order, f.workers.Keys)
      && Visits(a.final.order, f.workers.Keys)
  }

  /** The run's file after a Stop that got as far as its last transition. */
  ghost function Stopped(f: RunFile, a: Attempt): RunFile
    requires Ranges(a, f)
  {
    var f1 := StopFile(f, Requesting(a), a.requested.order, Moment(a.requested));
    StopFileKeepsKeys(f, Requesting(a), a.requested.order, Moment(a.requested));
    var f2 := StopFile(f1, Progressing(a), a.inProgress.order, Moment(a.inProgress));
    StopFileKeepsKeys(f1, Progressing(a), a.inProgress.order, Moment(a.inProgress));
    StopFile(f2, Finishing(a), a.final.order, Moment(a.final))
  }

  lemma StopFileKeepsKeys(f: RunFile, t: StopTransition, order: seq<string>, now: Time)
    requires Visits(order, f.workers.Keys)
    ensures StopFile(f, t, order, now).workers.Keys == f.workers.Keys
    ensures StopFile(f, t, order, now).run.id == f.run.id
  {
    StopEachKeepsKeys(f, t, order, now);
  }

  datatype StopError = UnknownRun | NoProfiles | RuntimeFailed

  /** The run's file after a Stop; without connection profiles it ends with the first transition. */
  ghost function After(f: RunFile, a: Attempt): RunFile
    requires Ranges(a, f)
  {
    if a.profilesBuilt then Stopped(f, a) else StopFile(f, Requesting(a), a.requested.order, Moment(a.requested))
  }

  /** What Stop returns: an error of either runtime call, even one the store did not see. */
  ghost function Answer(f: RunFile, a: Attempt): Result<Run, StopError>
    requires Ranges(a, f)
  {
    if !a.profilesBuilt then Err(NoProfiles)
    else if a.stop.Some? || a.cleanup.Some? then Err(RuntimeFailed)
    else Ok(After(f, a).run)
  }

  /** One transition, as the orchestrator has the store apply it. */
  method ApplyPass(store: InMemorySimopsStore, run: string, t: StopTransition, p: Pass) returns (r: Run)
    requires store.Valid() && t.at == p.at
    requires run in store.files && Visits(p.order, store.files[run].workers.Keys)
    modifies store`files
    ensures store.Valid()
    ensures store.files == old(store.files)[run := StopFile(old(store.files)[run], t, p.order, Moment(p))]
    ensures r == store.files[run].run
    ensures store.files[run].workers.Keys == old(store.files)[run].workers.Keys
  {
    var applied := store.ApplyStopTransition(run, t, p.order, p.clock);
    StopFileKeepsKeys(old(store.files)[run], t, p.order, Moment(p));
    return applied.value;
  }

  method Stop(store: InMemorySimopsStore, run: string, a: Attempt) returns (r: Result<Run, StopError>)
    requires store.Valid()
    requires run in store.files ==> Ranges(a, store.files[run])
    modifies store`files
    ensures store.Valid()
    ensures run !in old(store.files) ==> r == Err(UnknownRun) && store.files == old(store.files)
    ensures run in old(store.files) ==>
      && store.files == old(store.files)[run := After(old(store.files)[run], a)]
      && r == Answer(old(store.files)[run], a)
  {
    if run !in store.files {
      return Err(UnknownRun);
    }
    var requested := ApplyPass(store, run, Requesting(a), a.requested);
    if !a.profilesBuilt {
      return Err(NoProfiles);
    }
    var progressing := ApplyPass(store, run, Progressing(a), a.inProgress);
    var finished := ApplyPass(store, run, Finishing(a), a.final);
    if a.stop.Some? || a.cleanup.Some? {
      return Err(RuntimeFailed);
    }
    return Ok(finished);
  }

  // ---------------------------------------------------------------- what a stop transition does to each worker

  lemma {:induction false} StopEachAt(f: RunFile, t: StopTransition, order: seq<string>, now: Time, id: string)
    requires AllDifferent(order) && (forall k :: k in order ==> k in f.workers) && id in f.workers
    ensures id in StopEach(f, t, order, now).workers
    ensures StopEach(f, t, order, now).workers[id] == if id in order
            then StopWorker(f.workers[id], t, now).0 else f.workers[id]
    decreases |order|
  {
    if order != [] {
      SplitLast(order);
      StopEachAt(f, t, order[..|order| - 1], now, id);
    }
  }

  /** Every worker is transformed on its own, whatever order the workers are visited in. */
  lemma StopFileAt(f: RunFile, t: StopTransition, order: seq<string>, now: Time, id: string)
    requires Visits(order, f.workers.Keys) && id in f.workers
    ensures id in StopFile(f, t, order, now).workers
    ensures StopFile(f, t, order, now).workers[id] == StopWorker(f.workers[id], t, now).0
  {
    StopEachAt(f, t, order, now, id);
  }

  predicate HasFailed(w: Worker)
  {
    EnsureWorkerState(w).condition.status == Failed
  }

  /** Every worker without a failure has stopped executing and is recorded as stopped. */
  ghost predicate AllStopped(f: RunFile)
  {
    forall id :: id in f.workers ==>
      var w := f.workers[id];
      w.lifecycle == LifecycleStopped && w.state.Some? && w.state.value.phase == WorkerStopped
        && w.state.value.execution == Terminal
  }

  /** A transition without stop failure that only notes the cleanup changes no worker's failure. */
  lemma QuietKeepsFailure(w: Worker, t: StopTransition, now: Time)
    requires t.stopFailure == "" && t.cleanup in {Requested, InProgress, CleanupCompleted}
    ensures HasFailed(StopWorker(w, t, now).0) == HasFailed(w)
    ensures StopWorker(w, t, now).0.state.Some? && StopWorker(w, t, now).0.state.value.cleanup == t.cleanup
    ensures Clean(t) && !HasFailed(w) ==>
      var v := StopWorker(w, t, now).0;
      v.lifecycle == LifecycleStopped && v.state.value.phase == WorkerStopped && v.state.value.execution == Terminal
  {
  }

  lemma QuietKeepsFailures(f: RunFile, t: StopTransition, order: seq<string>, now: Time)
    requires Visits(order, f.workers.Keys)
    requires t.stopFailure == "" && t.cleanup in {Requested, InProgress, CleanupCompleted}
    ensures var g := StopFile(f, t, order, now);
      g.workers.Keys == f.workers.Keys
      && forall id :: id in f.workers ==> HasFailed(g.workers[id]) == HasFailed(f.workers[id])
  {
    StopFileKeepsKeys(f, t, order, now);
    forall id | id in f.workers ensures HasFailed(StopFile(f, t, order, now).workers[id]) == HasFailed(f.workers[id]) {
      StopFileAt(f, t, order, now, id);
      QuietKeepsFailure(f.workers[id], t, now);
    }
  }

  // ---------------------------------------------------------------- the last transition

  /** What a clean final transition makes of a worker. */
  ghost predicate Finished(w: Worker, v: Worker)
  {
    && HasFailed(v) == HasFailed(w)
    && v.state.Some? && v.state.value.cleanup == CleanupCompleted
    && (!HasFailed(w) ==>
          v.lifecycle == LifecycleStopped && v.state.value.phase == WorkerStopped
            && v.state.value.execution == Terminal)
  }

  lemma CleanFinishesEach(f: RunFile, t: StopTransition, order: seq<string>, now: Time)
    requires Visits(order, f.workers.Keys) && Clean(t)
    ensures var g := StopFile(f, t, order, now);
      g.workers.Keys == f.workers.Keys && forall id :: id in f.workers ==> Finished(f.workers[id], g.workers[id])
  {
    StopFileKeepsKeys(f, t, order, now);
    forall id | id in f.workers ensures Finished(f.workers[id], StopFile(f, t, order, now).workers[id]) {
      StopFileAt(f, t, order, now, id);
      QuietKeepsFailure(f.workers[id], t, now);
    }
  }

  ghost predicate AnyHasFailed(workers: map<string, Worker>)
  {
    exists id :: id in workers && HasFailed(workers[id])
  }

  lemma JudgeFinished(before: map<string, Worker>, after: map<string, Worker>, order: seq<string>)
    requires after.Keys == before.Keys && Visits(order, after.Keys)
    requires forall id :: id in before ==> Finished(before[id], after[id])
    ensures DerivedPhase(StatesOf(after, order)) ==
            if AnyHasFailed(before) then RunFailed else if before == map[] then RunCompleted else RunStopped
  {
    var states := StatesOf(after, order);
    forall i | 0 <= i < |order|
      ensures order[i] in before && CountsFailed(states[i]) == HasFailed(before[order[i]])
      ensures !HasFailed(before[order[i]]) ==> states[i].phase == WorkerStopped
    {
      assert order[i] in after.Keys;
      assert Finished(before[order[i]], after[order[i]]);
    }
    if AnyHasFailed(before) {
      var id :| id in before && HasFailed(before[id]);
      assert id in order;
      var i :| 0 <= i < |order| && order[i] == id;
      assert states[i] in states && CountsFailed(states[i]);
    } else if before != map[] {
      var id :| id in before;
      assert id in order;
      assert states[0] in states && states[0].phase == WorkerStopped;
      assert !AnyFailed(states);
    }
  }

  /** The judgment of a clean final transition. */
  lemma CleanFinish(f: RunFile, t: StopTransition, order: seq<string>, now: Time)
    requires Visits(order, f.workers.Keys) && Clean(t)
    ensures var g := StopFile(f, t, order, now);
      && g.run.state.Some?
      && g.run.state.value.phase ==
         (if AnyHasFailed(f.workers) then RunFailed else if f.workers == map[] then RunCompleted else RunStopped)
      && (!AnyHasFailed(f.workers) ==> AllStopped(g))
  {
    CleanFinishesEach(f, t, order, now);
    StopEachKeepsKeys(f, t, order, now);
    JudgeFinished(f.workers, StopFile(f, t, order, now).workers, order);
  }

  /** A final transition with a failure leaves the run stopping and queues nothing. */
  lemma UncleanFinish(f: RunFile, t: StopTransition, order: seq<string>, now: Time)
    requires Visits(order, f.workers.Keys) && !Clean(t)
    ensures var g := StopFile(f, t, order, now);
      g.run.state.Some? && g.run.state.value.phase == Stopping && g.run.lifecycle == LifecycleDegraded
        && g.intents == f.intents
      && g.run.state.value.condition.status != Nominal
  {
    StopEachKeepsKeys(f, t, order, now);
  }

  /** Whether Stop ends with everything quiet, as the store sees it: a stop error without text is not seen. */
  predicate Quiet(a: Attempt)
  {
    ErrorText(a.stop) == "" && a.cleanup.None?
  }

  function StoppedId(run: string): IntentId
  {
    IntentId(run, "run.lifecycle", Some(LifecycleStopped))
  }

  /** How a run is judged after its last transition. */
  ghost predicate Judged(f: RunFile, g: RunFile, quiet: bool)
  {
    var id := StoppedId(f.run.id);
    && g.run.state.Some? && g.run.lifecycle == ProjectRun(g.run.state.value)
    && g.run.state.value.phase ==
       (if !quiet then Stopping else if AnyHasFailed(f.workers) then RunFailed
        else if f.workers == map[] then RunCompleted else RunStopped)
    && (g.run.lifecycle == LifecycleStopped ==>
        AllStopped(g) && id in g.intents && g.intents[id].state == PendingIntent)
    && (g.run.lifecycle != LifecycleStopped ==> g.intents == f.intents)
  }

  lemma LastTransitionJudges(f: RunFile, a: Attempt)
    requires Visits(a.final.order, f.workers.Keys)
    ensures Judged(f, StopFile(f, Finishing(a), a.final.order, Moment(a.final)), Quiet(a))
  {
    QueuesIffStopped(f, Finishing(a), a.final.order, Moment(a.final));
    if Quiet(a) {
      CleanFinish(f, Finishing(a), a.final.order, Moment(a.final));
    } else {
      UncleanFinish(f, Finishing(a), a.final.order, Moment(a.final));
    }
  }

  /** The first two transitions of a Stop only prepare the last one. */
  ghost predicate Prepared(f: RunFile, g: RunFile, quiet: bool)
  {
    && g.run.id == f.run.id && g.intents == f.intents && g.workers.Keys == f.workers.Keys
    && (quiet ==> forall id :: id in f.workers ==> HasFailed(g.workers[id]) == HasFailed(f.workers[id]))
  }

  lemma EarlyTransitionPrepares(f: RunFile, t: StopTransition, order: seq<string>, now: Time)
    requires Visits(order, f.workers.Keys) && t.cleanup in {Requested, InProgress}
    ensures Prepared(f, StopFile(f, t, order, now), t.stopFailure == "")
  {
    StopFileKeepsKeys(f, t, order, now);
    UncleanFinish(f, t, order, now);
    if t.stopFailure == "" {
      QuietKeepsFailures(f, t, order, now);
    }
  }

  lemma PreparedThenJudged(f: RunFile, f1: RunFile, f2: RunFile, g: RunFile, quiet: bool)
    requires Prepared(f, f1, true) && Prepared(f1, f2, quiet) && Judged(f2, g, quiet)
    ensures Judged(f, g, quiet)
  {
    if quiet {
      SameFailures(f, f2);
    }
  }

  lemma StopJudges(f: RunFile, a: Attempt)
    requires Ranges(a, f)
    ensures Judged(f, Stopped(f, a), Quiet(a))
  {
    var f1 := StopFile(f, Requesting(a), a.requested.order, Moment(a.requested));
    EarlyTransitionPrepares(f, Requesting(a), a.requested.order, Moment(a.requested));
    var f2 := StopFile(f1, Progressing(a), a.inProgress.order, Moment(a.inProgress));
    EarlyTransitionPrepares(f1, Progressing(a), a.inProgress.order, Moment(a.inProgress));
    LastTransitionJudges(f2, a);
    PreparedThenJudged(f, f1, f2, Stopped(f, a), Quiet(a));
  }

  lemma JudgedExactly(f: RunFile, g: RunFile, quiet: bool)
    requires Judged(f, g, quiet)
    ensures g.run.lifecycle == LifecycleStopped <==> quiet && !AnyHasFailed(f.workers) && f.workers != map[]
    ensures g.run.lifecycle == LifecycleStopped ==>
      AllStopped(g) && StoppedId(f.run.id) in g.intents && g.intents[StoppedId(f.run.id)].state == PendingIntent
    ensures g.run.lifecycle != LifecycleStopped ==> g.intents == f.intents
    ensures !quiet ==> g.run.state.Some? && g.run.state.value.phase == Stopping
    ensures quiet && AnyHasFailed(f.workers) ==> g.run.lifecycle == LifecycleFailed
    ensures quiet && f.workers == map[] ==> g.run.lifecycle == Complete
  {
  }

  /**
   A completed Stop is exact. The run is recorded stopped, with its intent queued, iff the store saw neither a
   stop nor a cleanup failure, no worker has failed, and there is a worker; then every worker is terminal. Any
   failure it saw leaves the run stopping. Otherwise a failed worker makes it failed, and no worker completed.
   */
  lemma StopIsExact(f: RunFile, a: Attempt, g: RunFile)
    requires Ranges(a, f) && g == Stopped(f, a)
    ensures g.run.lifecycle == LifecycleStopped <==> Quiet(a) && !AnyHasFailed(f.workers) && f.workers != map[]
    ensures g.run.lifecycle == LifecycleStopped ==>
      AllStopped(g) && StoppedId(f.run.id) in g.intents && g.intents[StoppedId(f.run.id)].state == PendingIntent
    ensures g.run.lifecycle != LifecycleStopped ==> g.intents == f.intents
    ensures !Quiet(a) ==> g.run.state.Some? && g.run.state.value.phase == Stopping
    ensures Quiet(a) && AnyHasFailed(f.workers) ==> g.run.lifecycle == LifecycleFailed
    ensures Quiet(a) && f.workers == map[] ==> g.run.lifecycle == Complete
  {
    StopJudges(f, a);
    JudgedExactly(f, g, Quiet(a));
  }

  lemma SameFailures(f: RunFile, g: RunFile)
    requires f.workers.Keys == g.workers.Keys && forall id :: id in f.workers ==>
      HasFailed(g.workers[id]) == HasFailed(f.workers[id])
    ensures AnyHasFailed(f.workers) <==> AnyHasFailed(g.workers)
    ensures f.workers == map[] <==> g.workers == map[]
  {
    if f.workers == map[] {
      assert g.workers.Keys == {};
    }
    if g.workers == map[] {
      assert f.workers.Keys == {};
    }
  }

  /** A stop transition that finds the run stopped queues the stopped event afresh; no other touches an intent. */
  lemma QueuesIffStopped(f: RunFile, t: StopTransition, order: seq<string>, now: Time)
    requires Visits(order, f.workers.Keys)
    ensures var g := StopFile(f, t, order, now);
      && g.events == f.events && g.run.id == f.run.id
      && g.run.state.Some? && g.run.lifecycle == ProjectRun(g.run.state.value)
      && g.intents == if g.run.lifecycle == LifecycleStopped
                      then f.intents[StoppedId(f.run.id) := NewIntent(StoppedEvent(f.run.id, now), now)] else f.intents
  {
    StopEachKeepsKeys(f, t, order, now);
  }

  // ---------------------------------------------------------------- what a Stop does to each worker

  /** Whether a transition fails every worker it meets: a confirmed stop failure it can see, or a failed cleanup. */
  predicate FailsWorkers(t: StopTransition)
  {
    (t.stopFailure != "" && t.stopConfirmed) || t.cleanup == CleanupFailed
  }

  /** Whether a transition leaves a worker degraded at least. */
  predicate DegradesWorkers(t: StopTransition)
  {
    t.stopFailure != "" || t.cleanup == CleanupIncomplete || t.cleanup == CleanupFailed
  }

  /** One transition fails exactly the workers it says, degrades what it must, and notes the cleanup. */
  ghost predicate Noted(w: Worker, v: Worker, t: StopTransition)
  {
    && (HasFailed(v) <==> HasFailed(w) || FailsWorkers(t))
    && v.state.Some? && v.state.value.cleanup == t.cleanup
    && (v.state.value.condition.status == Nominal <==>
        EnsureWorkerState(w).condition.status == Nominal && !DegradesWorkers(t))
  }

  lemma TransitionNotes(w: Worker, t: StopTransition, now: Time)
    ensures Noted(w, StopWorker(w, t, now).0, t)
  {
  }

  lemma FileNotes(f: RunFile, t: StopTransition, order: seq<string>, now: Time)
    requires Visits(order, f.workers.Keys)
    ensures var g := StopFile(f, t, order, now);
      g.workers.Keys == f.workers.Keys && forall id :: id in f.workers ==> Noted(f.workers[id], g.workers[id], t)
  {
    StopFileKeepsKeys(f, t, order, now);
    forall id | id in f.workers ensures Noted(f.workers[id], StopFile(f, t, order, now).workers[id], t) {
      StopFileAt(f, t, order, now, id);
      TransitionNotes(f.workers[id], t, now);
    }
  }

  /** The three transitions of a Stop, seen from one worker. */
  lemma ThreeNotes(w0: Worker, w1: Worker, w2: Worker, w3: Worker, a: Attempt)
    requires Noted(w0, w1, Requesting(a)) && Noted(w1, w2, Progressing(a)) && Noted(w2, w3, Finishing(a))
    ensures HasFailed(w3) <==>
      HasFailed(w0) || (ErrorText(a.stop) != "" && IsConfirmed(a.stop)) || IsConfirmed(a.cleanup)
    ensures w3.state.Some? && w3.state.value.cleanup == CleanupOf(a.cleanup)
    ensures w3.state.value.condition.status == Nominal <==>
      EnsureWorkerState(w0).condition.status == Nominal && Quiet(a)
  {
  }

  /**
   A Stop fails a worker exactly if it had failed before, the stop failed for certain with a text, or the cleanup
   failed for certain; it leaves one nominal exactly if it was and nothing went wrong that the store could see; and
   every worker's cleanup says how the cleanup went.
   */
  lemma StopFailsWorkersExactly(f: RunFile, a: Attempt, id: string)
    requires Ranges(a, f) && id in f.workers
    ensures id in Stopped(f, a).workers
    ensures var w, v := f.workers[id], Stopped(f, a).workers[id];
      && (HasFailed(v) <==> HasFailed(w) || (ErrorText(a.stop) != "" && IsConfirmed(a.stop)) || IsConfirmed(a.cleanup))
      && v.state.Some? && v.state.value.cleanup == CleanupOf(a.cleanup)
      && (v.state.value.condition.status == Nominal <==> EnsureWorkerState(w).condition.status == Nominal && Quiet(a))
  {
    var f1 := StopFile(f, Requesting(a), a.requested.order, Moment(a.requested));
    FileNotes(f, Requesting(a), a.requested.order, Moment(a.requested));
    var f2 := StopFile(f1, Progressing(a), a.inProgress.order, Moment(a.inProgress));
    FileNotes(f1, Progressing(a), a.inProgress.order, Moment(a.inProgress));
    var f3 := StopFile(f2, Finishing(a), a.final.order, Moment(a.final));
    FileNotes(f2, Finishing(a), a.final.order, Moment(a.final));
    ThreeNotes(f.workers[id], f1.workers[id], f2.workers[id], f3.workers[id], a);
  }

  /** Without a failure text it makes no difference whether a transition calls the failure confirmed. */
  lemma {:induction false} ConfirmationNeedsText(
    f: RunFile, t: StopTransition, u: StopTransition, order: seq<string>, now: Time)
    requires forall id :: id in order ==> id in f.workers
    requires t.stopFailure == "" && u == t.(stopConfirmed := u.stopConfirmed)
    ensures StopEach(f, t, order, now) == StopEach(f, u, order, now)
    decreases |order|
  {
    if order != [] {
      var id := order[|order| - 1];
      ConfirmationNeedsText(f, t, u, order[..|order| - 1], now);
      assert StopWorker(f.workers[id], t, now) == StopWorker(f.workers[id], u, now);
    }
  }

  lemma SilentTransition(f: RunFile, t: StopTransition, u: StopTransition, order: seq<string>, now: Time)
    requires Visits(order, f.workers.Keys) && t.stopFailure == "" && u == t.(stopConfirmed := u.stopConfirmed)
    ensures StopFile(f, t, order, now) == StopFile(f, u, order, now)
  {
    ConfirmationNeedsText(f, t, u, order, now);
  }

  /**
   The store never sees a stop error without text, confirmed or not: Stop returns the error, and the run's file is
   the one that the same attempt without the error leaves.
   */
  lemma SilentErrorStops(f: RunFile, a: Attempt, confirmed: bool)
    requires Ranges(a, f) && a.profilesBuilt && a.stop == Some(RuntimeError("", confirmed))
    ensures Ranges(a.(stop := None), f) && After(f, a) == After(f, a.(stop := None))
    ensures Answer(f, a) == Err(RuntimeFailed)
    ensures After(f, a).run.lifecycle == LifecycleStopped <==>
      a.cleanup.None? && !AnyHasFailed(f.workers) && f.workers != map[]
  {
    var b := a.(stop := None);
    var f1 := StopFile(f, Requesting(a), a.requested.order, Moment(a.requested));
    StopFileKeepsKeys(f, Requesting(a), a.requested.order, Moment(a.requested));
    var f2 := StopFile(f1, Progressing(a), a.inProgress.order, Moment(a.inProgress));
    StopFileKeepsKeys(f1, Progressing(a), a.inProgress.order, Moment(a.inProgress));
    SilentTransition(f1, Progressing(a), Progressing(b), a.inProgress.order, Moment(a.inProgress));
    SilentTransition(f2, Finishing(a), Finishing(b), a.final.order, Moment(a.final));
    StopIsExact(f, a, Stopped(f, a));
  }
}
