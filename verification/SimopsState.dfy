/**
 Facts the SimOps control plane keeps about a run and its workers: how a runtime observation, a launch
 outcome and a cleanup outcome change a worker, and how a run's state is derived from its workers.
 */
module SimopsState {
  import opened Prelude

  /** The lifecycle exposed by the v1 API. */
  datatype Lifecycle =
    Created | Starting | Streaming | LifecycleDegraded | Complete | LifecycleFailed | LifecycleStopped

  datatype Execution = Unobserved | Uncertain | Active | Absent | Terminal

  datatype RunPhase = Admitted | RunLaunching | Running | Stopping | RunCompleted | RunFailed | RunStopped

  datatype WorkerPhase = Planned | Launching | Executing | WorkerCompleted | WorkerFailed | WorkerStopped

  datatype Launch = Unattempted | AttemptedAbsent | Launched | Rejected

  datatype Status = Nominal | Degraded | Failed

  datatype Cleanup = NotRequested | Requested | InProgress | CleanupCompleted | CleanupIncomplete | CleanupFailed

  datatype Stage = NoFailure | LaunchStage | ExecutionStage | StopStage | CleanupStage

  datatype Code = TerminalContradiction | LaunchUncertain | IncompleteCleanup | FailedCleanup | IncompleteStop

  /** Times are seconds, with Go's zero time at 0. */
  type Time = int

  const ZERO_TIME: Time := 0

  datatype Evidence = Evidence(code: Code, source: string, message: string, observedAt: Time)

  datatype Condition = Condition(status: Status, degradations: seq<Evidence>)

  datatype WorkerState = WorkerState(
    phase: WorkerPhase, launch: Launch, execution: Execution, condition: Condition, stage: Stage, cleanup: Cleanup)

  datatype RunState = RunState(phase: RunPhase, condition: Condition, cleanup: Cleanup, deadline: Time)

  /** What a runtime adapter reports. */
  datatype Observed = Pending | ActiveSeen | Succeeded | FailedSeen | MissingSeen | ImagePullFailed | StoppedSeen

  datatype Observation = Observation(
    run: string, worker: string, state: Observed, runtime: string, runtimeId: string, reason: string,
    message: string, exitCode: Option<int>, observedAt: Time)

  /** A stored worker. Go's zero `State` is None here; endpoint, launch mode and labels are not modelled. */
  datatype Worker = Worker(
    run: string, id: string, kind: string, lifecycle: Lifecycle, state: Option<WorkerState>,
    observed: Option<Observed>, reason: string, message: string, runtime: string, runtimeId: string,
    exitCode: Option<int>, observedAt: Option<Time>, frames: int, updatedAt: Time)

  // ---------------------------------------------------------------- a worker's state

  const INITIAL_WORKER_STATE :=
    WorkerState(Planned, Unattempted, Unobserved, Condition(Nominal, []), NoFailure, NotRequested)

  /** ensureSimopsWorkerState: the stored state, or one read off the lifecycle. */
  function EnsureWorkerState(w: Worker): WorkerState
  {
    if w.state.Some? then w.state.value
    else
      match w.lifecycle
      case Starting => INITIAL_WORKER_STATE.(phase := Launching)
      case Streaming => INITIAL_WORKER_STATE.(phase := Executing)
      case Complete => INITIAL_WORKER_STATE.(phase := WorkerCompleted, execution := Terminal)
      case LifecycleFailed => INITIAL_WORKER_STATE.(phase := WorkerFailed, execution := Terminal,
          condition := Condition(Failed, []))
      case LifecycleStopped => INITIAL_WORKER_STATE.(phase := WorkerStopped, execution := Terminal)
      case Created => INITIAL_WORKER_STATE
      case LifecycleDegraded => INITIAL_WORKER_STATE
  }

  function ApplyDegradation(s: WorkerState, e: Evidence): WorkerState
  {
    s.(condition := Condition(if s.condition.status == Nominal then Degraded else s.condition.status,
                              s.condition.degradations + [e]))
  }

  predicate IsTerminal(o: Observed)
  {
    o in {Succeeded, FailedSeen, ImagePullFailed, StoppedSeen}
  }

  /** applyWorkerRuntimeObservation, with the evidence of a contradicted terminal state. */
  function ApplyRuntimeObservation(s: WorkerState, o: Observation): (WorkerState, Option<Evidence>)
  {
    if s.execution == Terminal && !IsTerminal(o.state)
    then (s, Some(Evidence(TerminalContradiction, o.runtime, o.message, o.observedAt)))
    else
      match o.state
      case ActiveSeen => (s.(execution := Active, launch := Launched, phase := Executing), None)
      case Succeeded => (s.(execution := Terminal, phase := WorkerCompleted), None)
      case FailedSeen => (FailedExecution(s), None)
      case ImagePullFailed => (FailedExecution(s), None)
      case StoppedSeen => (s.(execution := Terminal, phase := WorkerStopped), None)
      case MissingSeen =>
        (if s.execution in {Unobserved, Uncertain} then s.(execution := Absent) else s, None)
      case Pending => (s, None)
  }

  function FailedExecution(s: WorkerState): WorkerState
  {
    s.(execution := Terminal, phase := WorkerFailed, condition := s.condition.(status := Failed),
       stage := if s.execution == Active then ExecutionStage else LaunchStage)
  }

  /** applyWorkerLaunchOutcome for the dispositions its callers pass. */
  function ApplyLaunchOutcome(s: WorkerState, launch: Launch, at: Time, source: string, message: string): WorkerState
  {
    if s.launch == Launched || s.launch == Rejected then s
    else
      match launch
      case Launched => s.(launch := Launched, phase := Launching)
      case Rejected =>
        s.(launch := Rejected, phase := WorkerFailed, condition := s.condition.(status := Failed), stage := LaunchStage)
      case AttemptedAbsent =>
        ApplyDegradation(s.(launch := AttemptedAbsent, execution := Uncertain, phase := Launching),
                         Evidence(LaunchUncertain, source, message, at))
      case Unattempted => s
  }

  /** applyWorkerCleanupOutcome. A failed cleanup leaves evidence but no degradation. */
  function ApplyCleanupOutcome(
    s: WorkerState, cleanup: Cleanup, at: Time, source: string, message: string): (WorkerState, Option<Evidence>)
  {
    var t := s.(cleanup := cleanup);
    match cleanup
    case CleanupIncomplete =>
      var e := Evidence(IncompleteCleanup, source, message, at);
      (ApplyDegradation(t, e), Some(e))
    case CleanupFailed =>
      (t.(condition := t.condition.(status := Failed), stage := CleanupStage),
          Some(Evidence(FailedCleanup, source, message, at)))
    case _ => (t, None)
  }

  /** materializeWorkerLaunchState, on the record a launch hands in. */
  function MaterializeLaunch(w: Worker): Worker
  {
    var s := EnsureWorkerState(w);
    w.(state := Some(
         if w.runtimeId != "" then ApplyLaunchOutcome(s, Launched, w.updatedAt, "launch", "runtime accepted launch")
         else if w.lifecycle == LifecycleFailed
         then ApplyLaunchOutcome(s, Rejected, w.updatedAt, "launch", "runtime rejected launch")
         else if s.launch == Unattempted
         then
           ApplyLaunchOutcome(s, AttemptedAbsent, w.updatedAt, "launch",
                              "launch accepted without an observed runtime resource")
         else s))
  }

  function ProjectWorker(s: WorkerState): Lifecycle
  {
    match s.phase
    case Planned => Created
    case Launching => Starting
    case Executing => Streaming
    case WorkerCompleted => Complete
    case WorkerFailed => LifecycleFailed
    case WorkerStopped => LifecycleStopped
  }

  // ---------------------------------------------------------------- a stored worker

  /** applyObservedWorkerLifecycle: a reported terminal state is never replaced by a live one. */
  function ApplyObserved(w: Worker, o: Observation, now: Time): Worker
  {
    var at := if o.observedAt == ZERO_TIME then now else o.observedAt;
    if w.observed.Some? && IsTerminal(w.observed.value) && !IsTerminal(o.state)
    then w.(message := Contradiction(w.observed.value, o.state, o.message), updatedAt := at)
    else w.(observed := Some(o.state), reason := o.reason, message := o.message, runtime := o.runtime,
            runtimeId := o.runtimeId, exitCode := o.exitCode, observedAt := Some(at), updatedAt := at)
  }

  function NameOf(o: Observed): string
  {
    match o
    case Pending => "pending"
    case ActiveSeen => "active"
    case Succeeded => "succeeded"
    case FailedSeen => "failed"
    case MissingSeen => "missing"
    case ImagePullFailed => "image-pull-failed"
    case StoppedSeen => "stopped"
  }

  function Contradiction(terminal: Observed, reported: Observed, message: string): string
  {
    var prefix :=
      "contradictory runtime observation " + NameOf(reported) + " retained after terminal " + NameOf(terminal);
    if message == "" then prefix else prefix + ": " + message
  }

  /** A report's effect on a worker's state: a contradicted terminal state is kept and degraded. */
  function Reported(s: WorkerState, o: Observation): WorkerState
  {
    var (t, evidence) := ApplyRuntimeObservation(s, o);
    if evidence.Some? then ApplyDegradation(t, evidence.value) else t
  }

  /** What UpdateWorkerObservedLifecycle makes of a stored worker, and the evidence it files. */
  function ObserveWorker(w: Worker, o: Observation, now: Time): (Worker, seq<Evidence>)
  {
    var seen := ApplyObserved(w, o, now);
    var evidence := ApplyRuntimeObservation(EnsureWorkerState(seen), o).1;
    (seen.(state := Some(Reported(EnsureWorkerState(seen), o))), if evidence.Some? then [evidence.value] else [])
  }

  /** A stop transition as the orchestrator hands it to the store. */
  datatype StopTransition = StopTransition(
    cleanup: Cleanup, stopFailure: string, stopConfirmed: bool, cleanupFailure: string, at: Time)

  function StopFailureOf(t: StopTransition, now: Time): Evidence
  {
    Evidence(IncompleteStop, "stop-orchestrator", t.stopFailure, now)
  }

  /** A worker's state once cleanup and stop failures of a transition are noted. */
  function Halted(s: WorkerState, t: StopTransition, now: Time): WorkerState
  {
    var cleaned := ApplyCleanupOutcome(s, t.cleanup, now, "stop-orchestrator", t.cleanupFailure).0;
    if t.stopFailure == "" then cleaned
    else
      var degraded := ApplyDegradation(cleaned, StopFailureOf(t, now));
      if t.stopConfirmed then degraded.(condition := degraded.condition.(status := Failed), stage := StopStage)
      else degraded
  }

  /** The evidence a transition files for each worker, whatever the worker's state. */
  function StopEvidence(s: WorkerState, t: StopTransition, now: Time): seq<Evidence>
  {
    var cleanupEvidence := ApplyCleanupOutcome(s, t.cleanup, now, "stop-orchestrator", t.cleanupFailure).1;
    (if t.stopFailure == "" then [] else [StopFailureOf(t, now)])
    + (if cleanupEvidence.Some? then [cleanupEvidence.value] else [])
  }

  /** Nothing failed and the cleanup is through: what lets a worker count as stopped. */
  predicate Clean(t: StopTransition)
  {
    t.cleanup == CleanupCompleted && t.stopFailure == ""
  }

  /** What ApplyStopTransition makes of one worker, and the evidence it files. */
  function StopWorker(w: Worker, t: StopTransition, now: Time): (Worker, seq<Evidence>)
  {
    var s := EnsureWorkerState(w);
    var halted := Halted(s, t, now);
    if Clean(t) && halted.condition.status != Failed
    then
      var stopped := halted.(phase := WorkerStopped, execution := Terminal);
      (w.(state := Some(stopped), lifecycle := ProjectWorker(stopped), updatedAt := now), StopEvidence(s, t, now))
    else (w.(state := Some(halted), updatedAt := now), StopEvidence(s, t, now))
  }

  // ---------------------------------------------------------------- worker facts only move forward

  datatype WorkerStep =
    | Observe(observation: Observation, now: Time)
    | Stop(transition: StopTransition, now: Time)
    | CountFrames(lifecycle: Lifecycle, delta: int)

  datatype History = History(worker: Worker, evidence: seq<Evidence>)

  /** One store update of a worker after its launch was saved. */
  function StepWorker(h: History, step: WorkerStep): History
  {
    match step
    case Observe(o, now) =>
      var (w, e) := ObserveWorker(h.worker, o, now);
      History(w, h.evidence + e)
    case Stop(t, now) =>
      var (w, e) := StopWorker(h.worker, t, now);
      History(w, h.evidence + e)
    case CountFrames(lifecycle, delta) =>
      History(h.worker.(lifecycle := lifecycle, frames := h.worker.frames + delta), h.evidence)
  }

  function RunWorker(h: History, steps: seq<WorkerStep>): History
  {
    if steps == [] then h else StepWorker(RunWorker(h, steps[..|steps| - 1]), steps[|steps| - 1])
  }

  function Rank(s: Status): nat
  {
    match s case Nominal => 0 case Degraded => 1 case Failed => 2
  }

  /** Nothing the store knows about the worker in `s` is taken back in `t`. */
  ghost predicate Forward(s: WorkerState, t: WorkerState)
  {
    && (s.execution == Terminal ==> t.execution == Terminal)
    && Rank(s.condition.status) <= Rank(t.condition.status)
    && (s.launch == Launched ==> t.launch == Launched)
    && s.condition.degradations <= t.condition.degradations
  }

  /** The worker has a state, and a terminal report is matched by a terminal execution. */
  ghost predicate Settled(w: Worker)
  {
    && w.state.Some?
    && (w.observed.Some? && IsTerminal(w.observed.value) ==> w.state.value.execution == Terminal)
  }

  lemma ObservationForward(w: Worker, o: Observation, now: Time)
    requires Settled(w)
    ensures var v := ObserveWorker(w, o, now).0; Settled(v) && Forward(w.state.value, v.state.value)
  {
  }

  lemma StopForward(w: Worker, t: StopTransition, now: Time)
    requires Settled(w)
    ensures var v := StopWorker(w, t, now).0; Settled(v) && Forward(w.state.value, v.state.value)
  {
  }

  lemma StepForward(h: History, step: WorkerStep)
    requires Settled(h.worker)
    ensures var g := StepWorker(h, step);
      Settled(g.worker) && Forward(h.worker.state.value, g.worker.state.value) && h.evidence <= g.evidence
  {
    match step {
      case Observe(o, now) => ObservationForward(h.worker, o, now);
      case Stop(t, now) => StopForward(h.worker, t, now);
      case CountFrames(lifecycle, delta) =>
    }
  }

  /**
   Whatever is observed and however a stop goes, in any order: a terminal execution is never left, the
   condition only worsens, a launched worker stays launched, degradations and evidence are only appended,
   and a terminal report always stands beside a terminal execution.
   */
  lemma {:induction false} WorkerFactsMoveForward(h: History, steps: seq<WorkerStep>)
    requires Settled(h.worker)
    ensures var g := RunWorker(h, steps);
      Settled(g.worker) && Forward(h.worker.state.value, g.worker.state.value) && h.evidence <= g.evidence
    decreases |steps|
  {
    if steps != [] {
      WorkerFactsMoveForward(h, steps[..|steps| - 1]);
      StepForward(RunWorker(h, steps[..|steps| - 1]), steps[|steps| - 1]);
    }
  }

  /** A saved launch is a starting point: a worker that nothing was reported about yet is settled. */
  lemma LaunchSettles(w: Worker)
    requires w.observed.None?
    ensures Settled(MaterializeLaunch(w))
  {
  }

  // ---------------------------------------------------------------- evidence accounts for degradations

  /** The evidence that is also kept as a degradation: all but that of a failed cleanup. */
  function Degrading(evidence: seq<Evidence>): seq<Evidence>
  {
    if evidence == [] then []
    else
      var last := evidence[|evidence| - 1];
      Degrading(evidence[..|evidence| - 1]) + (if last.code == FailedCleanup then [] else [last])
  }

  lemma DegradingOne(evidence: seq<Evidence>, e: Evidence)
    ensures Degrading(evidence + [e]) == Degrading(evidence) + (if e.code == FailedCleanup then [] else [e])
  {
    assert (evidence + [e])[..|evidence|] == evidence;
  }

  lemma {:induction false} DegradingAppend(evidence: seq<Evidence>, more: seq<Evidence>)
    ensures Degrading(evidence + more) == Degrading(evidence) + Degrading(more)
    decreases |more|
  {
    if more == [] {
      assert evidence + more == evidence;
    } else {
      var fewer, last := more[..|more| - 1], more[|more| - 1];
      DegradingAppend(evidence, fewer);
      assert evidence + more == (evidence + fewer) + [last];
      assert more == fewer + [last];
      DegradingOne(evidence + fewer, last);
      DegradingOne(fewer, last);
    }
  }

  function DegradationsOfWorker(w: Worker): seq<Evidence>
  {
    if w.state.Some? then w.state.value.condition.degradations else []
  }

  /** The degradations between `h` and `g` are the degrading evidence filed between them, up to order. */
  ghost predicate Accounted(h: History, g: History)
  {
    && h.evidence <= g.evidence
    && multiset(DegradationsOfWorker(g.worker))
       == multiset(DegradationsOfWorker(h.worker)) + multiset(Degrading(g.evidence[|h.evidence|..]))
  }

  lemma ObserveAccounts(w: Worker, o: Observation, now: Time)
    requires w.state.Some?
    ensures var (v, e) := ObserveWorker(w, o, now);
      DegradationsOfWorker(v) == DegradationsOfWorker(w) + e && |e| <= 1 && Degrading(e) == e
  {
  }

  function Kept(e: Evidence): seq<Evidence>
  {
    if e.code == FailedCleanup then [] else [e]
  }

  lemma DegradingShort(x: Evidence, y: Evidence)
    ensures Degrading([x]) == Kept(x) && Degrading([x, y]) == Kept(x) + Kept(y)
  {
    DegradingOne([], x);
    DegradingOne([x], y);
    assert [] + [x] == [x] && [x] + [y] == [x, y];
  }

  /** What a transition adds to a worker's degradations: the cleanup's first, then the stop failure. */
  lemma HaltDegrades(s: WorkerState, t: StopTransition, now: Time)
    ensures var cleanup := ApplyCleanupOutcome(s, t.cleanup, now, "stop-orchestrator", t.cleanupFailure).1;
      Halted(s, t, now).condition.degradations
      == s.condition.degradations
         + (if cleanup.Some? then Kept(cleanup.value) else [])
         + (if t.stopFailure == "" then [] else Kept(StopFailureOf(t, now)))
  {
  }

  lemma HaltFiles(s: WorkerState, t: StopTransition, now: Time)
    ensures var cleanup := ApplyCleanupOutcome(s, t.cleanup, now, "stop-orchestrator", t.cleanupFailure).1;
      Degrading(StopEvidence(s, t, now))
      == (if t.stopFailure == "" then [] else Kept(StopFailureOf(t, now)))
         + (if cleanup.Some? then Kept(cleanup.value) else [])
  {
    var e := StopEvidence(s, t, now);
    if |e| == 1 {
      DegradingShort(e[0], e[0]);
      assert e == [e[0]];
    } else if |e| == 2 {
      DegradingShort(e[0], e[1]);
      assert e == [e[0], e[1]];
    }
  }

  lemma SwapAppended(a: seq<Evidence>, b: seq<Evidence>, c: seq<Evidence>)
    ensures multiset(a + b + c) == multiset(a) + multiset(c + b)
  {
  }

  lemma HaltAccounts(s: WorkerState, t: StopTransition, now: Time)
    ensures multiset(Halted(s, t, now).condition.degradations)
            == multiset(s.condition.degradations) + multiset(Degrading(StopEvidence(s, t, now)))
  {
    HaltDegrades(s, t, now);
    HaltFiles(s, t, now);
    var cleanup := ApplyCleanupOutcome(s, t.cleanup, now, "stop-orchestrator", t.cleanupFailure).1;
    SwapAppended(s.condition.degradations, if cleanup.Some? then Kept(cleanup.value) else [],
                 if t.stopFailure == "" then [] else Kept(StopFailureOf(t, now)));
  }

  lemma StopAccounts(w: Worker, t: StopTransition, now: Time)
    requires w.state.Some?
    ensures var (v, e) := StopWorker(w, t, now);
      |e| <= 2 && multiset(DegradationsOfWorker(v)) == multiset(DegradationsOfWorker(w)) + multiset(Degrading(e))
  {
    HaltAccounts(w.state.value, t, now);
  }

  lemma StepAccounts(h: History, step: WorkerStep)
    requires h.worker.state.Some?
    ensures Accounted(h, StepWorker(h, step))
  {
    match step {
      case Observe(o, now) =>
        ObserveAccounts(h.worker, o, now);
        var (w, e) := ObserveWorker(h.worker, o, now);
        assert (h.evidence + e)[|h.evidence|..] == e;
      case Stop(t, now) =>
        StopAccounts(h.worker, t, now);
        var (w, e) := StopWorker(h.worker, t, now);
        assert (h.evidence + e)[|h.evidence|..] == e;
      case CountFrames(lifecycle, delta) =>
        assert h.evidence[|h.evidence|..] == [];
    }
  }

  lemma SuffixSplits(a: seq<Evidence>, b: seq<Evidence>, c: seq<Evidence>)
    requires a <= b && b <= c
    ensures c[|a|..] == b[|a|..] + c[|b|..]
  {
  }

  lemma AccountedOneMore(h: History, g: History, k: History)
    requires Accounted(h, g) && Accounted(g, k)
    ensures Accounted(h, k)
  {
    var earlier, later := g.evidence[|h.evidence|..], k.evidence[|g.evidence|..];
    SuffixSplits(h.evidence, g.evidence, k.evidence);
    DegradingAppend(earlier, later);
    assert multiset(Degrading(earlier + later)) == multiset(Degrading(earlier)) + multiset(Degrading(later));
  }

  /** Over any run: degradations since the launch == evidence since the launch, failed cleanups aside. */
  lemma {:induction false} EvidenceAccounts(h: History, steps: seq<WorkerStep>)
    requires Settled(h.worker)
    ensures Accounted(h, RunWorker(h, steps))
    decreases |steps|
  {
    if steps == [] {
      assert h.evidence[|h.evidence|..] == [];
    } else {
      WorkerFactsMoveForward(h, steps[..|steps| - 1]);
      EvidenceAccounts(h, steps[..|steps| - 1]);
      var before := RunWorker(h, steps[..|steps| - 1]);
      StepAccounts(before, steps[|steps| - 1]);
      AccountedOneMore(h, before, StepWorker(before, steps[|steps| - 1]));
    }
  }

  // ---------------------------------------------------------------- a run's state

  function InitialRunState(deadline: Time): RunState
  {
    RunState(Admitted, Condition(Nominal, []), NotRequested, deadline)
  }

  /** The part of ensureSimopsRunState that reads an absent state off the lifecycle. */
  function RunStateOf(lifecycle: Lifecycle): RunState
  {
    var s := InitialRunState(ZERO_TIME);
    match lifecycle
    case Starting => s.(phase := RunLaunching)
    case Streaming => s.(phase := Running)
    case Complete => s.(phase := RunCompleted)
    case LifecycleFailed => s.(phase := RunFailed, condition := Condition(Failed, []))
    case LifecycleStopped => s.(phase := RunStopped)
    case Created => s
    case LifecycleDegraded => s
  }

  function ProjectRun(s: RunState): Lifecycle
  {
    match s.phase
    case Admitted => Created
    case RunLaunching => Starting
    case Running => Streaming
    case Stopping => LifecycleDegraded
    case RunCompleted => Complete
    case RunFailed => LifecycleFailed
    case RunStopped => LifecycleStopped
  }

  predicate CountsFailed(w: WorkerState)
  {
    w.condition.status == Failed || w.cleanup == CleanupFailed
  }

  predicate CountsDegraded(w: WorkerState)
  {
    w.condition.status == Degraded || w.launch == AttemptedAbsent || w.cleanup == CleanupIncomplete
  }

  /** All degradations, in the order the workers are visited. */
  function AllDegradations(workers: seq<WorkerState>): seq<Evidence>
  {
    if workers == [] then []
    else AllDegradations(workers[..|workers| - 1]) + workers[|workers| - 1].condition.degradations
  }

  predicate AnyFailed(workers: seq<WorkerState>)
  {
    exists w :: w in workers && CountsFailed(w)
  }

  predicate AnyDegraded(workers: seq<WorkerState>)
  {
    exists w :: w in workers && CountsDegraded(w)
  }

  predicate AnyIn(workers: seq<WorkerState>, phase: WorkerPhase)
  {
    exists w :: w in workers && w.phase == phase
  }

  /** The judgment over a run's workers: the phase and the status, without the visiting order. */
  function DerivedPhase(workers: seq<WorkerState>): RunPhase
  {
    if AnyFailed(workers) then RunFailed
    else if AnyIn(workers, WorkerStopped) then RunStopped
    else if AnyIn(workers, Executing) then Running
    else if AnyIn(workers, Planned) || AnyIn(workers, Launching) then RunLaunching
    else RunCompleted
  }

  function DerivedStatus(workers: seq<WorkerState>): Status
  {
    if AnyFailed(workers) then Failed else if AnyDegraded(workers) then Degraded else Nominal
  }

  function Derived(current: RunState, workers: seq<WorkerState>): RunState
  {
    current.(phase := DerivedPhase(workers), condition := Condition(DerivedStatus(workers), AllDegradations(workers)))
  }

  /** Visiting one more worker raises exactly the flags that worker raises. */
  lemma VisitOne(workers: seq<WorkerState>, w: WorkerState)
    ensures AnyFailed(workers + [w]) == (AnyFailed(workers) || CountsFailed(w))
    ensures AnyDegraded(workers + [w]) == (AnyDegraded(workers) || CountsDegraded(w))
    ensures forall phase :: AnyIn(workers + [w], phase) == (AnyIn(workers, phase) || w.phase == phase)
    ensures AllDegradations(workers + [w]) == AllDegradations(workers) + w.condition.degradations
  {
    assert (workers + [w])[..|workers|] == workers;
    assert forall v :: v in workers + [w] <==> v in workers || v == w;
  }

  /** deriveSimopsRunState: one pass over the workers with four flags. */
  method DeriveRunState(current: RunState, workers: seq<WorkerState>) returns (state: RunState)
    ensures state == Derived(current, workers)
  {
    state := current.(condition := Condition(Nominal, []));
    var failed, stopping, running, completed := false, false, false, true;
    for i := 0 to |workers|
      invariant failed == AnyFailed(workers[..i])
      invariant state == current.(condition := Condition(
                  if AnyDegraded(workers[..i]) then Degraded else Nominal, AllDegradations(workers[..i])))
      invariant stopping == AnyIn(workers[..i], WorkerStopped)
      invariant running == AnyIn(workers[..i], Executing)
      invariant completed == !(AnyIn(workers[..i], Planned) || AnyIn(workers[..i], Launching)
          || AnyIn(workers[..i], Executing))
    {
      var w := workers[i];
      assert workers[..i + 1] == workers[..i] + [w];
      VisitOne(workers[..i], w);
      if CountsFailed(w) {
        failed := true;
      }
      if CountsDegraded(w) {
        state := state.(condition := state.condition.(status := Degraded));
      }
      state := state.(condition :=
          state.condition.(degradations := state.condition.degradations + w.condition.degradations));
      match w.phase {
        case Planned => completed := false;
        case Launching => completed := false;
        case Executing => running, completed := true, false;
        case WorkerStopped => stopping := true;
        case WorkerCompleted =>
        case WorkerFailed =>
      }
    }
    assert workers[..|workers|] == workers;
    if failed {
      state := state.(condition := state.condition.(status := Failed), phase := RunFailed);
    } else if stopping {
      state := state.(phase := RunStopped);
    } else if running {
      state := state.(phase := Running);
    } else if completed {
      state := state.(phase := RunCompleted);
    } else {
      state := state.(phase := RunLaunching);
    }
  }

  lemma DegradationsOneMore(workers: seq<WorkerState>, w: WorkerState)
    ensures AllDegradations(workers + [w]) == AllDegradations(workers) + w.condition.degradations
  {
    assert (workers + [w])[..|workers|] == workers;
  }

  lemma AppendSplits<T>(x: seq<T>, y: seq<T>, z: seq<T>)
    ensures x + y + z == x + (y + z)
  {
  }

  lemma {:induction false} DegradationsSplit(a: seq<WorkerState>, b: seq<WorkerState>)
    ensures AllDegradations(a + b) == AllDegradations(a) + AllDegradations(b)
    decreases |b|
  {
    if b == [] {
      assert a + b == a;
    } else {
      var fewer, last := b[..|b| - 1], b[|b| - 1];
      DegradationsSplit(a, fewer);
      DegradationsOneMore(a + fewer, last);
      DegradationsOneMore(fewer, last);
      assert b == fewer + [last];
      AppendSplits(a, fewer, [last]);
      AppendSplits(AllDegradations(a), AllDegradations(fewer), last.condition.degradations);
    }
  }

  lemma MoveToEnd<T>(x: seq<T>, y: seq<T>, z: seq<T>)
    ensures multiset(x + y + z) == multiset(x + z) + multiset(y)
  {
  }

  /** Visiting one worker last instead of in its place only moves its degradations to the end. */
  lemma VisitLast(before: seq<WorkerState>, w: WorkerState, after: seq<WorkerState>)
    ensures multiset(AllDegradations(before + [w] + after))
            == multiset(AllDegradations(before + after)) + multiset(w.condition.degradations)
  {
    DegradationsSplit(before + [w], after);
    DegradationsSplit(before, after);
    DegradationsOneMore(before, w);
    MoveToEnd(AllDegradations(before), w.condition.degradations, AllDegradations(after));
  }

  lemma SameRest<T>(fewer: seq<T>, last: T, x: seq<T>, y: seq<T>)
    requires multiset(fewer + [last]) == multiset(x + [last] + y)
    ensures multiset(fewer) == multiset(x + y)
  {
    MoveToEnd(x, [last], y);
    assert multiset(fewer + [last]) - multiset{last} == multiset(fewer);
    assert multiset(x + y) + multiset{last} - multiset{last} == multiset(x + y);
  }

  lemma {:induction false} DegradationsIgnoreOrder(a: seq<WorkerState>, b: seq<WorkerState>)
    requires multiset(a) == multiset(b)
    ensures multiset(AllDegradations(a)) == multiset(AllDegradations(b))
    decreases |a|
  {
    if a == [] {
      assert |multiset(b)| == 0;
    } else {
      var fewer, last := a[..|a| - 1], a[|a| - 1];
      assert a == fewer + [last] && last in multiset(b);
      var i :| 0 <= i < |b| && b[i] == last;
      assert b == b[..i] + [last] + b[i + 1..];
      SameRest(fewer, last, b[..i], b[i + 1..]);
      DegradationsIgnoreOrder(fewer, b[..i] + b[i + 1..]);
      DegradationsOneMore(fewer, last);
      VisitLast(b[..i], last, b[i + 1..]);
    }
  }

  /** The order in which a Go map hands out the workers changes neither phase nor status of the run, nor how often a
      degradation is listed. */
  lemma DerivedIgnoresOrder(current: RunState, a: seq<WorkerState>, b: seq<WorkerState>)
    requires multiset(a) == multiset(b)
    ensures var s, t := Derived(current, a), Derived(current, b);
      s.phase == t.phase && s.condition.status == t.condition.status && s.cleanup == t.cleanup
        && s.deadline == t.deadline
      && multiset(s.condition.degradations) == multiset(t.condition.degradations)
  {
    forall w ensures w in a <==> w in b {
      assert w in multiset(a) <==> w in a;
      assert w in multiset(b) <==> w in b;
    }
    DegradationsIgnoreOrder(a, b);
  }
}
