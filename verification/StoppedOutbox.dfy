/**
 The stopped intent. Unlike the others it is reopened: a stop transition that finds the run stopped makes it
 pending again, published or not. So the ledger holds the stopped event once for every such reopening.
 */
module StoppedOutbox {
  import opened Prelude
  import opened SimopsState
  import opened SimopsStore
  import opened PublicationOutbox
  import opened RunStop

  /** Nothing failed, the cleanup is through, and there are workers, none of them failed. */
  ghost predicate FindsStopped(f: RunFile, t: StopTransition)
  {
    Clean(t) && !AnyHasFailed(f.workers) && f.workers != map[]
  }

  /** A stop transition makes the stopped intent pending if it finds the run stopped, and else changes no intent. */
  lemma StopReopensItsIntent(f: RunFile, t: StopTransition, order: seq<string>, now: Time)
    requires Visits(order, f.workers.Keys)
    ensures var g := StopFile(f, t, order, now);
      && (g.run.lifecycle == LifecycleStopped <==> FindsStopped(f, t))
      && g.events == f.events && g.run.id == f.run.id
      && g.intents == if FindsStopped(f, t)
                      then f.intents[StoppedId(f.run.id) := NewIntent(StoppedEvent(f.run.id, now), now)] else f.intents
  {
    QueuesIffStopped(f, t, order, now);
    if Clean(t) {
      CleanFinish(f, t, order, now);
    } else {
      UncleanFinish(f, t, order, now);
    }
  }

  /** A stop transition that finds the run stopped although its stopped intent is published. */
  ghost predicate Reopens(l: Ledger, step: Step)
  {
    && step.StopStep? && Visits(step.visited, l.file.workers.Keys)
    && FindsStopped(l.file, step.transition) && IsPublished(l.file, StoppedId(l.file.run.id))
  }

  lemma StopCounts(l: Ledger, t: StopTransition, order: seq<string>, now: Time, past: nat)
    requires OwnIntents(l.file) && Books(l, StoppedId(l.file.run.id), past) && Visits(order, l.file.workers.Keys)
    ensures var m := l.(file := StopFile(l.file, t, order, now));
      && OwnIntents(m.file) && m.file.run.id == l.file.run.id
      && Books(m, StoppedId(l.file.run.id), past + if Reopens(l, StopStep(t, order, now)) then 1 else 0)
  {
    StopReopensItsIntent(l.file, t, order, now);
  }

  /** Every step keeps the books, but for a reopening, which leaves one publication more in the past. */
  lemma StepCounts(l: Ledger, step: Step, past: nat)
    requires OwnIntents(l.file) && Books(l, StoppedId(l.file.run.id), past) && l.file.run.id != ""
    ensures var m := StepLedger(l, step);
      && OwnIntents(m.file) && m.file.run.id == l.file.run.id
      && Books(m, StoppedId(l.file.run.id), past + if Reopens(l, step) then 1 else 0)
  {
    if !step.StopStep? {
      StepKeeps(l, step, StoppedId(l.file.run.id), past);
    } else if Visits(step.visited, l.file.workers.Keys) {
      StopCounts(l, step.transition, step.visited, step.now, past);
    }
  }

  /** A step keeps the stopped event single unless it is such a transition, and only then breaks it. */
  lemma StepKeepsStoppedOnce(l: Ledger, step: Step)
    requires OwnIntents(l.file) && Books(l, StoppedId(l.file.run.id), 0) && l.file.run.id != ""
    ensures OwnIntents(StepLedger(l, step).file)
    ensures Books(StepLedger(l, step), StoppedId(l.file.run.id), 0) <==> !Reopens(l, step)
  {
    StepCounts(l, step, 0);
  }

  /** How often a run of steps reopens a published stopped intent. */
  ghost function Reopenings(l: Ledger, steps: seq<Step>): nat
  {
    if steps == [] then 0
    else
      var before := steps[..|steps| - 1];
      Reopenings(l, before) + if Reopens(RunLedger(l, before), steps[|steps| - 1]) then 1 else 0
  }

  lemma {:induction false} RunCounts(l: Ledger, steps: seq<Step>, past: nat)
    requires OwnIntents(l.file) && Books(l, StoppedId(l.file.run.id), past) && l.file.run.id != ""
    ensures var m := RunLedger(l, steps);
      && OwnIntents(m.file) && m.file.run.id == l.file.run.id
      && Books(m, StoppedId(l.file.run.id), past + Reopenings(l, steps))
    decreases |steps|
  {
    if steps != [] {
      var before := steps[..|steps| - 1];
      RunCounts(l, before, past);
      StepCounts(RunLedger(l, before), steps[|steps| - 1], past + Reopenings(l, before));
    }
  }

  /**
   From a fresh run, whatever is queued, dispatched, recorded, stopped or observed, and whatever fails: the ledger
   holds the stopped event once for every reopening, and once more if its intent is published now.
   */
  lemma StoppedPublishedPerReopening(record: Run, workers: seq<Worker>, broker: seq<Event>, steps: seq<Step>)
    requires record.id != ""
    ensures var start := Ledger(NewFile(record, workers), broker);
      var l, id := RunLedger(start, steps), StoppedId(record.id);
      && CountOf(l.file.events, id) == Reopenings(start, steps) + (if IsPublished(l.file, id) then 1 else 0)
      && CountOf(l.broker, id) >= CountOf(l.file.events, id)
  {
    RunCounts(Ledger(NewFile(record, workers), broker), steps, 0);
  }

  /** Dispatching a stopped intent that is not published puts its event into the ledger once more. */
  lemma DispatchingAddsOne(l: Ledger, order: seq<IntentId>, fault: IntentId -> PublishFault, now: Time, past: nat)
    requires var id := StoppedId(l.file.run.id);
      OwnIntents(l.file) && Books(l, id, past) && id in l.file.intents && !IsPublished(l.file, id)
        && fault(id) == Delivered
    requires Visits(order, l.file.intents.Keys)
    ensures var id := StoppedId(l.file.run.id);
      CountOf(StepLedger(l, DispatchAll(order, fault, now)).file.events, id) == CountOf(l.file.events, id) + 1
  {
    DispatchKeeps(l, order, fault, now, StoppedId(l.file.run.id), past);
  }

  /** Reopening the intent and dispatching it puts the stopped event into the ledger once more. */
  lemma RestoppingRepublishes(
    l: Ledger, step: Step, order: seq<IntentId>, fault: IntentId -> PublishFault, now: Time, past: nat)
    requires OwnIntents(l.file) && Books(l, StoppedId(l.file.run.id), past) && l.file.run.id != ""
    requires Reopens(l, step) && Visits(order, l.file.intents.Keys) && fault(StoppedId(l.file.run.id)) == Delivered
    ensures var m := StepLedger(StepLedger(l, step), DispatchAll(order, fault, now));
      CountOf(m.file.events, StoppedId(l.file.run.id)) == CountOf(l.file.events, StoppedId(l.file.run.id)) + 1
  {
    StepCounts(l, step, past);
    StopReopensItsIntent(l.file, step.transition, step.visited, step.now);
    assert StepLedger(l, step).file.intents.Keys == l.file.intents.Keys;
    DispatchingAddsOne(StepLedger(l, step), order, fault, now, past + 1);
  }

  // ---------------------------------------------------------------- behind the controller

  /** What the controller lets happen to a run once its launch is over: whole stops, and steps that leave the run's
      lifecycle alone. */
  datatype Call =
    | StopRun(attempt: Attempt)
    | Turn(step: Step)

  /** StopRun hands a run that is already stopped or complete back unchanged. */
  ghost function CallLedger(l: Ledger, call: Call): Ledger
  {
    match call
    case StopRun(attempt) =>
      if l.file.run.lifecycle in {LifecycleStopped, Complete} || !Ranges(attempt, l.file) then l
      else l.(file := After(l.file, attempt))
    case Turn(step) => if step.Queue? || step.StopStep? then l else StepLedger(l, step)
  }

  ghost function CallsLedger(l: Ledger, calls: seq<Call>): Ledger
  {
    if calls == [] then l else CallLedger(CallsLedger(l, calls[..|calls| - 1]), calls[|calls| - 1])
  }

  /** The stopped event is single, and its intent exists only while the run is recorded stopped. */
  ghost predicate Guarded(l: Ledger)
  {
    && OwnIntents(l.file) && l.file.run.id != "" && Books(l, StoppedId(l.file.run.id), 0)
    && (StoppedId(l.file.run.id) in l.file.intents ==> l.file.run.lifecycle == LifecycleStopped)
  }

  /** `g` follows `f` with the same intents, or as a stopped run with a fresh stopped intent. */
  ghost predicate Requeued(f: RunFile, g: RunFile, now: Time)
  {
    && g.events == f.events && g.run.id == f.run.id
    && (g.intents == f.intents
        || (g.run.lifecycle == LifecycleStopped
            && g.intents == f.intents[StoppedId(f.run.id) := NewIntent(StoppedEvent(f.run.id, now), now)]))
  }

  /** A whole Stop changes intents as its last transition does. */
  lemma WholeStopRequeues(f: RunFile, a: Attempt)
    requires Ranges(a, f)
    ensures Requeued(f, After(f, a), Moment(a.final))
  {
    StopReopensItsIntent(f, Requesting(a), a.requested.order, Moment(a.requested));
    if a.profilesBuilt {
      var f1 := StopFile(f, Requesting(a), a.requested.order, Moment(a.requested));
      StopFileKeepsKeys(f, Requesting(a), a.requested.order, Moment(a.requested));
      StopReopensItsIntent(f1, Progressing(a), a.inProgress.order, Moment(a.inProgress));
      var f2 := StopFile(f1, Progressing(a), a.inProgress.order, Moment(a.inProgress));
      StopFileKeepsKeys(f1, Progressing(a), a.inProgress.order, Moment(a.inProgress));
      StopReopensItsIntent(f2, Finishing(a), a.final.order, Moment(a.final));
    }
  }

  lemma RequeuedStaysGuarded(l: Ledger, g: RunFile, now: Time)
    requires Guarded(l) && l.file.run.lifecycle != LifecycleStopped && Requeued(l.file, g, now)
    ensures Guarded(l.(file := g))
  {
  }

  lemma WholeStopStaysGuarded(l: Ledger, a: Attempt)
    requires Guarded(l) && Ranges(a, l.file) && l.file.run.lifecycle != LifecycleStopped
    ensures Guarded(l.(file := After(l.file, a))) && After(l.file, a).run.id == l.file.run.id
  {
    WholeStopRequeues(l.file, a);
    RequeuedStaysGuarded(l, After(l.file, a), Moment(a.final));
  }

  lemma TurnStaysGuarded(l: Ledger, step: Step)
    requires Guarded(l) && !step.Queue? && !step.StopStep?
    ensures Guarded(StepLedger(l, step)) && StepLedger(l, step).file.run.id == l.file.run.id
  {
    StepCounts(l, step, 0);
    if step.DispatchAll? && Visits(step.order, l.file.intents.Keys) {
      DispatchKeeps(l, step.order, step.fault, step.now, StoppedId(l.file.run.id), 0);
    }
  }

  lemma {:induction false} CallsStayGuarded(l: Ledger, calls: seq<Call>)
    requires Guarded(l)
    ensures Guarded(CallsLedger(l, calls)) && CallsLedger(l, calls).file.run.id == l.file.run.id
    decreases |calls|
  {
    if calls != [] {
      var m, call := CallsLedger(l, calls[..|calls| - 1]), calls[|calls| - 1];
      CallsStayGuarded(l, calls[..|calls| - 1]);
      match call {
        case StopRun(attempt) =>
          if m.file.run.lifecycle != LifecycleStopped && Ranges(attempt, m.file) {
            WholeStopStaysGuarded(m, attempt);
          }
        case Turn(step) =>
          if !step.Queue? && !step.StopStep? {
            TurnStaysGuarded(m, step);
          }
      }
    }
  }

  /** A launch neither stops its run nor queues a stopped intent. */
  predicate LaunchStep(step: Step)
  {
    !step.StopStep? && !(step.Queue? && step.lifecycle == LifecycleStopped)
  }

  lemma {:induction false} LaunchesAreGuarded(l: Ledger, steps: seq<Step>)
    requires Guarded(l) && StoppedId(l.file.run.id) !in l.file.intents
    requires forall step :: step in steps ==> LaunchStep(step)
    ensures var m := RunLedger(l, steps);
      Guarded(m) && StoppedId(m.file.run.id) !in m.file.intents && m.file.run.id == l.file.run.id
    decreases |steps|
  {
    if steps != [] {
      var before, step := steps[..|steps| - 1], steps[|steps| - 1];
      LaunchesAreGuarded(l, before);
      assert step in steps;
      if step.Queue? {
        StepCounts(RunLedger(l, before), step, 0);
      } else {
        TurnStaysGuarded(RunLedger(l, before), step);
      }
    }
  }

  /**
   Behind the controller's guard nothing is ever reopened: after any launch, and then any stops, dispatches, reports
   and records with any failures, the ledger holds the stopped event once if its intent is published and else not.
   */
  lemma ControllerStopsOnce(record: Run, workers: seq<Worker>, broker: seq<Event>, launch: seq<Step>, calls: seq<Call>)
    requires record.id != "" && forall step :: step in launch ==> LaunchStep(step)
    ensures var l := CallsLedger(RunLedger(Ledger(NewFile(record, workers), broker), launch), calls);
      var id := StoppedId(record.id);
      && CountOf(l.file.events, id) == (if IsPublished(l.file, id) then 1 else 0)
      && (id in l.file.intents ==> l.file.run.lifecycle == LifecycleStopped)
  {
    LaunchesAreGuarded(Ledger(NewFile(record, workers), broker), launch);
    CallsStayGuarded(RunLedger(Ledger(NewFile(record, workers), broker), launch), calls);
  }
}
