/**
 What a series of runtime reports makes of a worker, read off the reports themselves instead of step by step, and
 what a saved launch says about one.
 */
module WorkerReports {
  import opened Prelude
  import opened SimopsState

  function ReportedAll(s: WorkerState, reports: seq<Observation>): WorkerState
  {
    if reports == [] then s else Reported(ReportedAll(s, reports[..|reports| - 1]), reports[|reports| - 1])
  }

  /** The store applies reports to a worker exactly so. */
  lemma StoreAppliesReports(w: Worker, o: Observation, now: Time)
    ensures ObserveWorker(w, o, now).0.state == Some(Reported(EnsureWorkerState(w), o))
  {
  }

  // ---------------------------------------------------------------- reading the reports

  predicate IsFailing(o: Observed)
  {
    o == FailedSeen || o == ImagePullFailed
  }

  predicate AnyTerminal(reports: seq<Observation>)
  {
    exists o :: o in reports && IsTerminal(o.state)
  }

  predicate AnyOf(reports: seq<Observation>, state: Observed)
  {
    exists o :: o in reports && o.state == state
  }

  predicate AnyFailing(reports: seq<Observation>)
  {
    exists o :: o in reports && IsFailing(o.state)
  }

  /** The last terminal report. */
  function LastTerminal(reports: seq<Observation>): (o: Observation)
    requires AnyTerminal(reports)
    ensures o in reports && IsTerminal(o.state)
  {
    var last := reports[|reports| - 1];
    if IsTerminal(last.state) then last
    else
      assert reports == reports[..|reports| - 1] + [last];
      LastTerminal(reports[..|reports| - 1])
  }

  /** The reports before the first terminal one: the only ones that can still move the worker about. */
  function Opening(reports: seq<Observation>): seq<Observation>
  {
    if reports == [] then []
    else if AnyTerminal(reports) then Opening(reports[..|reports| - 1])
    else reports
  }

  /** How many reports contradict an earlier terminal one. */
  function Contradictions(reports: seq<Observation>): nat
  {
    if reports == [] then 0
    else
      Contradictions(reports[..|reports| - 1])
      + (if AnyTerminal(reports[..|reports| - 1]) && !IsTerminal(reports[|reports| - 1].state) then 1 else 0)
  }

  function PhaseOf(o: Observed): WorkerPhase
  {
    match o
    case Succeeded => WorkerCompleted
    case StoppedSeen => WorkerStopped
    case _ => WorkerFailed
  }

  /** The stage of the last failing report: execution only if it is the first terminal one and execution was seen. */
  function StageOf(s: WorkerState, reports: seq<Observation>): Stage
  {
    if reports == [] then s.stage
    else
      var before, last := reports[..|reports| - 1], reports[|reports| - 1];
      if !IsFailing(last.state) then StageOf(s, before)
      else if !AnyTerminal(before) && (s.execution == Active || AnyOf(before, ActiveSeen)) then ExecutionStage
      else LaunchStage
  }

  lemma OneMoreReport(reports: seq<Observation>, o: Observation)
    ensures AnyTerminal(reports + [o]) == (AnyTerminal(reports) || IsTerminal(o.state))
    ensures AnyFailing(reports + [o]) == (AnyFailing(reports) || IsFailing(o.state))
    ensures forall state :: AnyOf(reports + [o], state) == (AnyOf(reports, state) || o.state == state)
    ensures (reports + [o])[..|reports|] == reports
    ensures Opening(reports + [o]) == if AnyTerminal(reports + [o]) then Opening(reports) else reports + [o]
  {
    assert forall x :: x in reports + [o] <==> x in reports || x == o;
  }

  lemma {:induction false} OpeningWithoutTerminal(reports: seq<Observation>)
    ensures !AnyTerminal(reports) ==> Opening(reports) == reports
  {
  }

  /** What the reports say: execution and phase from the last terminal report, or else from any sign of execution. */
  ghost predicate Decided(s: WorkerState, t: WorkerState, reports: seq<Observation>)
  {
    if AnyTerminal(reports) then t.execution == Terminal && t.phase == PhaseOf(LastTerminal(reports).state)
    else if AnyOf(reports, ActiveSeen) then t.execution == Active && t.phase == Executing
    else
      && t.phase == s.phase
      && t.execution == if AnyOf(reports, MissingSeen) && s.execution in {Unobserved, Uncertain}
        then Absent else s.execution
  }

  lemma ReportDecides(s: WorkerState, m: WorkerState, reports: seq<Observation>, o: Observation)
    requires s.execution != Terminal && Decided(s, m, reports)
    ensures Decided(s, Reported(m, o), reports + [o])
  {
    OneMoreReport(reports, o);
  }

  ghost predicate LaunchKnown(s: WorkerState, t: WorkerState, reports: seq<Observation>)
  {
    t.launch == Launched <==> s.launch == Launched || AnyOf(Opening(reports), ActiveSeen)
  }

  ghost predicate FailureKnown(s: WorkerState, t: WorkerState, reports: seq<Observation>)
  {
    && (t.condition.status == Failed <==> s.condition.status == Failed || AnyFailing(reports))
    && t.stage == StageOf(s, reports)
  }

  ghost predicate ContradictionsKept(s: WorkerState, t: WorkerState, reports: seq<Observation>)
  {
    |t.condition.degradations| == |s.condition.degradations| + Contradictions(reports) && t.cleanup == s.cleanup
  }

  /** Whether the worker was launched, whether it failed and at what stage, and how often it was contradicted. */
  ghost predicate Accounted(s: WorkerState, t: WorkerState, reports: seq<Observation>)
  {
    LaunchKnown(s, t, reports) && FailureKnown(s, t, reports) && ContradictionsKept(s, t, reports)
  }

  lemma ReportLaunches(s: WorkerState, m: WorkerState, reports: seq<Observation>, o: Observation)
    requires s.execution != Terminal && Decided(s, m, reports) && LaunchKnown(s, m, reports)
    ensures LaunchKnown(s, Reported(m, o), reports + [o])
  {
    OneMoreReport(reports, o);
    OpeningWithoutTerminal(reports);
  }

  lemma ReportStages(s: WorkerState, m: WorkerState, reports: seq<Observation>, o: Observation)
    requires s.execution != Terminal && Decided(s, m, reports) && m.stage == StageOf(s, reports)
    ensures Reported(m, o).stage == StageOf(s, reports + [o])
  {
    OneMoreReport(reports, o);
    assert m.execution == Active <==> !AnyTerminal(reports) && (s.execution == Active || AnyOf(reports, ActiveSeen));
  }

  lemma ReportFails(s: WorkerState, m: WorkerState, reports: seq<Observation>, o: Observation)
    requires s.execution != Terminal && Decided(s, m, reports) && FailureKnown(s, m, reports)
    ensures FailureKnown(s, Reported(m, o), reports + [o])
  {
    OneMoreReport(reports, o);
    ReportStages(s, m, reports, o);
  }

  lemma ReportContradicts(s: WorkerState, m: WorkerState, reports: seq<Observation>, o: Observation)
    requires s.execution != Terminal && Decided(s, m, reports) && ContradictionsKept(s, m, reports)
    ensures ContradictionsKept(s, Reported(m, o), reports + [o])
  {
    OneMoreReport(reports, o);
  }

  /**
   Any series of reports on a worker that is not terminal yet, in closed form. Only the last terminal report
   decides how it ended, later live reports are contradictions and nothing else; without a terminal report any sign
   of execution decides; it is failed iff a report failed it, at the execution stage iff that report was the first
   terminal one after a sign of execution; and each contradiction leaves one degradation.
   */
  lemma {:induction false} ReportsDecide(s: WorkerState, reports: seq<Observation>)
    requires s.execution != Terminal
    ensures Decided(s, ReportedAll(s, reports), reports) && Accounted(s, ReportedAll(s, reports), reports)
    decreases |reports|
  {
    if reports != [] {
      var before, last := reports[..|reports| - 1], reports[|reports| - 1];
      ReportsDecide(s, before);
      assert reports == before + [last];
      ReportDecides(s, ReportedAll(s, before), before, last);
      ReportLaunches(s, ReportedAll(s, before), before, last);
      ReportFails(s, ReportedAll(s, before), before, last);
      ReportContradicts(s, ReportedAll(s, before), before, last);
    }
  }

  // ---------------------------------------------------------------- what a launch leaves behind

  /** A worker whose launch was never decided: launched iff it has a runtime id, rejected iff it has none and came
      back failed, and otherwise uncertain, which is the only case that degrades it. */
  lemma LaunchesAreDecided(w: Worker)
    requires EnsureWorkerState(w).launch == Unattempted
    ensures var s, t := EnsureWorkerState(w), MaterializeLaunch(w).state.value;
      && (t.launch == Launched <==> w.runtimeId != "")
      && (t.launch == Rejected <==> w.runtimeId == "" && w.lifecycle == LifecycleFailed)
      && (t.launch == AttemptedAbsent <==> |t.condition.degradations| > |s.condition.degradations|)
      && t.launch != Unattempted
      && (t.condition.status == Failed <==> s.condition.status == Failed || t.launch == Rejected)
  {
  }

  /** A decided launch is not decided again, whatever record a later save brings. */
  lemma LaunchesAreDecidedOnce(w: Worker)
    requires EnsureWorkerState(w).launch in {Launched, Rejected}
    ensures MaterializeLaunch(w).state == Some(EnsureWorkerState(w))
    ensures MaterializeLaunch(MaterializeLaunch(w)) == MaterializeLaunch(w)
  {
  }
}
