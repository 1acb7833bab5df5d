/** What the Artifact Forge ledger keeps over any series of requests, recoveries, touches and prunings. */
module ArtifactForgeLaws {
  import opened Prelude
  import opened ArtifactForge

  // ---------------------------------------------------------------- one record

  function AppliedEvents(events: seq<Event>): nat
  {
    if events == [] then 0
    else
      AppliedEvents(events[..|events| - 1]) + (if events[|events| - 1].eventType == OutcomeAppliedEvent then 1 else 0)
  }

  lemma AppliedOneMore(events: seq<Event>, e: Event)
    ensures AppliedEvents(events + [e]) == AppliedEvents(events) + (if e.eventType == OutcomeAppliedEvent then 1 else 0)
  {
    assert (events + [e])[..|events|] == events;
  }

  /** The event log numbers its events 1, 2, 3, ...; exactly one of them applies an outcome iff there is one. */
  ghost predicate LogBooks(r: Record)
  {
    && (forall i :: 0 <= i < |r.events| ==> r.events[i].index == i + 1)
    && AppliedEvents(r.events) == (if r.outcome.Some? then 1 else 0)
  }

  ghost predicate RecordBooks(r: Record)
  {
    && LogBooks(r)
    && (r.decision == OutcomeApplied <==> r.outcome.Some?)
    && (r.decision == RunFailed ==> r.run.Some?)
    && (r.outcome.Some? ==> r.run.Some? && DescribedBy(r.outcome.value, r))
  }

  predicate DescribedBy(o: Outcome, r: Record)
  {
    o.reactor == r.reactor && o.artifact == r.artifact && o.lineage == r.lineage
  }

  /** Nothing of the record is taken back: who asked for what, its run, its events, and an applied outcome. */
  ghost predicate RecordForward(r: Record, t: Record)
  {
    && t.session == r.session && t.key == r.key && t.reactor == r.reactor && t.job == r.job && t.recipe == r.recipe
    && t.submittedBy == r.submittedBy && t.createdAt == r.createdAt
    && r.events <= t.events
    && (r.run.Some? ==> t.run == r.run)
    && (r.outcome.Some? ==> t.outcome == r.outcome && t.decision == r.decision && t.events == r.events)
  }

  ghost predicate Kept(r: Record, t: Record)
  {
    RecordBooks(t) && RecordForward(r, t)
  }

  lemma LoggingKeeps(r: Record, eventType: EventType, now: Time)
    requires eventType != OutcomeAppliedEvent && LogBooks(r)
    ensures LogBooks(Log(r, eventType, now)) && LogBooks(LogEvaluation(r, eventType, now))
    ensures r.events <= Log(r, eventType, now).events && r.events <= LogEvaluation(r, eventType, now).events
  {
    AppliedOneMore(r.events, NewEvent(r, eventType, now));
  }

  lemma DecidingKeeps(r: Record, decision: Decision, artifact: string, lineage: string, now: Time)
    requires RecordBooks(r) && r.outcome.None? && r.run.Some? && decision != OutcomeApplied
    ensures Kept(r, Decided(r, decision, artifact, lineage, now))
            && Decided(r, decision, artifact, lineage, now).outcome.None?
    ensures Decided(r, decision, artifact, lineage, now).decision == decision
  {
    LoggingKeeps(
      r.(decision := decision, artifact := if artifact != "" then artifact else r.artifact,
         lineage := if lineage != "" then lineage else r.lineage, updatedAt := now), EligibilityEvaluated, now);
  }

  /** The one place where an outcome comes into being, together with its event. */
  lemma ApplyingKeeps(r: Record, e: Evidence, now: Time)
    requires RecordBooks(r) && r.outcome.None? && r.run.Some? && e.expectedValue.Some? && e.lineage.Some?
    ensures Kept(r, Applied(r, e, now)) && Applied(r, e, now).outcome.Some?
  {
    var judged := r.(decision := OutcomeApplied, artifact := e.artifact.id, lineage := e.lineage.value.id,
        updatedAt := now);
    LoggingKeeps(judged, EligibilityEvaluated, now);
    var paid := judged.(outcome := Some(Outcome(r.reactor, e.artifact.id, e.lineage.value.id, e.expectedValue.value)));
    var evaluated := LogEvaluation(paid, EligibilityEvaluated, now);
    assert evaluated.events == LogEvaluation(judged, EligibilityEvaluated, now).events;
    AppliedOneMore(evaluated.events, NewEvent(evaluated, OutcomeAppliedEvent, now));
  }

  predicate Failing(seen: RunSeen)
  {
    seen == RunFailedSeen || seen == RunStoppedSeen
  }

  lemma EvaluatingKeeps(r: Record, env: Environment, now: Time)
    requires RecordBooks(r) && r.outcome.None? && r.run.Some?
    ensures Kept(r, Evaluated(r, env, now))
    ensures Failing(env.runs(r.run.value)) ==> Evaluated(r, env, now).decision == RunFailed
    ensures Evaluated(r, env, now).decision == RunFailed ==> r.decision == RunFailed || Failing(env.runs(r.run.value))
  {
    match env.runs(r.run.value) {
      case NoRun =>
      case Unfinished =>
      case RunFailedSeen => DecidingKeeps(r, RunFailed, "", "", now);
      case RunStoppedSeen => DecidingKeeps(r, RunFailed, "", "", now);
      case RunComplete =>
        match env.eligibility {
          case NoStore =>
          case ReadFails =>
          case NotFound => DecidingKeeps(r, TelemetryIneligible, "", "", now);
          case Found(e) =>
            if Judge(r, e) == OutcomeApplied {
              ApplyingKeeps(r, e, now);
            } else {
              DecidingKeeps(r, Judge(r, e), e.artifact.id, LineageOf(Judge(r, e), e), now);
            }
        }
    }
  }

  lemma AssociatingKeeps(r: Record, env: Environment, now: Time)
    requires RecordBooks(r) && r.outcome.None? && r.run.None?
    ensures var t := Associated(r, env, now);
      && Kept(r, t)
      && (t.decision == RunFailed ==> t.run.Some? && Failing(env.runs(t.run.value)))
  {
    match env.launch {
      case LaunchErrLost => LoggingKeeps(r.(decision := RunLaunchRetryable, updatedAt := now), LaunchRetryable, now);
      case LaunchOk(run) => LoggingKeeps(r.(run := Some(run), decision := AwaitingRun, updatedAt := now), RunAssociated,
          now);
      case LaunchErrFound(run) =>
        var launched := r.(run := Some(run), decision := AwaitingRun, updatedAt := now);
        LoggingKeeps(launched, RunAssociated, now);
        EvaluatingKeeps(Log(launched, RunAssociated, now), env, now);
    }
  }

  lemma ResumingKeeps(r: Record, env: Environment, now: Time)
    requires RecordBooks(r)
    ensures var t := Resumed(r, env, now);
      && Kept(r, t)
      && (t.decision == RunFailed ==>
          t.run.Some? && ((r.decision == RunFailed && t.run == r.run) || Failing(env.runs(t.run.value))))
  {
    if r.outcome.None? && r.decision != IntentRejected {
      if r.run.None? {
        AssociatingKeeps(r, env, now);
      } else {
        EvaluatingKeeps(r, env, now);
      }
    }
  }

  /** Once a record no longer counts against the caps, resuming it revives it only if its failed run is seen
      otherwise. */
  lemma ResumingRevives(r: Record, env: Environment, now: Time)
    requires RecordBooks(r) && !IsActive(r)
    requires r.decision == RunFailed ==> Failing(env.runs(r.run.value))
    ensures !IsActive(Resumed(r, env, now))
  {
    if r.outcome.None? && r.decision == RunFailed {
      EvaluatingKeeps(r, env, now);
    }
  }

  // ---------------------------------------------------------------- eligibility

  /** Everything an artifact must be for the outcome to be applied. */
  ghost predicate FullyEligible(r: Record, e: Evidence)
  {
    var a := e.artifact;
    && a.status == COMMITTED && a.complete && a.kind == ELIGIBLE_KIND && a.mediaType == ELIGIBLE_MEDIA
    && a.schemaVersion == RESULT_SCHEMA && a.recipe == r.recipe && a.integrity == VERIFIED
    && e.hasResult && e.expectedValue.Some? && e.lineage.Some? && Binds(e.lineage.value, r, a)
  }

  lemma NothingApplied(r: Record, env: Environment, now: Time)
    requires RecordBooks(r) && r.outcome.None? && r.run.Some?
    requires env.runs(r.run.value) != RunComplete || !env.eligibility.Found?
    ensures Evaluated(r, env, now).outcome.None?
  {
  }

  lemma JudgedByEligibility(r: Record, e: Evidence)
    requires r.run.Some?
    ensures Judge(r, e) == OutcomeApplied <==> FullyEligible(r, e)
  {
  }

  /** An evaluation applies an outcome exactly if the run is complete and its artifact fully eligible. */
  lemma AppliedIffEligible(r: Record, env: Environment, now: Time)
    requires RecordBooks(r) && r.outcome.None? && r.run.Some?
    ensures Evaluated(r, env, now).outcome.Some? <==>
      env.runs(r.run.value) == RunComplete && env.eligibility.Found? && FullyEligible(r, env.eligibility.evidence)
  {
    if env.runs(r.run.value) == RunComplete && env.eligibility.Found? {
      var e := env.eligibility.evidence;
      JudgedByEligibility(r, e);
      if Judge(r, e) == OutcomeApplied {
        ApplyingKeeps(r, e, now);
      } else {
        DecidingKeeps(r, Judge(r, e), e.artifact.id, LineageOf(Judge(r, e), e), now);
      }
    } else {
      NothingApplied(r, env, now);
    }
  }

  // ---------------------------------------------------------------- the ledger, step by step

  datatype Action =
    | Touch(session: string)
    | Ask(request: Request, identity: string)
    | Recover(session: string, key: string)
    | Prune

  /** One manager call, at a time, in an environment. */
  datatype Step = Step(action: Action, env: Environment, now: Time)

  function StepRecords(records: Records, step: Step): Records
  {
    match step.action
    case Touch(session) => Touched(records, session, step.now)
    case Ask(request, identity) => Requested(records, request, identity, step.env, step.now)
    case Recover(session, key) => Recovered(records, session, key, step.env, step.now)
    case Prune => Pruned(records, step.now)
  }

  function RunRecords(records: Records, steps: seq<Step>): Records
  {
    if steps == [] then records else StepRecords(RunRecords(records, steps[..|steps| - 1]), steps[|steps| - 1])
  }

  ghost predicate Books(records: Records)
  {
    Filed(records) && forall k :: k in records ==> RecordBooks(records[k])
  }

  /** A record goes forward or, if its retention is over, is pruned. */
  ghost predicate Onward(records: Records, next: Records, step: Step)
  {
    forall k :: k in records ==>
      if k in next then RecordForward(records[k], next[k]) else step.action == Prune && Expired(records[k], step.now)
  }

  lemma TouchingKeeps(records: Records, session: string, now: Time)
    requires Books(records)
    ensures var next := Touched(records, session, now);
      && Books(next) && next.Keys == records.Keys
      && forall k :: k in records ==>
           next[k] == records[k].(lastActivityAt := next[k].lastActivityAt, retainUntil := next[k].retainUntil)
  {
  }

  lemma OpeningKeeps(q: Request, identity: string, env: Environment, now: Time)
    ensures var r := Opened(q, identity, env, now);
      && RecordBooks(r) && r.session == q.session && r.key == q.key && r.reactor == q.reactor
      && (r.decision == RunFailed ==> r.run.Some? && Failing(env.runs(r.run.value)))
      && (!(q.jobState == "completed" && q.recipe == RECIPE) ==> !IsActive(r))
  {
    var r := NewRecord(q, identity, now);
    LoggingKeeps(r.(decision := IntentRejected), IntentRejectedEvent, now);
    LoggingKeeps(r, IntentAccepted, now);
    AssociatingKeeps(Log(r, IntentAccepted, now), env, now);
  }

  /** What one step did to each record, for every invariant below. */
  ghost predicate Stepped(records: Records, next: Records, step: Step)
  {
    forall k :: k in next ==> RecordStepped(records, next[k], k, step)
  }

  /** A record after a step: as before but for its retention, resumed, or newly opened within the caps. */
  ghost predicate RecordStepped(records: Records, t: Record, k: Key, step: Step)
  {
    || (k in records && SameButRetention(records[k], t))
    || (k in records && exists r :: SameButRetention(records[k], r) && t == Resumed(r, step.env, step.now))
    || (k !in records && step.action.Ask? && k == KeyOf(Normalized(step.action.request))
        && t == Opened(Normalized(step.action.request), step.action.identity, step.env, step.now))
  }

  ghost predicate SameButRetention(r: Record, t: Record)
  {
    t == r || t == Retained(r, t.lastActivityAt)
  }

  lemma AskingSteps(records: Records, step: Step)
    requires Books(records) && step.action.Ask?
    ensures Stepped(records, StepRecords(records, step), step)
  {
    var q := Normalized(step.action.request);
    var touched := Touched(records, q.session, step.now);
    var next := StepRecords(records, step);
    TouchingKeeps(records, q.session, step.now);
    forall k | k in next ensures RecordStepped(records, next[k], k, step) {
      if !ValidRequest(q) {
        assert SameButRetention(records[k], next[k]);
      } else if k in records {
        assert SameButRetention(records[k], touched[k]);
        assert next[k] == touched[k] || next[k] == Resumed(touched[k], step.env, step.now);
      }
    }
  }

  lemma StepsAreSteps(records: Records, step: Step)
    requires Books(records)
    ensures Stepped(records, StepRecords(records, step), step)
  {
    var next := StepRecords(records, step);
    match step.action {
      case Touch(session) => TouchingKeeps(records, session, step.now);
      case Ask(request, identity) => AskingSteps(records, step);
      case Recover(session, key) =>
        forall k | k in next ensures RecordStepped(records, next[k], k, step) {
          assert k in records && SameButRetention(records[k], records[k]);
        }
      case Prune =>
        forall k | k in next ensures RecordStepped(records, next[k], k, step) {
          assert k in records && SameButRetention(records[k], next[k]);
        }
    }
  }

  lemma SteppedRecordKeeps(records: Records, t: Record, k: Key, step: Step)
    requires Books(records) && RecordStepped(records, t, k, step)
    ensures RecordBooks(t) && k == (t.session, t.key)
    ensures k in records ==> RecordForward(records[k], t)
    ensures t.decision == RunFailed ==>
      t.run.Some? && ((k in records && records[k].decision == RunFailed && t.run == records[k].run)
          || Failing(step.env.runs(t.run.value)))
  {
    if k !in records {
      OpeningKeeps(Normalized(step.action.request), step.action.identity, step.env, step.now);
    } else if !SameButRetention(records[k], t) {
      var r :| SameButRetention(records[k], r) && t == Resumed(r, step.env, step.now);
      ResumingKeeps(r, step.env, step.now);
    }
  }

  lemma StepKeeps(records: Records, step: Step)
    requires Books(records)
    ensures var next := StepRecords(records, step); Books(next) && Onward(records, next, step)
  {
    var next := StepRecords(records, step);
    StepsAreSteps(records, step);
    forall k | k in next ensures RecordBooks(next[k]) && k == (next[k].session, next[k].key)
      && (k in records ==> RecordForward(records[k], next[k]))
    {
      SteppedRecordKeeps(records, next[k], k, step);
    }
  }

  lemma {:induction false} RunKeepsBooks(steps: seq<Step>)
    ensures Books(RunRecords(map[], steps))
    decreases |steps|
  {
    if steps != [] {
      RunKeepsBooks(steps[..|steps| - 1]);
      StepKeeps(RunRecords(map[], steps[..|steps| - 1]), steps[|steps| - 1]);
    }
  }

  /** In every reachable ledger, an outcome-applied event occurs once iff the record has an outcome, and event ids
      never repeat within a record. */
  lemma AppliedOnceIffOutcome(steps: seq<Step>, k: Key)
    requires k in RunRecords(map[], steps)
    ensures var r := RunRecords(map[], steps)[k];
      && AppliedEvents(r.events) == (if r.outcome.Some? then 1 else 0)
      && (forall i :: 0 <= i < |r.events| ==> r.events[i].index == i + 1)
  {
    RunKeepsBooks(steps);
  }

  /** Whatever happens next: a record is only pruned, and only when its retention is over; otherwise its events are
      extended at the end, its run stays, and an applied outcome stays exactly as it is. */
  lemma OutcomesArePermanent(steps: seq<Step>, next: Step, k: Key)
    requires k in RunRecords(map[], steps)
    ensures var records := RunRecords(map[], steps);
      var after := StepRecords(records, next);
      if k in after then RecordForward(records[k], after[k]) else next.action == Prune && Expired(records[k], next.now)
  {
    RunKeepsBooks(steps);
    StepKeeps(RunRecords(map[], steps), next);
  }

  // ---------------------------------------------------------------- evaluations and retention

  /** Two neighbouring evaluations with the same decision, artifact and lineage. */
  predicate SameEvaluation(d: Event, e: Event)
  {
    d.eventType == EligibilityEvaluated && e.eventType == EligibilityEvaluated && d.decision == e.decision
    && d.artifact == e.artifact && d.lineage == e.lineage
  }

  /** No evaluation is logged twice in a row, and retention ends eight days after the last activity. */
  ghost predicate Tidy(r: Record)
  {
    && (forall i :: 0 <= i < |r.events| - 1 ==> !SameEvaluation(r.events[i], r.events[i + 1]))
    && r.retainUntil == r.lastActivityAt + 8 * DAY
  }

  lemma LoggingIsTidy(r: Record, eventType: EventType, now: Time)
    requires Tidy(r)
    ensures eventType != EligibilityEvaluated ==> Tidy(Log(r, eventType, now))
    ensures Tidy(LogEvaluation(r, eventType, now))
  {
  }

  lemma DecidingIsTidy(r: Record, decision: Decision, artifact: string, lineage: string, now: Time)
    requires Tidy(r)
    ensures Tidy(Decided(r, decision, artifact, lineage, now))
  {
    LoggingIsTidy(
      r.(decision := decision, artifact := if artifact != "" then artifact else r.artifact,
         lineage := if lineage != "" then lineage else r.lineage, updatedAt := now), EligibilityEvaluated, now);
  }

  lemma ApplyingIsTidy(r: Record, e: Evidence, now: Time)
    requires Tidy(r) && e.expectedValue.Some? && e.lineage.Some?
    ensures Tidy(Applied(r, e, now))
  {
    var lineage := e.lineage.value.id;
    var paid := r.(decision := OutcomeApplied, artifact := e.artifact.id, lineage := lineage,
                   outcome := Some(Outcome(r.reactor, e.artifact.id, lineage, e.expectedValue.value)),
                     updatedAt := now);
    LoggingIsTidy(paid, EligibilityEvaluated, now);
    LoggingIsTidy(LogEvaluation(paid, EligibilityEvaluated, now), OutcomeAppliedEvent, now);
  }

  lemma EvaluatingIsTidy(r: Record, env: Environment, now: Time)
    requires Tidy(r) && r.run.Some?
    ensures Tidy(Evaluated(r, env, now))
  {
    match env.runs(r.run.value) {
      case NoRun =>
      case Unfinished =>
      case RunFailedSeen => DecidingIsTidy(r, RunFailed, "", "", now);
      case RunStoppedSeen => DecidingIsTidy(r, RunFailed, "", "", now);
      case RunComplete =>
        match env.eligibility {
          case NoStore =>
          case ReadFails =>
          case NotFound => DecidingIsTidy(r, TelemetryIneligible, "", "", now);
          case Found(e) =>
            if Judge(r, e) == OutcomeApplied {
              ApplyingIsTidy(r, e, now);
            } else {
              DecidingIsTidy(r, Judge(r, e), e.artifact.id, LineageOf(Judge(r, e), e), now);
            }
        }
    }
  }

  lemma AssociatingIsTidy(r: Record, env: Environment, now: Time)
    requires Tidy(r)
    ensures Tidy(Associated(r, env, now))
  {
    match env.launch {
      case LaunchErrLost => LoggingIsTidy(r.(decision := RunLaunchRetryable, updatedAt := now), LaunchRetryable, now);
      case LaunchOk(run) => LoggingIsTidy(r.(run := Some(run), decision := AwaitingRun, updatedAt := now),
          RunAssociated, now);
      case LaunchErrFound(run) =>
        var launched := r.(run := Some(run), decision := AwaitingRun, updatedAt := now);
        LoggingIsTidy(launched, RunAssociated, now);
        EvaluatingIsTidy(Log(launched, RunAssociated, now), env, now);
    }
  }

  lemma OpeningIsTidy(q: Request, identity: string, env: Environment, now: Time)
    ensures Tidy(Opened(q, identity, env, now))
  {
    var r := NewRecord(q, identity, now);
    LoggingIsTidy(r.(decision := IntentRejected), IntentRejectedEvent, now);
    LoggingIsTidy(r, IntentAccepted, now);
    AssociatingIsTidy(Log(r, IntentAccepted, now), env, now);
  }

  lemma ResumingIsTidy(r: Record, env: Environment, now: Time)
    requires Tidy(r)
    ensures Tidy(Resumed(r, env, now))
  {
    if r.outcome.None? && r.decision != IntentRejected {
      if r.run.None? {
        AssociatingIsTidy(r, env, now);
      } else {
        EvaluatingIsTidy(r, env, now);
      }
    }
  }

  lemma SteppedRecordIsTidy(records: Records, t: Record, k: Key, step: Step)
    requires (k in records ==> Tidy(records[k])) && RecordStepped(records, t, k, step)
    ensures Tidy(t)
  {
    if k !in records {
      OpeningIsTidy(Normalized(step.action.request), step.action.identity, step.env, step.now);
    } else if !SameButRetention(records[k], t) {
      var r :| SameButRetention(records[k], r) && t == Resumed(r, step.env, step.now);
      ResumingIsTidy(r, step.env, step.now);
    }
  }

  /** In every reachable ledger, no evaluation is logged twice in a row, and a record is retained until eight days
      after its session was last active. */
  lemma {:induction false} LedgersAreTidy(steps: seq<Step>)
    ensures forall k :: k in RunRecords(map[], steps) ==> Tidy(RunRecords(map[], steps)[k])
    decreases |steps|
  {
    if steps != [] {
      var before, step := RunRecords(map[], steps[..|steps| - 1]), steps[|steps| - 1];
      LedgersAreTidy(steps[..|steps| - 1]);
      RunKeepsBooks(steps[..|steps| - 1]);
      StepsAreSteps(before, step);
      var after := StepRecords(before, step);
      forall k | k in after ensures Tidy(after[k]) {
        SteppedRecordIsTidy(before, after[k], k, step);
      }
    }
  }

  /** So pruning spares every record whose session was active within the last eight days. */
  lemma RecordsAreRetained(steps: seq<Step>, k: Key, now: Time, env: Environment)
    requires k in RunRecords(map[], steps)
    requires now < RunRecords(map[], steps)[k].lastActivityAt + 8 * DAY
    ensures k in StepRecords(RunRecords(map[], steps), Step(Prune, env, now))
  {
    LedgersAreTidy(steps);
  }

  // ---------------------------------------------------------------- caps, when failed runs stay failed

  /** Once a run has been seen failed or stopped, it is seen so ever after. */
  ghost predicate VerdictsStand(steps: seq<Step>)
  {
    forall i, j, run :: 0 <= i < j < |steps| && Failing(steps[i].env.runs(run)) ==> Failing(steps[j].env.runs(run))
  }

  predicate FailedBefore(steps: seq<Step>, run: string)
  {
    exists i :: 0 <= i < |steps| && Failing(steps[i].env.runs(run))
  }

  /** A record's run-failed decision goes back to a verdict that was given. */
  ghost predicate VerdictsKnown(records: Records, steps: seq<Step>)
  {
    forall k :: k in records && records[k].decision == RunFailed ==>
      records[k].run.Some? && FailedBefore(steps, records[k].run.value)
  }

  /** Two active requests of one session for the same reactor. */
  predicate Rivals(records: Records, j: Key, k: Key)
  {
    && j in records && k in records && j.0 == k.0 && IsActive(records[j]) && IsActive(records[k])
    && records[j].reactor == records[k].reactor
  }

  /** At most four active requests a session, and one a reactor. */
  ghost predicate Capped(records: Records)
  {
    && (forall session :: |Active(records, session)| <= SESSION_CAP)
    && (forall j, k :: Rivals(records, j, k) ==> j == k)
  }

  lemma VerdictsStayKnown(records: Records, steps: seq<Step>, step: Step)
    requires Books(records) && VerdictsKnown(records, steps)
    ensures VerdictsKnown(StepRecords(records, step), steps + [step])
  {
    var next := StepRecords(records, step);
    StepsAreSteps(records, step);
    forall k | k in next && next[k].decision == RunFailed
      ensures next[k].run.Some? && FailedBefore(steps + [step], next[k].run.value)
    {
      SteppedRecordKeeps(records, next[k], k, step);
      if Failing(step.env.runs(next[k].run.value)) {
        assert (steps + [step])[|steps|] == step;
      } else {
        var i :| 0 <= i < |steps| && Failing(steps[i].env.runs(records[k].run.value));
        assert (steps + [step])[i] == steps[i];
      }
    }
  }

  /** With standing verdicts, a record that does not count never counts again. */
  lemma InactiveStaysInactive(records: Records, steps: seq<Step>, step: Step, k: Key)
    requires Books(records) && VerdictsKnown(records, steps) && VerdictsStand(steps + [step])
    requires k in records && !IsActive(records[k]) && k in StepRecords(records, step)
    ensures !IsActive(StepRecords(records, step)[k])
  {
    var t := StepRecords(records, step)[k];
    StepsAreSteps(records, step);
    assert RecordStepped(records, t, k, step);
    if !SameButRetention(records[k], t) {
      var r :| SameButRetention(records[k], r) && t == Resumed(r, step.env, step.now);
      if r.decision == RunFailed {
        var i :| 0 <= i < |steps| && Failing(steps[i].env.runs(records[k].run.value));
        assert (steps + [step])[i] == steps[i] && (steps + [step])[|steps|] == step;
      }
      ResumingRevives(r, step.env, step.now);
    }
  }

  /** Every active record was active before, or is the one a request opened within the caps. */
  ghost predicate OnlyOpened(records: Records, next: Records, added: set<Key>)
  {
    forall k :: k in next && IsActive(next[k]) ==>
      k in added || (k in records && IsActive(records[k]) && next[k].reactor == records[k].reactor)
  }

  lemma NoneOpenedKeepsCaps(records: Records, next: Records)
    requires Filed(records) && Filed(next) && Capped(records) && OnlyOpened(records, next, {})
    ensures Capped(next)
  {
    forall session ensures |Active(next, session)| <= SESSION_CAP {
      assert Active(next, session) <= Active(records, session);
      SizeOfSubset(Active(next, session), Active(records, session));
    }
    forall j, k | Rivals(next, j, k) ensures j == k {
      assert Rivals(records, j, k);
    }
  }

  lemma OneOpenedKeepsCount(records: Records, next: Records, k: Key, reactor: string, session: string)
    requires Filed(records) && Filed(next) && Capped(records) && OnlyOpened(records, next, {k})
    requires CapsAllow(records, k.0, reactor)
    ensures |Active(next, session)| <= SESSION_CAP
  {
    if session == k.0 {
      assert Active(next, session) <= Active(records, session) + {k};
      SizeOfSubset(Active(next, session), Active(records, session) + {k});
    } else {
      assert Active(next, session) <= Active(records, session);
      SizeOfSubset(Active(next, session), Active(records, session));
    }
  }

  lemma OneOpenedHasNoRival(records: Records, next: Records, k: Key, reactor: string, i: Key, j: Key)
    requires Filed(records) && Filed(next) && Capped(records) && OnlyOpened(records, next, {k})
    requires k !in records && CapsAllow(records, k.0, reactor) && k in next && next[k].reactor == reactor
    requires Rivals(next, i, j)
    ensures i == j
  {
    if i != k && j != k {
      assert Rivals(records, i, j);
    } else if i != j {
      var other := if i == k then j else i;
      assert Counts(records, other, k.0);
    }
  }

  lemma OneOpenedKeepsCaps(records: Records, next: Records, k: Key, reactor: string)
    requires Filed(records) && Filed(next) && Capped(records) && OnlyOpened(records, next, {k})
    requires k !in records && CapsAllow(records, k.0, reactor) && k in next && next[k].reactor == reactor
    ensures Capped(next)
  {
    forall session ensures |Active(next, session)| <= SESSION_CAP {
      OneOpenedKeepsCount(records, next, k, reactor, session);
    }
    forall i, j | Rivals(next, i, j) ensures i == j {
      OneOpenedHasNoRival(records, next, k, reactor, i, j);
    }
  }

  /** The key a step opens a counted record for, if any. */
  ghost function OpenedBy(records: Records, step: Step): set<Key>
  {
    set k | k in StepRecords(records, step) && k !in records && IsActive(StepRecords(records, step)[k])
  }

  lemma TouchingKeepsCaps(records: Records, session: string, now: Time, reactor: string)
    requires Books(records) && CapsAllow(Touched(records, session, now), session, reactor)
    ensures CapsAllow(records, session, reactor)
  {
    var touched := Touched(records, session, now);
    TouchingKeeps(records, session, now);
    forall k ensures Counts(touched, k, session) == Counts(records, k, session) {
    }
    assert Active(touched, session) == Active(records, session);
    forall k | k in records && Counts(records, k, session) ensures records[k].reactor != reactor {
      assert Counts(touched, k, session) && touched[k].reactor == records[k].reactor;
    }
  }

  /** A new counted record is the one the step asked for, and the caps allowed it. */
  lemma OpeningIsCapped(records: Records, step: Step, k: Key)
    requires Books(records) && k in StepRecords(records, step) && k !in records
            && IsActive(StepRecords(records, step)[k])
    ensures step.action.Ask?
    ensures var q := Normalized(step.action.request);
      && k == KeyOf(q) && StepRecords(records, step)[k].reactor == q.reactor && CapsAllow(records, q.session, q.reactor)
  {
    StepsAreSteps(records, step);
    assert RecordStepped(records, StepRecords(records, step)[k], k, step);
    var q := Normalized(step.action.request);
    OpeningKeeps(q, step.action.identity, step.env, step.now);
    if CapsAllow(Touched(records, q.session, step.now), q.session, q.reactor) {
      TouchingKeepsCaps(records, q.session, step.now, q.reactor);
    }
  }

  /** A step makes a record count again that did not count before. */
  ghost predicate Revived(records: Records, step: Step, k: Key)
  {
    k in records && !IsActive(records[k]) && k in StepRecords(records, step) && IsActive(StepRecords(records, step)[k])
  }

  /** Where nothing is revived, only the caps let a record count. */
  lemma UnrevivedKeepsCaps(records: Records, step: Step)
    requires Books(records) && Capped(records) && forall k :: !Revived(records, step, k)
    ensures Capped(StepRecords(records, step))
  {
    var next := StepRecords(records, step);
    StepKeeps(records, step);
    forall k | k in next && k in records && IsActive(next[k])
      ensures IsActive(records[k]) && next[k].reactor == records[k].reactor
    {
      assert !Revived(records, step, k);
      assert RecordForward(records[k], next[k]);
    }
    var added := OpenedBy(records, step);
    if added == {} {
      forall k | k in next && IsActive(next[k]) ensures k in records {
        assert k !in added;
      }
      NoneOpenedKeepsCaps(records, next);
    } else {
      var k :| k in added;
      OpeningIsCapped(records, step, k);
      forall j | j in added ensures j == k {
        OpeningIsCapped(records, step, j);
      }
      forall j | j in next && IsActive(next[j]) ensures j == k || j in records {
        assert j in added <==> j !in records;
      }
      OneOpenedKeepsCaps(records, next, k, next[k].reactor);
    }
  }

  lemma StepKeepsCaps(records: Records, steps: seq<Step>, step: Step)
    requires Books(records) && VerdictsKnown(records, steps) && VerdictsStand(steps + [step]) && Capped(records)
    ensures Capped(StepRecords(records, step))
  {
    forall k ensures !Revived(records, step, k) {
      if Revived(records, step, k) {
        InactiveStaysInactive(records, steps, step, k);
      }
    }
    UnrevivedKeepsCaps(records, step);
  }

  lemma {:induction false} RunKeepsCaps(steps: seq<Step>)
    requires VerdictsStand(steps)
    ensures var records := RunRecords(map[], steps); Books(records) && VerdictsKnown(records, steps) && Capped(records)
    decreases |steps|
  {
    if steps == [] {
      forall session ensures |Active(map[], session)| <= SESSION_CAP {
        assert Active(map[], session) == {};
      }
    } else {
      var before, last := steps[..|steps| - 1], steps[|steps| - 1];
      assert steps == before + [last];
      assert VerdictsStand(before);
      RunKeepsCaps(before);
      StepKeeps(RunRecords(map[], before), last);
      VerdictsStayKnown(RunRecords(map[], before), before, last);
      StepKeepsCaps(RunRecords(map[], before), before, last);
    }
  }

  /** If failed and stopped verdicts stand: at most four active requests a session, and one a reactor, always. */
  lemma CapsHold(steps: seq<Step>, session: string, j: Key, k: Key)
    requires VerdictsStand(steps)
    ensures |Active(RunRecords(map[], steps), session)| <= SESSION_CAP
    ensures Rivals(RunRecords(map[], steps), j, k) ==> j == k
  {
    RunKeepsCaps(steps);
  }

  // ---------------------------------------------------------------- caps, exactly

  /** The record a step resumes, if any. */
  predicate Resumes(records: Records, action: Action, k: Key)
  {
    && k in records
    && match action
       case Touch(_) => false
       case Ask(request, _) =>
         var q := Normalized(request);
         ValidRequest(q) && KeyOf(q) == k && SameRequest(records[k], q)
       case Recover(session, key) => (Trim(session), Trim(key)) == k && Identifier(k.0) && Identifier(k.1)
       case Prune => false
  }

  /** What the environment shows of a failed run that takes the verdict back: it is unfinished, or complete without an
      eligible artifact. */
  predicate TakenBack(r: Record, env: Environment)
    requires r.run.Some?
  {
    match env.runs(r.run.value)
    case Unfinished => true
    case RunComplete => env.eligibility.NotFound?
      || (env.eligibility.Found? && Judge(r, env.eligibility.evidence) != OutcomeApplied)
    case _ => false
  }

  lemma ResumingRevivesExactly(r: Record, env: Environment, now: Time)
    requires RecordBooks(r) && !IsActive(r)
    ensures IsActive(Resumed(r, env, now)) <==> r.decision == RunFailed && TakenBack(r, env)
  {
    if r.outcome.None? && r.decision == RunFailed && env.runs(r.run.value) == RunComplete && env.eligibility.Found? {
      var e := env.eligibility.evidence;
      if Judge(r, e) == OutcomeApplied {
        ApplyingKeeps(r, e, now);
      } else {
        DecidingKeeps(r, Judge(r, e), e.artifact.id, LineageOf(Judge(r, e), e), now);
      }
    }
  }

  lemma RetentionKeepsActivity(r: Record, t: Record)
    requires SameButRetention(r, t)
    ensures IsActive(t) == IsActive(r) && t.session == r.session && t.reactor == r.reactor && t.run == r.run
    ensures t.decision == r.decision && (RecordBooks(r) ==> RecordBooks(t))
  {
  }

  /** A record that is not resumed is as it was but for its retention, or gone. */
  lemma UnresumedStays(records: Records, step: Step, k: Key)
    requires Books(records) && k in records && !Resumes(records, step.action, k) && k in StepRecords(records, step)
    ensures SameButRetention(records[k], StepRecords(records, step)[k])
  {
    match step.action {
      case Touch(session) => TouchingKeeps(records, session, step.now);
      case Ask(request, identity) => TouchingKeeps(records, Normalized(request).session, step.now);
      case Recover(session, key) =>
      case Prune =>
    }
  }

  /** A resumed record is resumed as it is, or with its retention renewed, and no record is lost with it. */
  lemma ResumedStays(records: Records, step: Step, k: Key)
    requires Books(records) && Resumes(records, step.action, k)
    ensures StepRecords(records, step).Keys == records.Keys
    ensures exists r ::
      SameButRetention(records[k], r) && StepRecords(records, step)[k] == Resumed(r, step.env, step.now)
  {
    match step.action {
      case Ask(request, identity) =>
        var touched := Touched(records, Normalized(request).session, step.now);
        TouchingKeeps(records, Normalized(request).session, step.now);
        assert SameButRetention(records[k], touched[k]);
      case Recover(session, key) =>
        assert SameButRetention(records[k], records[k]);
    }
  }

  lemma RetentionKeepsVerdict(r: Record, t: Record, env: Environment)
    requires SameButRetention(r, t) && r.run.Some?
    ensures TakenBack(t, env) == TakenBack(r, env)
  {
  }

  lemma ResumedIsRevivedExactly(r: Record, t: Record, env: Environment, now: Time)
    requires RecordBooks(r) && SameButRetention(r, t)
    ensures !IsActive(r) && IsActive(Resumed(t, env, now)) <==> r.decision == RunFailed && TakenBack(r, env)
  {
    RetentionKeepsActivity(r, t);
    if !IsActive(r) {
      ResumingRevivesExactly(t, env, now);
      if r.decision == RunFailed {
        RetentionKeepsVerdict(r, t, env);
      }
    }
  }

  /** A step revives a record exactly if it resumes it and finds that its run's failure has been taken back. */
  lemma RevivedExactly(records: Records, step: Step, k: Key)
    requires Books(records)
    ensures Revived(records, step, k) <==>
      k in records && records[k].decision == RunFailed && Resumes(records, step.action, k)
        && TakenBack(records[k], step.env)
  {
    if k in records && k in StepRecords(records, step) && !Resumes(records, step.action, k) {
      UnresumedStays(records, step, k);
      RetentionKeepsActivity(records[k], StepRecords(records, step)[k]);
    } else if k in records && Resumes(records, step.action, k) {
      ResumedStays(records, step, k);
      var t :| SameButRetention(records[k], t) && StepRecords(records, step)[k] == Resumed(t, step.env, step.now);
      ResumedIsRevivedExactly(records[k], t, step.env, step.now);
    }
  }

  /** `next` has the records of `records`; `k` counts in it, and every other record counts as it did. */
  ghost predicate OneRevived(records: Records, next: Records, k: Key)
  {
    && next.Keys == records.Keys && k in records && !IsActive(records[k]) && IsActive(next[k])
    && forall j :: j in records ==>
         next[j].session == records[j].session && next[j].reactor == records[j].reactor
         && (j != k ==> IsActive(next[j]) == IsActive(records[j]))
  }

  lemma RevivalIsOne(records: Records, step: Step, k: Key)
    requires Books(records) && Revived(records, step, k)
    ensures OneRevived(records, StepRecords(records, step), k)
  {
    RevivedExactly(records, step, k);
    ResumedStays(records, step, k);
    var next := StepRecords(records, step);
    StepKeeps(records, step);
    forall j | j in records && j != k
      ensures next[j].session == records[j].session && next[j].reactor == records[j].reactor
      ensures IsActive(next[j]) == IsActive(records[j])
    {
      assert !Resumes(records, step.action, j);
      UnresumedStays(records, step, j);
      RetentionKeepsActivity(records[j], next[j]);
    }
    assert RecordForward(records[k], next[k]);
  }

  lemma RevivalCounts(records: Records, next: Records, k: Key, session: string)
    requires Filed(records) && OneRevived(records, next, k)
    ensures Active(next, session) == Active(records, session) + if session == k.0 then {k} else {}
    ensures k !in Active(records, session)
  {
    forall j ensures Counts(next, j, session) <==> Counts(records, j, session) || (j == k && session == k.0) {
    }
  }

  lemma RevivalWithinCaps(records: Records, next: Records, k: Key)
    requires Filed(records) && Capped(records) && OneRevived(records, next, k)
            && CapsAllow(records, k.0, records[k].reactor)
    ensures Capped(next)
  {
    forall session ensures |Active(next, session)| <= SESSION_CAP {
      RevivalCounts(records, next, k, session);
    }
    forall i, j | Rivals(next, i, j) ensures i == j {
      if i != k && j != k {
        assert Rivals(records, i, j);
      } else if i != j {
        assert Counts(records, if i == k then j else i, k.0);
      }
    }
  }

  lemma RevivalBeyondCaps(records: Records, next: Records, k: Key)
    requires Filed(records) && OneRevived(records, next, k) && !CapsAllow(records, k.0, records[k].reactor)
    ensures !Capped(next)
  {
    RevivalCounts(records, next, k, k.0);
    if |Active(records, k.0)| < SESSION_CAP {
      var j :| j in records && Counts(records, j, k.0) && records[j].reactor == records[k].reactor;
      assert Rivals(next, j, k);
    }
  }

  /** A revived record counts whether or not the caps allow it: they still hold afterwards exactly if they do. */
  lemma RevivalIsCappedExactly(records: Records, step: Step, k: Key)
    requires Books(records) && Capped(records) && Revived(records, step, k)
    ensures Capped(StepRecords(records, step)) <==> CapsAllow(records, k.0, records[k].reactor)
  {
    RevivalIsOne(records, step, k);
    if CapsAllow(records, k.0, records[k].reactor) {
      RevivalWithinCaps(records, StepRecords(records, step), k);
    } else {
      RevivalBeyondCaps(records, StepRecords(records, step), k);
    }
  }

  /** Whatever the step revives, the caps allow. */
  ghost predicate RevivesWithinCaps(records: Records, step: Step)
  {
    forall k :: Revived(records, step, k) ==> CapsAllow(records, k.0, records[k].reactor)
  }

  lemma StepIsCappedExactly(records: Records, step: Step)
    requires Books(records) && Capped(records)
    ensures Capped(StepRecords(records, step)) <==> RevivesWithinCaps(records, step)
  {
    if k :| Revived(records, step, k) {
      RevivalIsCappedExactly(records, step, k);
      forall j | Revived(records, step, j) ensures j == k {
        RevivedExactly(records, step, j);
        RevivedExactly(records, step, k);
      }
    } else {
      UnrevivedKeepsCaps(records, step);
    }
  }

  lemma NothingIsCapped()
    ensures Capped(map[])
  {
    forall session ensures |Active(map[], session)| <= SESSION_CAP {
      assert Active(map[], session) == {};
    }
  }

  /** The caps hold after every step of a run. */
  ghost predicate CappedThroughout(steps: seq<Step>)
  {
    Capped(RunRecords(map[], steps)) && (steps != [] ==> CappedThroughout(steps[..|steps| - 1]))
  }

  /** Every revival in a run happens within the caps. */
  ghost predicate RevivalsAllowed(steps: seq<Step>)
  {
    steps != [] ==>
      && RevivalsAllowed(steps[..|steps| - 1])
      && RevivesWithinCaps(RunRecords(map[], steps[..|steps| - 1]), steps[|steps| - 1])
  }

  /** In any run, the caps hold all along exactly if every revival happens within them. */
  lemma {:induction false} CapsHoldExactly(steps: seq<Step>)
    ensures CappedThroughout(steps) <==> RevivalsAllowed(steps)
    decreases |steps|
  {
    if steps == [] {
      NothingIsCapped();
    } else {
      var before := steps[..|steps| - 1];
      CapsHoldExactly(before);
      RunKeepsBooks(before);
      if CappedThroughout(before) {
        StepIsCappedExactly(RunRecords(map[], before), steps[|steps| - 1]);
      }
    }
  }

  // ---------------------------------------------------------------- what happens when a verdict does not stand

  /** A request whose run failed stops counting; if the run is later seen running again, recovering that request
      makes it count again beside the one that took its reactor's place. */
  lemma RevivedRunBreaksTheCap(records: Records, j: Key, k: Key, env: Environment, now: Time)
    requires Books(records) && j in records && k in records && j != k && j.0 == k.0
    requires records[j].reactor == records[k].reactor && IsActive(records[k])
    requires records[j].decision == RunFailed && records[j].outcome.None?
    requires Identifier(j.0) && Identifier(j.1) && Trim(j.0) == j.0 && Trim(j.1) == j.1
    requires env.runs(records[j].run.value) == Unfinished
    ensures Rivals(Recovered(records, j.0, j.1, env, now), j, k) && !Capped(Recovered(records, j.0, j.1, env, now))
  {
    assert Rivals(Recovered(records, j.0, j.1, env, now), j, k);
  }

  const TICKET := Request("s", "r", "j", "completed", RECIPE, "a")
  const RIVAL := Request("s", "r", "j", "completed", RECIPE, "b")

  function World(run: string, seen: RunSeen): Environment
  {
    Environment(LaunchOk(run), _ => seen, NoStore)
  }

  lemma TicketsAreValid()
    ensures Normalized(TICKET) == TICKET && ValidRequest(TICKET) && Normalized(RIVAL) == RIVAL && ValidRequest(RIVAL)
    ensures Trim("s") == "s" && Trim("a") == "a" && Trim("b") == "b"
  {
    assert Trim("completed") == "completed" && Trim(RECIPE) == RECIPE && Trim("j") == "j" && Trim("r") == "r";
  }

  /** Opening a request in an environment that launches it gives an active record. */
  lemma OpenedIsActive(q: Request, run: string, seen: RunSeen, now: Time)
    requires q.jobState == "completed" && q.recipe == RECIPE
    ensures var r := Opened(q, "id", World(run, seen), now);
      IsActive(r) && r.run == Some(run) && r.outcome.None? && r.reactor == q.reactor && r.decision == AwaitingRun
  {
  }

  const ASK_TICKET := Step(Ask(TICKET, "id"), World("run-1", RunFailedSeen), 1)
  const FAIL_TICKET := Step(Action.Recover("s", "a"), World("run-1", RunFailedSeen), 1)
  const ASK_RIVAL := Step(Ask(RIVAL, "id"), World("run-2", RunFailedSeen), 1)
  const REVIVE_TICKET := Step(Action.Recover("s", "a"), World("run-1", Unfinished), 1)

  /** The first request has failed and nothing else is there. */
  ghost predicate TicketFailed(records: Records)
  {
    && ("s", "a") in records && records[("s", "a")].decision == RunFailed && records[("s", "a")].outcome.None?
    && records[("s", "a")].run == Some("run-1")
    && records[("s", "a")].session == "s" && records[("s", "a")].reactor == "r"
  }

  ghost predicate RivalActive(records: Records)
  {
    ("s", "b") in records && IsActive(records[("s", "b")]) && records[("s", "b")].reactor == "r"
  }

  lemma FirstTicket()
    ensures StepRecords(map[], ASK_TICKET) == map[("s", "a") := Opened(TICKET, "id", World("run-1", RunFailedSeen), 1)]
  {
    TicketsAreValid();
    assert Touched(map[], "s", 1) == map[];
    assert Active(map[], "s") == {};
  }

  lemma FailedTicket(records: Records)
    requires records == map[("s", "a") := Opened(TICKET, "id", World("run-1", RunFailedSeen), 1)]
    ensures StepRecords(records, FAIL_TICKET).Keys == {("s", "a")} && TicketFailed(StepRecords(records, FAIL_TICKET))
  {
    TicketsAreValid();
    OpenedIsActive(TICKET, "run-1", RunFailedSeen, 1);
  }

  lemma SecondTicket(records: Records)
    requires records.Keys == {("s", "a")} && TicketFailed(records)
    ensures TicketFailed(StepRecords(records, ASK_RIVAL)) && RivalActive(StepRecords(records, ASK_RIVAL))
  {
    TicketsAreValid();
    OpenedIsActive(RIVAL, "run-2", RunFailedSeen, 1);
    var touched := Touched(records, "s", 1);
    assert touched.Keys == {("s", "a")};
    assert Active(touched, "s") == {};
  }

  lemma RunOneMore(steps: seq<Step>, step: Step)
    ensures RunRecords(map[], steps + [step]) == StepRecords(RunRecords(map[], steps), step)
  {
    assert (steps + [step])[..|steps|] == steps;
  }

  lemma ThreeCalls()
    ensures TicketFailed(RunRecords(map[], [ASK_TICKET, FAIL_TICKET, ASK_RIVAL]))
    ensures RivalActive(RunRecords(map[], [ASK_TICKET, FAIL_TICKET, ASK_RIVAL]))
  {
    FirstTicket();
    RunOneMore([], ASK_TICKET);
    assert [] + [ASK_TICKET] == [ASK_TICKET];
    FailedTicket(RunRecords(map[], [ASK_TICKET]));
    RunOneMore([ASK_TICKET], FAIL_TICKET);
    assert [ASK_TICKET] + [FAIL_TICKET] == [ASK_TICKET, FAIL_TICKET];
    SecondTicket(RunRecords(map[], [ASK_TICKET, FAIL_TICKET]));
    RunOneMore([ASK_TICKET, FAIL_TICKET], ASK_RIVAL);
    assert [ASK_TICKET, FAIL_TICKET] + [ASK_RIVAL] == [ASK_TICKET, FAIL_TICKET, ASK_RIVAL];
  }

  /** Without standing verdicts the caps can fail: two requests for one reactor are active after four calls. */
  lemma CapsNeedStandingVerdicts()
    ensures Rivals(RunRecords(map[], [ASK_TICKET, FAIL_TICKET, ASK_RIVAL, REVIVE_TICKET]), ("s", "a"), ("s", "b"))
  {
    ThreeCalls();
    var calls := [ASK_TICKET, FAIL_TICKET, ASK_RIVAL];
    RunKeepsBooks(calls);
    TicketsAreValid();
    RevivedRunBreaksTheCap(RunRecords(map[], calls), ("s", "a"), ("s", "b"), World("run-1", Unfinished), 1);
    RunOneMore(calls, REVIVE_TICKET);
    assert calls + [REVIVE_TICKET] == [ASK_TICKET, FAIL_TICKET, ASK_RIVAL, REVIVE_TICKET];
  }
}
