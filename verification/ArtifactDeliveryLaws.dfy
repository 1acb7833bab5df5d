/** What the artifact intent processor keeps over any series of events and failures. */
module ArtifactDeliveryLaws {
  import opened Prelude
  import opened ArtifactDelivery

  /** One call of ProcessEvent; calls are serial. */
  datatype Step = Step(event: Event, env: Environment)

  function Start(ledger: Option<Ledger>): System
  {
    System(map[], ledger, [], [], [])
  }

  function RunAll(c: Config, s: System, steps: seq<Step>): System
  {
    if steps == [] then s
    else Process(c, RunAll(c, s, steps[..|steps| - 1]), steps[|steps| - 1].event, steps[|steps| - 1].env)
  }

  /** The accepted telemetry of one run, in order. */
  function TelemetryOf(steps: seq<Step>, run: string): seq<Event>
  {
    if steps == [] then []
    else
      var last := steps[|steps| - 1];
      TelemetryOf(steps[..|steps| - 1], run)
      + (if Accepts(last.event, last.env) && last.event.run == run then [last.event] else [])
  }

  function BatchesOf(log: seq<Handed>, run: string): seq<Plan>
  {
    if log == [] then []
    else BatchesOf(log[..|log| - 1], run) + (if log[|log| - 1].run == run then [log[|log| - 1].plan] else [])
  }

  lemma BatchesOneMore(log: seq<Handed>, h: Handed, run: string)
    ensures BatchesOf(log + [h], run) == BatchesOf(log, run) + (if h.run == run then [h.plan] else [])
  {
    assert (log + [h])[..|log|] == log;
  }

  function EventsOf(plans: seq<Plan>): seq<Event>
  {
    if plans == [] then [] else EventsOf(plans[..|plans| - 1]) + plans[|plans| - 1].events
  }

  lemma EventsOneMore(plans: seq<Plan>, p: Plan)
    ensures EventsOf(plans + [p]) == EventsOf(plans) + p.events
  {
    assert (plans + [p])[..|plans|] == plans;
  }

  // ---------------------------------------------------------------- one event

  /** The buffer of the event's run after the event has been added to it. */
  function Grown(s: System, e: Event): seq<Event>
  {
    StateOf(s.states, e.run).events + [e]
  }

  /** The event stays in its run's buffer. */
  ghost predicate Held(s: System, t: System, e: Event)
  {
    t.settled == s.settled && StateOf(t.states, e.run).events == Grown(s, e)
    && StateOf(t.states, e.run).pending == StateOf(s.states, e.run).pending + 1
  }

  /** The whole buffer, the event included, leaves as one batch. */
  ghost predicate Left(s: System, t: System, e: Event, plan: Plan)
  {
    && t.settled == s.settled + [Handed(e.run, plan)] && plan.events == Grown(s, e)
    && StateOf(t.states, e.run).events == [] && StateOf(t.states, e.run).pending == 0
  }

  ghost predicate OthersAlone(s: System, t: System, run: string)
  {
    forall r :: r != run ==> StateOf(t.states, r) == StateOf(s.states, r)
  }

  lemma WriteLeaves(c: Config, s: System, run: string, plan: Plan, env: Environment)
    ensures var t := Write(c, s, run, plan, env);
      && t.settled == s.settled + [Handed(run, plan)]
      && t.handed == s.handed + [Handed(run, plan)]
      && run in t.states && t.states[run].events == [] && t.states[run].pending == 0
      && t.states[run].sequence == StateOf(s.states, run).sequence
      && OthersAlone(s, t, run)
  {
  }

  ghost predicate Unmoved(s: System, t: System)
  {
    t.settled == s.settled && t.states == s.states
  }

  ghost predicate Emptied(s: System, t: System, run: string, plan: Plan)
  {
    t.settled == s.settled + [Handed(run, plan)] && run in t.states && t.states[run].events == []
      && t.states[run].pending == 0
  }

  /** A batch that is cut either stays in the buffer, whole, or leaves it, whole. */
  lemma DeliverHoldsOrLeaves(c: Config, s: System, run: string, plan: Plan, env: Environment)
    ensures var t := Deliver(c, s, run, plan, env);
      && OthersAlone(s, t, run)
      && (Unmoved(s, t) || exists attempt :: Emptied(s, t, run, plan.(attempt := attempt)))
  {
    var t := Deliver(c, s, run, plan, env);
    if s.ledger.None? {
      WriteLeaves(c, s, run, plan, env);
      assert plan.(attempt := plan.attempt) == plan;
      assert Emptied(s, t, run, plan.(attempt := plan.attempt));
    } else {
      var r := RequestOf(c, run, plan);
      if Creatable(s.ledger.value, r) {
        var created := WithLedger(s, CreateAttempt(s.ledger.value, r));
        WriteLeaves(c, created, run, plan.(attempt := Some(r)), env);
        assert Unmoved(s, t) || Emptied(s, t, run, plan.(attempt := Some(r)));
      }
    }
  }

  lemma EventHeldOrLeft(c: Config, s: System, e: Event, env: Environment)
    requires Accepts(e, env)
    ensures var t := Process(c, s, e, env);
      OthersAlone(s, t, e.run) && (Held(s, t, e) || exists plan :: Left(s, t, e, plan))
  {
    var grown := Buffered(StateOf(s.states, e.run), e);
    if grown.pending >= c.batchSize {
      var cut := grown.(sequence := grown.sequence + 1);
      var s1 := s.(states := s.states[e.run := cut]);
      DeliverHoldsOrLeaves(c, s1, e.run, PlanOf(c, cut), env);
      var t := Process(c, s, e, env);
      if !Unmoved(s1, t) {
        var attempt :| Emptied(s1, t, e.run, PlanOf(c, cut).(attempt := attempt));
        assert Left(s, t, e, PlanOf(c, cut).(attempt := attempt));
      }
    }
  }

  // ---------------------------------------------------------------- conservation

  ghost predicate Conserved(s: System, steps: seq<Step>, run: string)
  {
    && EventsOf(BatchesOf(s.settled, run)) + StateOf(s.states, run).events == TelemetryOf(steps, run)
    && StateOf(s.states, run).pending == |StateOf(s.states, run).events|
  }

  lemma HeldConserves(s: System, t: System, steps: seq<Step>, step: Step, run: string)
    requires Conserved(s, steps, run) && Accepts(step.event, step.env)
    requires OthersAlone(s, t, step.event.run) && Held(s, t, step.event)
    ensures Conserved(t, steps + [step], run)
  {
    assert (steps + [step])[..|steps|] == steps;
    if step.event.run == run {
      var batches := EventsOf(BatchesOf(s.settled, run));
      assert batches + Grown(s, step.event) == (batches + StateOf(s.states, run).events) + [step.event];
    } else {
      assert TelemetryOf(steps + [step], run) == TelemetryOf(steps, run) + [];
    }
  }

  lemma LeftConserves(s: System, t: System, steps: seq<Step>, step: Step, plan: Plan, run: string)
    requires Conserved(s, steps, run) && Accepts(step.event, step.env)
    requires OthersAlone(s, t, step.event.run) && Left(s, t, step.event, plan)
    ensures Conserved(t, steps + [step], run)
  {
    assert (steps + [step])[..|steps|] == steps;
    BatchesOneMore(s.settled, Handed(step.event.run, plan), run);
    if step.event.run == run {
      EventsOneMore(BatchesOf(s.settled, run), plan);
      var batches := EventsOf(BatchesOf(s.settled, run));
      assert batches + Grown(s, step.event) == (batches + StateOf(s.states, run).events) + [step.event];
    } else {
      assert BatchesOf(t.settled, run) == BatchesOf(s.settled, run);
      assert TelemetryOf(steps + [step], run) == TelemetryOf(steps, run) + [];
    }
  }

  /**
   With or without a delivery store, and however preparing, writing, committing, reconciling and publishing go:
   the batches that have left a run's buffer, followed by the buffer, are the run's accepted telemetry in order.
   */
  lemma {:induction false} EventsConserved(c: Config, ledger: Option<Ledger>, steps: seq<Step>, run: string)
    ensures Conserved(RunAll(c, Start(ledger), steps), steps, run)
    decreases |steps|
  {
    if steps != [] {
      var before, last := steps[..|steps| - 1], steps[|steps| - 1];
      EventsConserved(c, ledger, before, run);
      assert steps == before + [last];
      var s, t := RunAll(c, Start(ledger), before), RunAll(c, Start(ledger), steps);
      if Accepts(last.event, last.env) {
        EventHeldOrLeft(c, s, last.event, last.env);
        if Held(s, t, last.event) {
          HeldConserves(s, t, before, last, run);
        } else {
          var plan :| Left(s, t, last.event, plan);
          LeftConserves(s, t, before, last, plan, run);
        }
      } else {
        assert TelemetryOf(steps, run) == TelemetryOf(before, run) + [];
      }
    }
  }

  // ---------------------------------------------------------------- an event is handed over once per delivery

  /** Whatever is handed to the writer leaves the buffer with it; a batch may also leave without being handed over. */
  ghost predicate HandedLeaves(s: System, t: System)
  {
    || (t.handed == s.handed && t.settled == s.settled)
    || (exists h :: t.handed == s.handed && t.settled == s.settled + [h])
    || (exists h :: t.handed == s.handed + [h] && t.settled == s.settled + [h])
  }

  lemma DeliverHandsLeaving(c: Config, s: System, run: string, plan: Plan, env: Environment)
    ensures HandedLeaves(s, Deliver(c, s, run, plan, env))
  {
    if s.ledger.None? {
      WriteLeaves(c, s, run, plan, env);
    } else {
      var r := RequestOf(c, run, plan);
      if Creatable(s.ledger.value, r) {
        WriteLeaves(c, WithLedger(s, CreateAttempt(s.ledger.value, r)), run, plan.(attempt := Some(r)), env);
      }
    }
  }

  /** How often an event is in the batches of a run. */
  ghost function Times(log: seq<Handed>, run: string, e: Event): nat
  {
    multiset(EventsOf(BatchesOf(log, run)))[e]
  }

  lemma TimesOneMore(log: seq<Handed>, h: Handed, run: string, e: Event)
    ensures Times(log + [h], run, e) == Times(log, run, e) + (if h.run == run then multiset(h.plan.events)[e] else 0)
  {
    BatchesOneMore(log, h, run);
    if h.run == run {
      EventsOneMore(BatchesOf(log, run), h.plan);
    } else {
      assert BatchesOf(log + [h], run) == BatchesOf(log, run);
    }
  }

  lemma LeavingStaysWithin(s: System, t: System, run: string, e: Event)
    requires HandedLeaves(s, t) && Times(s.handed, run, e) <= Times(s.settled, run, e)
    ensures Times(t.handed, run, e) <= Times(t.settled, run, e)
  {
    if t.settled != s.settled {
      var h := t.settled[|s.settled|];
      assert t.settled == s.settled + [h];
      TimesOneMore(s.settled, h, run, e);
      TimesOneMore(s.handed, h, run, e);
    }
  }

  lemma {:induction false} HandedStaysWithin(c: Config, ledger: Option<Ledger>, steps: seq<Step>, run: string, e: Event)
    ensures var s := RunAll(c, Start(ledger), steps); Times(s.handed, run, e) <= Times(s.settled, run, e)
    decreases |steps|
  {
    if steps != [] {
      var before, last := RunAll(c, Start(ledger), steps[..|steps| - 1]), steps[|steps| - 1];
      HandedStaysWithin(c, ledger, steps[..|steps| - 1], run, e);
      FilledIsDelivered(c, before, last.event, last.env);
      if Fills(c, before, last.event, last.env) {
        DeliverHandsLeaving(c, WithCut(before, last.event), last.event.run, PlanOf(c, Cut(before, last.event)),
            last.env);
      }
      LeavingStaysWithin(before, RunAll(c, Start(ledger), steps), run, e);
    }
  }

  /**
   With or without a delivery store, for every batch size and under every failure: counting repetitions, an event is
   handed to the writer at most as often as it was delivered and not held back in the buffer. Only a redelivery can
   make the writer see it again.
   */
  lemma HandedOncePerDelivery(c: Config, ledger: Option<Ledger>, steps: seq<Step>, run: string, e: Event)
    ensures var s := RunAll(c, Start(ledger), steps);
      multiset(EventsOf(BatchesOf(s.handed, run)))[e] + multiset(StateOf(s.states, run).events)[e]
      <= multiset(TelemetryOf(steps, run))[e]
  {
    var s := RunAll(c, Start(ledger), steps);
    EventsConserved(c, ledger, steps, run);
    HandedStaysWithin(c, ledger, steps, run, e);
    assert TelemetryOf(steps, run) == EventsOf(BatchesOf(s.settled, run)) + StateOf(s.states, run).events;
  }

  // ---------------------------------------------------------------- exact batches without a delivery store

  /** Batches are full, numbered 1, 2, 3, ..., and what is left over is less than a batch. */
  ghost predicate ExactBatches(c: Config, s: System, run: string)
  {
    var batches := BatchesOf(s.handed, run);
    && (forall i :: 0 <= i < |batches| ==>
          |batches[i].events| == c.batchSize && batches[i].count == c.batchSize && batches[i].sequence == i + 1)
    && StateOf(s.states, run).sequence == |batches|
    && StateOf(s.states, run).pending == |StateOf(s.states, run).events| < c.batchSize
  }

  /** A full batch was handed over and its run's buffer emptied. */
  ghost predicate HandedOver(s: System, t: System, run: string, plan: Plan)
  {
    && t.handed == s.handed + [Handed(run, plan)]
    && StateOf(t.states, run).events == [] && StateOf(t.states, run).pending == 0
    && StateOf(t.states, run).sequence == StateOf(s.states, run).sequence + 1
    && OthersAlone(s, t, run)
  }

  lemma HandingOverKeepsBatches(c: Config, s: System, t: System, filled: string, plan: Plan, run: string)
    requires c.batchSize >= 1 && ExactBatches(c, s, run) && HandedOver(s, t, filled, plan)
    requires filled == run ==>
      |plan.events| == c.batchSize && plan.count == c.batchSize && plan.sequence == StateOf(s.states, run).sequence + 1
    ensures ExactBatches(c, t, run)
  {
    BatchesOneMore(s.handed, Handed(filled, plan), run);
  }

  /** The state of the event's run once the event has filled a batch. */
  function Cut(s: System, e: Event): RunState
  {
    Buffered(StateOf(s.states, e.run), e).(sequence := StateOf(s.states, e.run).sequence + 1)
  }

  function WithCut(s: System, e: Event): System
  {
    s.(states := s.states[e.run := Cut(s, e)])
  }

  predicate Fills(c: Config, s: System, e: Event, env: Environment)
  {
    Accepts(e, env) && StateOf(s.states, e.run).pending + 1 >= c.batchSize
  }

  lemma FilledIsDelivered(c: Config, s: System, e: Event, env: Environment)
    ensures Fills(c, s, e, env) ==> Process(c, s, e, env) == Deliver(c, WithCut(s, e), e.run, PlanOf(c, Cut(s, e)), env)
    ensures !Fills(c, s, e, env) ==> Process(c, s, e, env) == s.(states := Process(c, s, e, env).states)
  {
  }

  lemma FillingHandsOver(c: Config, s: System, e: Event, env: Environment)
    requires s.ledger.None? && Fills(c, s, e, env)
    ensures var t := Process(c, s, e, env);
      t.ledger.None? && HandedOver(s, t, e.run, PlanOf(c, Cut(s, e)))
  {
    WriteLeaves(c, WithCut(s, e), e.run, PlanOf(c, Cut(s, e)), env);
  }

  lemma HoldingKeepsBatches(c: Config, s: System, e: Event, env: Environment, run: string)
    requires ExactBatches(c, s, run) && !Fills(c, s, e, env)
    ensures ExactBatches(c, Process(c, s, e, env), run) && Process(c, s, e, env).ledger == s.ledger
  {
  }

  lemma ProcessKeepsBatches(c: Config, s: System, e: Event, env: Environment, run: string)
    requires c.batchSize >= 1 && s.ledger.None? && ExactBatches(c, s, run)
    ensures var t := Process(c, s, e, env); t.ledger.None? && ExactBatches(c, t, run)
  {
    if Fills(c, s, e, env) {
      FillingHandsOver(c, s, e, env);
      HandingOverKeepsBatches(c, s, Process(c, s, e, env), e.run, PlanOf(c, Cut(s, e)), run);
    } else {
      HoldingKeepsBatches(c, s, e, env, run);
    }
  }

  lemma ProcessSettlesHanded(c: Config, s: System, e: Event, env: Environment)
    requires s.ledger.None? && s.settled == s.handed
    ensures var t := Process(c, s, e, env); t.ledger.None? && t.settled == t.handed
  {
    if Accepts(e, env) {
      var cut := Buffered(StateOf(s.states, e.run), e).(sequence := StateOf(s.states, e.run).sequence + 1);
      WriteLeaves(c, s.(states := s.states[e.run := cut]), e.run, PlanOf(c, cut), env);
    }
  }

  lemma {:induction false} BatchesStayExact(c: Config, steps: seq<Step>, run: string)
    requires c.batchSize >= 1
    ensures var s := RunAll(c, Start(None), steps); s.ledger.None? && ExactBatches(c, s, run) && s.settled == s.handed
    decreases |steps|
  {
    if steps != [] {
      var before := steps[..|steps| - 1];
      BatchesStayExact(c, before, run);
      ProcessKeepsBatches(c, RunAll(c, Start(None), before), steps[|steps| - 1].event, steps[|steps| - 1].env, run);
      ProcessSettlesHanded(c, RunAll(c, Start(None), before), steps[|steps| - 1].event, steps[|steps| - 1].env);
    }
  }

  /** Without a delivery store: the batches handed to the writer, then the buffer, are the run's telemetry in order;
      every batch holds batchSize events, the sequences are 1, 2, 3, ..., and fewer than batchSize events wait. */
  lemma BatchesConserveTelemetry(c: Config, steps: seq<Step>, run: string)
    requires c.batchSize >= 1
    ensures var s := RunAll(c, Start(None), steps);
      && EventsOf(BatchesOf(s.handed, run)) + StateOf(s.states, run).events == TelemetryOf(steps, run)
      && ExactBatches(c, s, run)
  {
    EventsConserved(c, None, steps, run);
    BatchesStayExact(c, steps, run);
  }

  // ---------------------------------------------------------------- the attempt ledger

  function Rank(s: AttemptState): nat
  {
    match s case Pending => 0 case Unknown => 1 case Resolved => 2
  }

  /** Evidence is there exactly if the attempt is resolved, and carries the attempt's own coordinates. */
  ghost predicate AttemptBooks(r: Request, a: Attempt)
  {
    && a.coordinates == r.coordinates
    && (a.evidence.Some? <==> a.state == Resolved)
    && (a.evidence.Some? ==> a.evidence.value.coordinates == r.coordinates)
  }

  ghost predicate LedgerBooks(l: Ledger)
  {
    forall r :: r in l.attempts ==> r.run in l.runs && ValidRequest(r) && AttemptBooks(r, l.attempts[r])
  }

  /** No attempt is forgotten or goes back, and a resolved one does not change at all. */
  ghost predicate LedgerForward(l: Ledger, m: Ledger)
  {
    && m.runs == l.runs
    && forall r :: r in l.attempts ==> r in m.attempts && AttemptForward(l.attempts[r], m.attempts[r])
  }

  predicate AttemptForward(a: Attempt, b: Attempt)
  {
    Rank(a.state) <= Rank(b.state) && (a.state == Resolved ==> b == a)
  }

  /** Every write was made for an attempt of the ledger that is no longer pending, and no two for the same one. */
  ghost predicate WriteBooks(s: System)
  {
    && s.ledger.Some? && LedgerBooks(s.ledger.value)
    && (forall i :: 0 <= i < |s.written| ==> WrittenFor(s.ledger.value, s.written[i]))
    && (forall i, j :: 0 <= i < j < |s.written| ==> s.written[i].plan.attempt != s.written[j].plan.attempt)
  }

  predicate WrittenFor(l: Ledger, h: Handed)
  {
    h.plan.attempt.Some? && h.plan.attempt.value in l.attempts && l.attempts[h.plan.attempt.value].state != Pending
  }

  /** `m` is `l` with the pending attempt `r` moved to `state`. */
  ghost predicate Moved(l: Ledger, m: Ledger, r: Request, state: AttemptState)
  {
    && LedgerBooks(m) && LedgerForward(l, m) && m.attempts.Keys == l.attempts.Keys
    && r in m.attempts && m.attempts[r].state == state
  }

  lemma ResolvingMoves(l: Ledger, r: Request, location: string, e: Evidence)
    requires LedgerBooks(l) && r in l.attempts && l.attempts[r].state == Pending
    ensures Moved(l, ResolveAttempt(Located(l, r, location), r, e), r, Resolved)
  {
  }

  lemma MarkingMoves(l: Ledger, r: Request, location: string, reason: string)
    requires LedgerBooks(l) && r in l.attempts && l.attempts[r].state == Pending
    ensures Moved(l, MarkUnknown(Located(l, r, location), r, reason), r, Unknown)
  {
  }

  lemma WriteEffect(c: Config, s: System, run: string, plan: Plan, env: Environment)
    requires s.ledger.Some? && plan.attempt.Some?
    ensures var t := Write(c, s, run, plan, env);
      if env.prepared.None? then t.written == s.written && t.ledger == s.ledger
      else
        var l := Located(s.ledger.value, plan.attempt.value, env.prepared.value.artifact.location);
        && t.written == s.written + [Handed(run, env.prepared.value.(attempt := plan.attempt))]
        && t.ledger == Some(if env.writes && env.commits
                            then ResolveAttempt(l, plan.attempt.value, Evidence(c.assurance, [], env.now))
                            else MarkUnknown(l, plan.attempt.value, env.reason))
  {
  }

  /** A pending attempt goes through one write: it ends unknown or resolved unless preparing failed. */
  lemma WriteMovesOn(c: Config, s: System, run: string, plan: Plan, env: Environment)
    requires s.ledger.Some? && LedgerBooks(s.ledger.value) && plan.attempt.Some?
            && plan.attempt.value in s.ledger.value.attempts
    requires s.ledger.value.attempts[plan.attempt.value].state == Pending
    ensures var t := Write(c, s, run, plan, env);
      && t.ledger.Some?
      && (env.prepared.None? ==> t.written == s.written && t.ledger == s.ledger)
      && (env.prepared.Some? ==>
            && t.written == s.written + [Handed(run, env.prepared.value.(attempt := plan.attempt))]
            && Moved(s.ledger.value, t.ledger.value, plan.attempt.value,
                     if env.writes && env.commits then Resolved else Unknown))
  {
    WriteEffect(c, s, run, plan, env);
    if env.prepared.Some? {
      var location := env.prepared.value.artifact.location;
      ResolvingMoves(s.ledger.value, plan.attempt.value, location, Evidence(c.assurance, [], env.now));
      MarkingMoves(s.ledger.value, plan.attempt.value, location, env.reason);
    }
  }

  /** A write keeps the books, seen from the systems before and after it. */
  lemma MovingKeepsBooks(s: System, t: System, h: Handed, state: AttemptState)
    requires WriteBooks(s) && t.ledger.Some? && h.plan.attempt.Some? && state != Pending
    requires h.plan.attempt.value in s.ledger.value.attempts
            && s.ledger.value.attempts[h.plan.attempt.value].state == Pending
    requires t.written == s.written + [h] && Moved(s.ledger.value, t.ledger.value, h.plan.attempt.value, state)
    ensures WriteBooks(t)
  {
    forall i | 0 <= i < |s.written|
      ensures s.written[i].plan.attempt != h.plan.attempt && WrittenFor(t.ledger.value, s.written[i]) {
      assert WrittenFor(s.ledger.value, s.written[i]);
    }
  }

  lemma WriteKeepsBooks(c: Config, s: System, run: string, plan: Plan, env: Environment)
    requires WriteBooks(s) && plan.attempt.Some? && plan.attempt.value in s.ledger.value.attempts
    requires s.ledger.value.attempts[plan.attempt.value].state == Pending
    ensures var t := Write(c, s, run, plan, env); WriteBooks(t) && LedgerForward(s.ledger.value, t.ledger.value)
  {
    WriteMovesOn(c, s, run, plan, env);
    var t := Write(c, s, run, plan, env);
    if env.prepared.None? {
      StatesDoNotMatter(s, t);
    } else {
      MovingKeepsBooks(s, t, Handed(run, env.prepared.value.(attempt := plan.attempt)),
                       if env.writes && env.commits then Resolved else Unknown);
    }
  }

  lemma CreateKeepsBooks(s: System, r: Request)
    requires WriteBooks(s) && Creatable(s.ledger.value, r)
    ensures var t := WithLedger(s, CreateAttempt(s.ledger.value, r));
      WriteBooks(t) && LedgerForward(s.ledger.value, t.ledger.value)
  {
    forall i | 0 <= i < |s.written| ensures WrittenFor(CreateAttempt(s.ledger.value, r), s.written[i]) {
      assert WrittenFor(s.ledger.value, s.written[i]);
    }
  }

  lemma ReconcileKeepsBooks(s: System, r: Request, e: Evidence)
    requires WriteBooks(s) && r in s.ledger.value.attempts && s.ledger.value.attempts[r].state == Unknown
    ensures var t := WithLedger(s, ResolveAttempt(s.ledger.value, r, e));
      WriteBooks(t) && LedgerForward(s.ledger.value, t.ledger.value)
  {
    forall i | 0 <= i < |s.written| ensures WrittenFor(ResolveAttempt(s.ledger.value, r, e), s.written[i]) {
      assert WrittenFor(s.ledger.value, s.written[i]);
    }
  }

  lemma DeliverKeepsBooks(c: Config, s: System, run: string, plan: Plan, env: Environment)
    requires WriteBooks(s)
    ensures var t := Deliver(c, s, run, plan, env); WriteBooks(t) && LedgerForward(s.ledger.value, t.ledger.value)
  {
    var r := RequestOf(c, run, plan);
    if Creatable(s.ledger.value, r) {
      CreateKeepsBooks(s, r);
      var created := WithLedger(s, CreateAttempt(s.ledger.value, r));
      match created.ledger.value.attempts[r].state {
        case Unknown =>
          if env.reconciliation.Reconciled? {
            ReconcileKeepsBooks(created, r, env.reconciliation.evidence);
          }
        case Resolved =>
        case Pending => WriteKeepsBooks(c, created, run, plan.(attempt := Some(r)), env);
      }
    }
  }

  lemma StatesDoNotMatter(s: System, t: System)
    requires WriteBooks(s) && t.ledger == s.ledger && t.written == s.written
    ensures WriteBooks(t) && LedgerForward(s.ledger.value, t.ledger.value)
  {
  }

  lemma ProcessKeepsBooks(c: Config, s: System, e: Event, env: Environment)
    requires WriteBooks(s)
    ensures var t := Process(c, s, e, env); WriteBooks(t) && LedgerForward(s.ledger.value, t.ledger.value)
  {
    FilledIsDelivered(c, s, e, env);
    if Fills(c, s, e, env) {
      StatesDoNotMatter(s, WithCut(s, e));
      DeliverKeepsBooks(c, WithCut(s, e), e.run, PlanOf(c, Cut(s, e)), env);
    } else {
      StatesDoNotMatter(s, Process(c, s, e, env));
    }
  }

  lemma {:induction false} RunKeepsBooks(c: Config, s: System, steps: seq<Step>)
    requires WriteBooks(s)
    ensures var t := RunAll(c, s, steps); WriteBooks(t) && LedgerForward(s.ledger.value, t.ledger.value)
    decreases |steps|
  {
    if steps != [] {
      RunKeepsBooks(c, s, steps[..|steps| - 1]);
      ProcessKeepsBooks(c, RunAll(c, s, steps[..|steps| - 1]), steps[|steps| - 1].event, steps[|steps| - 1].env);
    }
  }

  /**
   Over any serial run, attempts only go from pending to unknown to resolved or straight to resolved; a resolved
   one never changes; evidence is there exactly if resolved, with the attempt's own coordinates.
   */
  lemma AttemptsOnlyMoveForward(c: Config, runs: set<string>, steps: seq<Step>, more: seq<Step>)
    ensures var s := RunAll(c, Start(Some(Ledger(runs, map[]))), steps);
      var t := RunAll(c, s, more);
      && s.ledger.Some? && t.ledger.Some?
      && LedgerBooks(s.ledger.value) && LedgerForward(s.ledger.value, t.ledger.value)
  {
    var start := Start(Some(Ledger(runs, map[])));
    RunKeepsBooks(c, start, steps);
    RunKeepsBooks(c, RunAll(c, start, steps), more);
  }

  /** A write happens for at most one batch per attempt, and leaves its attempt unknown or resolved. */
  lemma AttemptsAreWrittenOnce(c: Config, runs: set<string>, steps: seq<Step>)
    ensures WriteBooks(RunAll(c, Start(Some(Ledger(runs, map[]))), steps))
  {
    RunKeepsBooks(c, Start(Some(Ledger(runs, map[]))), steps);
  }

  /** A cut batch is written exactly if its attempt may be created and is then held as pending, and Prepare succeeds. */
  lemma PendingIsWritten(c: Config, s: System, run: string, plan: Plan, env: Environment)
    requires WriteBooks(s)
    ensures var r := RequestOf(c, run, plan);
      Deliver(c, s, run, plan, env).written != s.written <==>
        && env.prepared.Some? && Creatable(s.ledger.value, r)
        && (r in s.ledger.value.attempts ==> s.ledger.value.attempts[r].state == Pending)
  {
    var r := RequestOf(c, run, plan);
    if Creatable(s.ledger.value, r) {
      CreateKeepsBooks(s, r);
      var created := WithLedger(s, CreateAttempt(s.ledger.value, r));
      if created.ledger.value.attempts[r].state == Pending {
        WriteMovesOn(c, created, run, plan.(attempt := Some(r)), env);
        if env.prepared.Some? {
          assert |Deliver(c, s, run, plan, env).written| == |s.written| + 1;
        }
      }
    }
  }

  /** One event causes a write exactly if it fills a batch whose attempt the ledger holds as pending and Prepare
      succeeds; an attempt recorded unknown or resolved is never written again. */
  lemma OnlyPendingIsWritten(c: Config, s: System, e: Event, env: Environment)
    requires WriteBooks(s)
    ensures var r := RequestOf(c, e.run, PlanOf(c, Cut(s, e)));
      Process(c, s, e, env).written != s.written <==>
        && Fills(c, s, e, env) && env.prepared.Some? && Creatable(s.ledger.value, r)
        && (r in s.ledger.value.attempts ==> s.ledger.value.attempts[r].state == Pending)
  {
    FilledIsDelivered(c, s, e, env);
    if Fills(c, s, e, env) {
      StatesDoNotMatter(s, WithCut(s, e));
      PendingIsWritten(c, WithCut(s, e), e.run, PlanOf(c, Cut(s, e)), env);
    }
  }

  // ---------------------------------------------------------------- what the answer says

  predicate IsResolved(s: System, r: Request)
  {
    s.ledger.Some? && r in s.ledger.value.attempts && s.ledger.value.attempts[r].state == Resolved
  }

  lemma DeliverAnswersResolved(c: Config, s: System, run: string, plan: Plan, env: Environment)
    requires WriteBooks(s)
    ensures var r, t := RequestOf(c, run, plan), Deliver(c, s, run, plan, env);
      && (DeliverAnswer(c, s, run, plan, env) == Ok(1) ==> IsResolved(t, r))
      && (IsResolved(t, r) && env.publishes ==> DeliverAnswer(c, s, run, plan, env) == Ok(1))
  {
    var r := RequestOf(c, run, plan);
    if Creatable(s.ledger.value, r) {
      CreateKeepsBooks(s, r);
      var created := WithLedger(s, CreateAttempt(s.ledger.value, r));
      if created.ledger.value.attempts[r].state == Pending {
        WriteMovesOn(c, created, run, plan.(attempt := Some(r)), env);
      }
    }
  }

  /** An event that fills a batch is answered with one batch exactly if the batch's attempt is then resolved; only a
      commit intent that could not be published hides that from the caller. */
  lemma AnswersAreResolved(c: Config, s: System, e: Event, env: Environment)
    requires WriteBooks(s) && Fills(c, s, e, env)
    ensures var r, t := RequestOf(c, e.run, PlanOf(c, Cut(s, e))), Process(c, s, e, env);
      && (Answer(c, s, e, env) == Ok(1) ==> IsResolved(t, r))
      && (IsResolved(t, r) && env.publishes ==> Answer(c, s, e, env) == Ok(1))
  {
    FilledIsDelivered(c, s, e, env);
    StatesDoNotMatter(s, WithCut(s, e));
    DeliverAnswersResolved(c, WithCut(s, e), e.run, PlanOf(c, Cut(s, e)), env);
  }

  // ---------------------------------------------------------------- what once per attempt does not give

  /**
   At most one write per attempt is not at most one per event. With batches of one: the write of `e` fails, `e` is
   delivered again and its attempt stays unknown, so `e` stays buffered; the next event `f` makes a batch [e, f],
   which is a new attempt, and `e` is handed to the writer a second time.
   */
  lemma UnknownEventsAreWrittenAgain(c: Config, e: Event, f: Event, fails: Environment, works: Environment)
    requires c.batchSize == 1 && !Blank(c.topic) && e.run == f.run && !Blank(e.run)
    requires e.eventType == TELEMETRY && f.eventType == TELEMETRY
    requires e.partition >= 0 && e.offset >= 0 && f.partition >= 0 && f.offset >= 0 && Blank(e.topic) && Blank(f.topic)
    requires !fails.cancelled && fails.prepared.Some? && !fails.writes && fails.reconciliation == NoReconciler
    requires !works.cancelled && works.prepared.Some? && works.writes && works.commits
    ensures var s := RunAll(c, Start(Some(Ledger({e.run}, map[]))), [Step(e, fails), Step(e, fails), Step(f, works)]);
      && |s.written| == 2
      && |s.handed| == 2 && s.handed[0].plan.events == [e] && s.handed[1].plan.events == [e, f]
  {
    var s0 := Start(Some(Ledger({e.run}, map[])));
    var s1 := Process(c, s0, e, fails);
    FirstWriteFails(c, s0, e, fails);
    RedeliveryIsHeld(c, s1, e, fails);
    var s2 := Process(c, s1, e, fails);
    NextEventRewrites(c, s2, e, f, works);
    ThreeSteps(c, s0, Step(e, fails), Step(e, fails), Step(f, works));
  }

  lemma ThreeSteps(c: Config, s: System, x: Step, y: Step, z: Step)
    ensures RunAll(c, s, [x, y, z])
            == Process(c, Process(c, Process(c, s, x.event, x.env), y.event, y.env), z.event, z.env)
  {
    assert [x, y, z][..2] == [x, y] && [x, y][..1] == [x] && [x][..0] == [];
    assert RunAll(c, s, [x]) == Process(c, RunAll(c, s, []), x.event, x.env);
    assert RunAll(c, s, [x, y]) == Process(c, RunAll(c, s, [x]), y.event, y.env);
  }

  function OneRequest(c: Config, e: Event): Request
  {
    Request(e.run, "simops.telemetry_frames", [Coordinate(c.topic, e.partition, e.offset)])
  }

  /** The buffer of `run` holds `events`, and the ledger knows one attempt, for `e` alone, which is unknown. */
  ghost predicate Stuck(c: Config, s: System, e: Event, events: seq<Event>)
  {
    && e.run in s.states && s.states[e.run].events == events && s.states[e.run].pending == |events|
    && s.states[e.run].artifact.table == "simops.telemetry_frames"
    && s.ledger.Some? && s.ledger.value.runs == {e.run}
    && s.ledger.value.attempts.Keys == {OneRequest(c, e)} && s.ledger.value.attempts[OneRequest(c, e)].state == Unknown
    && |s.written| == 1 && |s.handed| == 1 && s.handed[0].plan.events == [e]
  }

  lemma OneCoordinate(c: Config, e: Event)
    requires !Blank(c.topic) && Blank(e.topic)
    ensures Coordinates(c.topic, [] + [e]) == [Coordinate(c.topic, e.partition, e.offset)]
  {
  }

  lemma FirstWriteFails(c: Config, s: System, e: Event, env: Environment)
    requires s == Start(Some(Ledger({e.run}, map[]))) && c.batchSize == 1 && !Blank(c.topic) && Blank(e.topic)
    requires Accepts(e, env) && e.partition >= 0 && e.offset >= 0 && env.prepared.Some? && !env.writes
    ensures Stuck(c, Process(c, s, e, env), e, [])
  {
    OneCoordinate(c, e);
    BlankTable();
  }

  lemma BlankTable()
    ensures !Blank("simops.telemetry_frames")
  {
    assert "simops.telemetry_frames"[0] == 's';
  }

  lemma RedeliveryIsHeld(c: Config, s: System, e: Event, env: Environment)
    requires Stuck(c, s, e, []) && c.batchSize == 1 && !Blank(c.topic) && Blank(e.topic)
    requires Accepts(e, env) && e.partition >= 0 && e.offset >= 0 && env.reconciliation == NoReconciler
    ensures Stuck(c, Process(c, s, e, env), e, [e])
  {
    OneCoordinate(c, e);
    BlankTable();
  }

  lemma NextEventRewrites(c: Config, s: System, e: Event, f: Event, env: Environment)
    requires Stuck(c, s, e, [e]) && c.batchSize == 1 && !Blank(c.topic) && Blank(e.topic) && Blank(f.topic)
            && f.run == e.run
    requires Accepts(f, env) && e.partition >= 0 && e.offset >= 0 && f.partition >= 0 && f.offset >= 0
    requires env.prepared.Some? && env.writes && env.commits
    ensures var t := Process(c, s, f, env);
      |t.written| == 2 && |t.handed| == 2 && t.handed[0].plan.events == [e] && t.handed[1].plan.events == [e, f]
  {
    BlankTable();
    var events := [e] + [f];
    assert |Coordinates(c.topic, events)| == 2;
    assert events == [e, f];
  }
}
