/**
 The workbench snapshot session: overlapping asynchronous refreshes of one read state, of which only the newest
 may settle. A refresh is two steps, its start and its completion; completions may come in any order.
 */
module SnapshotSession {
  import opened Prelude

  datatype Phase = Loading | Live | Fixture | Stale | Recovering | Error

  datatype ErrorKind = Unavailable | Empty | Auth | Schema | Generation | Partial

  datatype Source = LiveSource | FixtureSource

  datatype Basis = Basis(id: string, unit: string)

  /** A snapshot's input; `content` stands for everything but the commercial bases. */
  datatype Input = Input(content: string, bases: seq<Basis>)

  datatype Model = Model(generation: nat, source: Source, input: Input, acceptedAt: int)

  datatype ReadState = ReadState(phase: Phase, model: Option<Model>, message: string, errorKind: Option<ErrorKind>)

  datatype Selection = Selection(unit: Option<string>, value: Option<string>, basis: Option<string>)

  datatype Projection = Projection(unit: string, value: Option<string>)

  /** What one load gives: an accepted snapshot or a read error. */
  datatype Load = Accepted(generation: nat, input: Input) | Failed(kind: ErrorKind, message: string)

  /** The projection builder is a pure function of input and selection. */
  datatype Options = Options(
    allowFixture: bool, fixture: Input, initialSelection: Selection, build: (Input, Selection) -> Projection)

  /** A refresh under way: the settled state it captured, and whether it may fall back to the fixture. */
  datatype Flight = Flight(accepted: ReadState, allowFixture: bool)

  datatype Session = Session(
    state: ReadState, settled: ReadState, active: Option<nat>, scheduled: bool, running: bool, hasSettled: bool,
    selection: Selection, projection: Option<Projection>, flights: map<nat, Flight>, started: nat)

  // ---------------------------------------------------------------- one read

  function IsLive(s: ReadState): bool
  {
    s.model.Some? && s.model.value.source == LiveSource
  }

  function IsFixture(s: ReadState): bool
  {
    s.model.Some? && s.model.value.source == FixtureSource
  }

  function Text(n: nat): string
  {
    if n < 10 then [('0' as int + n) as char] else Text(n / 10) + [('0' as int + n % 10) as char]
  }

  /** The load as the read sees it: a live generation may not go back. */
  function Checked(current: ReadState, load: Load): Load
  {
    if load.Accepted? && IsLive(current) && load.generation < current.model.value.generation
    then
      Load.Failed(Generation, "Workbench generation regressed from " + Text(current.model.value.generation)
                              + " to " + Text(load.generation) + ".")
    else load
  }

  /** refreshWorkbenchReadState, once the load has completed. */
  function NextRead(current: ReadState, load: Load, allowFixture: bool, fixture: Input, now: int): ReadState
  {
    match Checked(current, load)
    case Accepted(generation, input) =>
      ReadState(Live, Some(Model(generation, LiveSource, input, now)),
                "Live Workbench generation " + Text(generation) + " accepted atomically.", None)
    case Failed(kind, message) =>
      var gone := kind == Unavailable || kind == Empty;
      if IsLive(current) then
        ReadState(Stale, current.model,
                  message + " Retaining live generation " + Text(current.model.value.generation) + " as stale.",
                  Some(kind))
      else if IsFixture(current) && gone then
        ReadState(Fixture, current.model, message + " Retaining the explicit whole-Snapshot fixture fallback.",
                  Some(kind))
      else if IsFixture(current) then
        ReadState(Error, current.model,
                  message + " The existing fixture remains visible but did not satisfy this live read.", Some(kind))
      else if allowFixture && gone then
        ReadState(Fixture, Some(Model(0, FixtureSource, fixture, now)),
                  message + " Using the explicit local-demo fixture Snapshot.", Some(kind))
      else ReadState(Error, None, message, Some(kind))
  }

  // ---------------------------------------------------------------- selection

  predicate Given(o: Option<string>)
  {
    o.Some? && o.value != ""
  }

  /** reconcileSelection */
  function Reconcile(input: Input, requested: Selection, projection: Projection): Selection
  {
    var valid := Given(requested.basis)
                 && exists b :: b in input.bases && b.id == requested.basis.value && b.unit == projection.unit;
    Selection(Some(projection.unit), if Given(projection.value) then projection.value else None,
              if valid then requested.basis else None)
  }

  /** Projects `model` under a selection and reconciles the selection with it. */
  function Projected(o: Options, s: Session, model: Option<Model>, selection: Selection): Session
  {
    if model.None? then s.(selection := selection)
    else
      var projection := o.build(model.value.input, selection);
      s.(projection := Some(projection), selection := Reconcile(model.value.input, selection, projection))
  }

  // ---------------------------------------------------------------- the steps of a session

  const INITIAL_READ := ReadState(Loading, None, "Loading one coherent live Workbench Snapshot.", None)

  function NewSession(o: Options): Session
  {
    Session(INITIAL_READ, INITIAL_READ, None, false, false, false, o.initialSelection, None, map[], 0)
  }

  function PendingRead(accepted: ReadState): ReadState
  {
    accepted.(phase := if accepted.model.Some? then Recovering else Loading,
              message := if accepted.model.Some? then "Refreshing one coherent live Workbench Snapshot."
                         else accepted.message)
  }

  /** The synchronous part of refresh. */
  function Refreshed(o: Options, s: Session): Session
  {
    if !s.running then s
    else
      s.(scheduled := false, active := Some(s.started), started := s.started + 1, state := PendingRead(s.settled),
         flights := s.flights[s.started := Flight(s.settled, o.allowFixture && !s.hasSettled)])
  }

  function Started(o: Options, s: Session): Session
  {
    if s.running then s else Refreshed(o, s.(running := true))
  }

  /** settle */
  function Settled(o: Options, s: Session, next: ReadState): Session
  {
    Projected(o, s, next.model, s.selection).(settled := next, state := next)
  }

  function Disposed(s: Session): Session
  {
    s.(running := false, scheduled := false, active := None, state := s.settled)
  }

  function Selected(o: Options, s: Session, selection: Selection): Session
  {
    Projected(o, s, s.state.model, selection)
  }

  function UnitSelection(unit: string, basis: Option<string>): Selection
  {
    Selection(Some(unit), None, if Given(basis) then basis else None)
  }

  /** A call to the session, by its owner or by a listener. */
  datatype Call =
    | Start
    | Refresh
    | Dispose
    | SelectUnit(unit: string, unitBasis: Option<string>)
    | SelectValue(value: string)
    | SelectBasis(basis: Option<string>)

  function Called(o: Options, s: Session, call: Call): Session
  {
    match call
    case Start => Started(o, s)
    case Refresh => Refreshed(o, s)
    case Dispose => Disposed(s)
    case SelectUnit(unit, basis) => Selected(o, s, UnitSelection(unit, basis))
    case SelectValue(value) => Selected(o, s, s.selection.(value := Some(value)))
    case SelectBasis(basis) => Selected(o, s, s.selection.(basis := if Given(basis) then basis else None))
  }

  function Reacted(o: Options, s: Session, reaction: seq<Call>): Session
  {
    if reaction == [] then s else Called(o, Reacted(o, s, reaction[..|reaction| - 1]), reaction[|reaction| - 1])
  }

  /** Whether the completion of refresh number `id` settles its read. */
  predicate Settles(s: Session, id: nat)
  {
    id in s.flights && s.running && s.active == Some(id)
  }

  /** The session once refresh number `id` has published its read. */
  function Landed(o: Options, s: Session, id: nat, load: Load, now: int): Session
    requires id in s.flights
  {
    Settled(o, s.(flights := s.flights - {id}, active := None, hasSettled := true),
            NextRead(s.flights[id].accepted, load, s.flights[id].allowFixture, o.fixture, now))
  }

  /** The completion of refresh number `id`. Its listeners react before the next refresh is scheduled, and whatever
      they do, it is scheduled. At every other publication a reaction is no different from a later call. */
  function Completed(o: Options, s: Session, id: nat, load: Load, now: int, reaction: seq<Call>): Session
  {
    if !Settles(s, id) then s.(flights := s.flights - {id})
    else Reacted(o, Landed(o, s, id, load, now), reaction).(scheduled := true)
  }

  function Fired(o: Options, s: Session): Session
  {
    if s.scheduled then Refreshed(o, s.(scheduled := false)) else s
  }

  datatype Step =
    | Act(call: Call)
    | Complete(id: nat, load: Load, now: int, reaction: seq<Call>)
    | TimerFires

  function StepSession(o: Options, s: Session, step: Step): Session
  {
    match step
    case Act(call) => Called(o, s, call)
    case Complete(id, load, now, reaction) => Completed(o, s, id, load, now, reaction)
    case TimerFires => Fired(o, s)
  }

  function RunSession(o: Options, s: Session, steps: seq<Step>): Session
  {
    if steps == [] then s else StepSession(o, RunSession(o, s, steps[..|steps| - 1]), steps[|steps| - 1])
  }

  // ---------------------------------------------------------------- the session object

  /** createWorkbenchSnapshotSession: the closures over one set of variables. Controllers are numbered. */
  class WorkbenchSnapshotSession {
    const options: Options
    var state: ReadState
    var settledState: ReadState
    var active: Option<nat>
    var timer: bool
    var running: bool
    var hasSettledRead: bool
    var selection: Selection
    var projection: Option<Projection>
    var flights: map<nat, Flight>
    var started: nat

    function Snapshot(): Session
      reads this
    {
      Session(state, settledState, active, timer, running, hasSettledRead, selection, projection, flights, started)
    }

    constructor (options: Options)
      ensures this.options == options && Snapshot() == NewSession(options)
    {
      this.options := options;
      state, settledState, active, timer, running := INITIAL_READ, INITIAL_READ, None, false, false;
      hasSettledRead, selection, projection, flights, started := false, options.initialSelection, None, map[], 0;
    }

    method BeginRefresh()
      modifies this
      ensures Snapshot() == Refreshed(options, old(Snapshot()))
    {
      if !running {
        return;
      }
      timer := false;
      var controller := started;
      started := started + 1;
      flights := flights[controller := Flight(settledState, options.allowFixture && !hasSettledRead)];
      active := Some(controller);
      state := PendingRead(settledState);
    }

    method Begin()
      modifies this
      ensures Snapshot() == Started(options, old(Snapshot()))
    {
      if running {
        return;
      }
      running := true;
      BeginRefresh();
    }

    method Settle(next: ReadState)
      modifies this
      ensures Snapshot() == Settled(options, old(Snapshot()), next)
    {
      if next.model.Some? {
        var built := options.build(next.model.value.input, selection);
        projection := Some(built);
        selection := Reconcile(next.model.value.input, selection, built);
      }
      settledState := next;
      state := next;
    }

    method CompleteRefresh(id: nat, load: Load, now: int, reaction: seq<Call>)
      modifies this
      ensures Snapshot() == Completed(options, old(Snapshot()), id, load, now, reaction)
    {
      if id !in flights || !running || active != Some(id) {
        flights := flights - {id};
        return;
      }
      Land(id, load, now);
      React(reaction);
      timer := true;
    }

    /** The part of refresh between its load and the next timer, without the listeners. */
    method Land(id: nat, load: Load, now: int)
      requires id in flights
      modifies this
      ensures Snapshot() == Landed(options, old(Snapshot()), id, load, now)
    {
      var flight := flights[id];
      flights := flights - {id};
      active := None;
      hasSettledRead := true;
      Settle(NextRead(flight.accepted, load, flight.allowFixture, options.fixture, now));
    }

    /** What the listeners call while a read is published. */
    method React(reaction: seq<Call>)
      modifies this
      ensures Snapshot() == Reacted(options, old(Snapshot()), reaction)
    {
      for i := 0 to |reaction|
        invariant Snapshot() == Reacted(options, old(Snapshot()), reaction[..i])
      {
        assert reaction[..i + 1][..i] == reaction[..i];
        Answer(reaction[i]);
      }
      assert reaction[..|reaction|] == reaction;
    }

    method Answer(call: Call)
      modifies this
      ensures Snapshot() == Called(options, old(Snapshot()), call)
    {
      match call {
        case Start => Begin();
        case Refresh => BeginRefresh();
        case Dispose => End();
        case SelectUnit(unit, basis) => ApplySelection(UnitSelection(unit, basis));
        case SelectValue(value) => ApplySelection(selection.(value := Some(value)));
        case SelectBasis(basis) => ApplySelection(selection.(basis := if Given(basis) then basis else None));
      }
    }

    method FireTimer()
      modifies this
      ensures Snapshot() == Fired(options, old(Snapshot()))
    {
      if timer {
        timer := false;
        BeginRefresh();
      }
    }

    method End()
      modifies this
      ensures Snapshot() == Disposed(old(Snapshot()))
    {
      running, timer, active, state := false, false, None, settledState;
    }

    method ApplySelection(next: Selection)
      modifies this
      ensures Snapshot() == Selected(options, old(Snapshot()), next)
    {
      selection := next;
      if state.model.Some? {
        var built := options.build(state.model.value.input, selection);
        projection := Some(built);
        selection := Reconcile(state.model.value.input, selection, built);
      }
    }
  }

  // ---------------------------------------------------------------- what every interleaving keeps

  /** The newest refresh is the active one, and what it captured is still settled. */
  ghost predicate NewestIsActive(o: Options, s: Session)
  {
    && (forall id :: id in s.flights ==> id < s.started)
    && (s.active.Some? ==>
          && s.active.value + 1 == s.started && s.active.value in s.flights
          && s.flights[s.active.value] == Flight(s.settled, o.allowFixture && !s.hasSettled))
  }

  /** A running session reads or has its next read scheduled, and a stopped one does not read. */
  ghost predicate AlwaysDriven(s: Session)
  {
    (s.running ==> s.active.Some? || s.scheduled) && (s.active.Some? ==> s.running)
  }

  /** What is shown is what was settled, and the phase shown says whether a read is under way. */
  ghost predicate ShowsSettled(s: Session)
  {
    && s.state == (if s.active.Some? then PendingRead(s.settled) else s.settled)
    && (s.hasSettled ==> s.settled.phase != Loading && s.settled.phase != Recovering)
    && (!s.hasSettled ==> s.settled == INITIAL_READ)
  }

  predicate ReconciledWith(input: Input, selection: Selection, projection: Projection)
  {
    && selection.unit == Some(projection.unit)
    && selection.value == (if Given(projection.value) then projection.value else None)
    && (selection.basis.Some? ==>
        exists b :: b in input.bases && b.id == selection.basis.value && b.unit == projection.unit)
  }

  /** With a model there is a projection, and the selection agrees with it. */
  ghost predicate SelectionAgrees(s: Session)
  {
    s.state.model.Some? ==>
      s.projection.Some? && ReconciledWith(s.state.model.value.input, s.selection, s.projection.value)
  }

  /** What holds even while listeners react. */
  ghost predicate Coherent(o: Options, s: Session)
  {
    NewestIsActive(o, s) && (s.active.Some? ==> s.running) && ShowsSettled(s) && SelectionAgrees(s)
  }

  ghost predicate Inv(o: Options, s: Session)
  {
    Coherent(o, s) && AlwaysDriven(s)
  }

  /** How the settled model may change in one step. */
  ghost predicate ModelForward(o: Options, s: Session, t: Session)
  {
    && (s.hasSettled ==> t.hasSettled)
    && (IsLive(s.settled) ==> IsLive(t.settled) && t.settled.model.value.generation >= s.settled.model.value.generation)
    && (s.settled.model.Some? ==> t.settled.model.Some?)
    && (IsFixture(t.settled) && t.settled.model != s.settled.model ==> !s.hasSettled && t.hasSettled && o.allowFixture)
  }

  lemma ReadMovesForward(current: ReadState, load: Load, allowFixture: bool, fixture: Input, now: int)
    ensures var next := NextRead(current, load, allowFixture, fixture, now);
      && next.phase != Loading && next.phase != Recovering
      && (IsLive(current) ==> IsLive(next) && next.model.value.generation >= current.model.value.generation)
      && (current.model.Some? ==> next.model.Some?)
      && (IsFixture(next) && next.model != current.model ==> allowFixture && current.model.None?)
      && (IsLive(next) <==> IsLive(current) || load.Accepted?)
      && (next.phase == Live <==> Checked(current, load).Accepted?)
  {
  }

  lemma SettlingAgrees(o: Options, s: Session, next: ReadState)
    ensures SelectionAgrees(Settled(o, s, next))
  {
  }

  lemma SelectionKeeps(o: Options, s: Session, selection: Selection)
    requires Coherent(o, s)
    ensures var t := Selected(o, s, selection);
      Coherent(o, t) && t.settled == s.settled && t.hasSettled == s.hasSettled && (AlwaysDriven(s) ==> AlwaysDriven(t))
  {
  }

  /** No call changes what is settled, and none stops a session from being driven. */
  lemma CallKeeps(o: Options, s: Session, call: Call)
    requires Coherent(o, s)
    ensures var t := Called(o, s, call);
      Coherent(o, t) && t.settled == s.settled && t.hasSettled == s.hasSettled && (AlwaysDriven(s) ==> AlwaysDriven(t))
  {
    match call {
      case SelectUnit(unit, basis) => SelectionKeeps(o, s, UnitSelection(unit, basis));
      case SelectValue(value) => SelectionKeeps(o, s, s.selection.(value := Some(value)));
      case SelectBasis(basis) => SelectionKeeps(o, s, s.selection.(basis := if Given(basis) then basis else None));
      case _ =>
    }
  }

  lemma {:induction false} ReactionKeeps(o: Options, s: Session, reaction: seq<Call>)
    requires Coherent(o, s)
    ensures var t := Reacted(o, s, reaction); Coherent(o, t) && t.settled == s.settled && t.hasSettled == s.hasSettled
    decreases |reaction|
  {
    if reaction != [] {
      ReactionKeeps(o, s, reaction[..|reaction| - 1]);
      CallKeeps(o, Reacted(o, s, reaction[..|reaction| - 1]), reaction[|reaction| - 1]);
    }
  }

  lemma LandingKeeps(o: Options, s: Session, id: nat, load: Load, now: int)
    requires Inv(o, s) && Settles(s, id)
    ensures var t := Landed(o, s, id, load, now); Coherent(o, t) && ModelForward(o, s, t)
  {
    ReadMovesForward(s.settled, load, s.flights[id].allowFixture, o.fixture, now);
    SettlingAgrees(o, s.(flights := s.flights - {id}, active := None, hasSettled := true),
                   NextRead(s.flights[id].accepted, load, s.flights[id].allowFixture, o.fixture, now));
  }

  lemma CompletionKeeps(o: Options, s: Session, id: nat, load: Load, now: int, reaction: seq<Call>)
    requires Inv(o, s)
    ensures var t := Completed(o, s, id, load, now, reaction); Inv(o, t) && ModelForward(o, s, t)
  {
    if Settles(s, id) {
      LandingKeeps(o, s, id, load, now);
      ReactionKeeps(o, Landed(o, s, id, load, now), reaction);
    }
  }

  lemma StepKeeps(o: Options, s: Session, step: Step)
    requires Inv(o, s)
    ensures var t := StepSession(o, s, step); Inv(o, t) && ModelForward(o, s, t)
  {
    match step {
      case Act(call) => CallKeeps(o, s, call);
      case Complete(id, load, now, reaction) => CompletionKeeps(o, s, id, load, now, reaction);
      case TimerFires =>
    }
  }

  /** Over a run, a live model stays live and its generation never decreases; a model is never lost. */
  ghost predicate LiveForward(s: Session, t: Session)
  {
    && (s.hasSettled ==> t.hasSettled)
    && (IsLive(s.settled) ==> IsLive(t.settled) && t.settled.model.value.generation >= s.settled.model.value.generation)
    && (s.settled.model.Some? ==> t.settled.model.Some?)
    && (s.hasSettled && IsFixture(t.settled) ==> t.settled.model == s.settled.model)
  }

  lemma {:induction false} RunKeeps(o: Options, s: Session, steps: seq<Step>)
    requires Inv(o, s)
    ensures var t := RunSession(o, s, steps); Inv(o, t) && LiveForward(s, t)
    decreases |steps|
  {
    if steps != [] {
      RunKeeps(o, s, steps[..|steps| - 1]);
      StepKeeps(o, RunSession(o, s, steps[..|steps| - 1]), steps[|steps| - 1]);
    }
  }

  /**
   Under any interleaving: the model shown is the settled one; once live it stays live with a generation that
   never decreases; a model is never lost; and a session that has settled never adopts another fixture.
   */
  lemma LiveModelsStayLive(o: Options, steps: seq<Step>, more: seq<Step>)
    ensures var s := RunSession(o, NewSession(o), steps);
      var t := RunSession(o, s, more);
      && s.state.model == s.settled.model
      && LiveForward(s, t)
  {
    RunKeeps(o, NewSession(o), steps);
    RunKeeps(o, RunSession(o, NewSession(o), steps), more);
  }

  /** A fixture is only ever adopted by the first settled read, and only if the options allow it. */
  lemma FixtureOnlyAtFirstRead(o: Options, steps: seq<Step>, step: Step)
    ensures var s := RunSession(o, NewSession(o), steps);
      var t := StepSession(o, s, step);
      IsFixture(t.settled) && t.settled.model != s.settled.model ==> !s.hasSettled && t.hasSettled && o.allowFixture
  {
    RunKeeps(o, NewSession(o), steps);
    StepKeeps(o, RunSession(o, NewSession(o), steps), step);
  }

  lemma SettlingStep(o: Options, s: Session, step: Step)
    requires Inv(o, s)
    ensures StepSession(o, s, step).settled ==
      if step.Complete? && Settles(s, step.id)
      then NextRead(s.settled, step.load, o.allowFixture && !s.hasSettled, o.fixture, step.now) else s.settled
  {
    match step {
      case Act(call) => CallKeeps(o, s, call);
      case Complete(id, load, now, reaction) =>
        if Settles(s, id) {
          LandingKeeps(o, s, id, load, now);
          ReactionKeeps(o, Landed(o, s, id, load, now), reaction);
        }
      case TimerFires =>
    }
  }

  /** Only the completion of the newest refresh of a running session settles a read; the state that refresh
      captured is then still the settled one, so nothing newer is overwritten. */
  lemma OnlyTheNewestSettles(o: Options, steps: seq<Step>, step: Step)
    ensures var s := RunSession(o, NewSession(o), steps);
      var t := StepSession(o, s, step);
      t.settled != s.settled ==>
        && step.Complete? && s.running && step.id in s.flights && step.id + 1 == s.started
        && s.flights[step.id].accepted == s.settled
        && t.settled == NextRead(s.settled, step.load, o.allowFixture && !s.hasSettled, o.fixture, step.now)
  {
    RunKeeps(o, NewSession(o), steps);
    SettlingStep(o, RunSession(o, NewSession(o), steps), step);
  }

  /** A session that is running is always reading or about to: it never falls silent. A stopped one never reads, and
      the phase shown says whether a read is under way. */
  lemma RunningSessionsRefresh(o: Options, steps: seq<Step>)
    ensures var s := RunSession(o, NewSession(o), steps);
      && (s.running ==> s.active.Some? || s.scheduled)
      && (!s.running ==> s.active.None?)
      && (s.active.Some? ==> s.state.phase == (if s.settled.model.Some? then Recovering else Loading))
      && (s.active.None? && s.hasSettled ==> s.state.phase != Loading && s.state.phase != Recovering)
  {
    RunKeeps(o, NewSession(o), steps);
  }

  // ---------------------------------------------------------------- listeners that refresh or dispose

  /** Exactly one of an active read and a scheduled refresh drives a running session, and nothing a stopped one. */
  ghost predicate OneDriver(s: Session)
  {
    (s.running <==> s.active.Some? || s.scheduled) && !(s.active.Some? && s.scheduled)
  }

  /** A listener reacts to a settled read by refreshing or disposing, before the next refresh is scheduled. */
  ghost predicate Disturbs(s: Session, step: Step)
  {
    step.Complete? && Settles(s, step.id) && (Refresh in step.reaction || Dispose in step.reaction)
  }

  /** A running session without an active read, as it is when a read has just been settled. */
  predicate Idle(s: Session)
  {
    s.running && s.active.None?
  }

  lemma CallDrives(o: Options, s: Session, call: Call)
    requires s.active.Some? ==> s.running
    ensures var t := Called(o, s, call);
      (Idle(t) <==> Idle(s) && call != Refresh && call != Dispose) && (t.active.Some? ==> t.running)
  {
  }

  lemma {:induction false} ReactionsDrive(o: Options, s: Session, reaction: seq<Call>)
    requires Idle(s)
    ensures var t := Reacted(o, s, reaction);
      (Idle(t) <==> Refresh !in reaction && Dispose !in reaction) && (t.active.Some? ==> t.running)
    decreases |reaction|
  {
    if reaction != [] {
      var before, last := reaction[..|reaction| - 1], reaction[|reaction| - 1];
      ReactionsDrive(o, s, before);
      CallDrives(o, Reacted(o, s, before), last);
      assert reaction == before + [last];
    }
  }

  /** A step keeps the one driver unless it disturbs, and then it does not. */
  lemma StepDrivesOnce(o: Options, s: Session, step: Step)
    requires Inv(o, s) && OneDriver(s)
    ensures OneDriver(StepSession(o, s, step)) <==> !Disturbs(s, step)
  {
    if step.Complete? && Settles(s, step.id) {
      ReactionsDrive(o, Landed(o, s, step.id, step.load, step.now), step.reaction);
    }
  }

  ghost predicate DrivenOnceThroughout(o: Options, steps: seq<Step>)
  {
    OneDriver(RunSession(o, NewSession(o), steps)) && (steps != [] ==> DrivenOnceThroughout(o, steps[..|steps| - 1]))
  }

  ghost predicate Undisturbed(o: Options, steps: seq<Step>)
  {
    steps != [] ==>
      && Undisturbed(o, steps[..|steps| - 1])
      && !Disturbs(RunSession(o, NewSession(o), steps[..|steps| - 1]), steps[|steps| - 1])
  }

  /** A running session has never both an active read and a scheduled refresh, and a stopped one neither, exactly as
      long as no listener reacts to a settled read by refreshing or disposing. */
  lemma {:induction false} DrivenOnceExactly(o: Options, steps: seq<Step>)
    ensures DrivenOnceThroughout(o, steps) <==> Undisturbed(o, steps)
    decreases |steps|
  {
    if steps != [] {
      var before := steps[..|steps| - 1];
      DrivenOnceExactly(o, before);
      RunKeeps(o, NewSession(o), before);
      if DrivenOnceThroughout(o, before) {
        StepDrivesOnce(o, RunSession(o, NewSession(o), before), steps[|steps| - 1]);
      }
    }
  }

  /** Whenever there is a model, there is a projection, and the selection names its unit, its value, and a
      commercial basis of that unit or none. */
  lemma SelectionIsReconciled(o: Options, steps: seq<Step>)
    ensures var s := RunSession(o, NewSession(o), steps);
      s.state.model.Some? ==>
        s.projection.Some? && ReconciledWith(s.state.model.value.input, s.selection, s.projection.value)
  {
    RunKeeps(o, NewSession(o), steps);
  }

  /** Disposing a session while a read is under way brings back exactly what was settled before it. */
  lemma DisposeUndoesTheRefresh(o: Options, steps: seq<Step>)
    ensures var s := RunSession(o, NewSession(o), steps);
      && Disposed(Refreshed(o, s)).settled == s.settled
      && Disposed(Refreshed(o, s)).state == s.settled
      && (s.active.None? ==> Disposed(Refreshed(o, s)).state == s.state)
  {
    RunKeeps(o, NewSession(o), steps);
  }
}
