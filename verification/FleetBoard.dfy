/**
 The Fleet Board game state and its transitions. Amounts are reals, days and counts are integers; the
 display-only parts of the state (event log, score, labels) are not modelled.
 */
module FleetBoard {
  import opened Prelude
  import opened OrderedRecord

  datatype Kind = TrisoFactory | Reactor | DesalPlant | ArmyBase | Battery

  datatype Status = Active | Outage | Refueling

  datatype Position = Position(x: real, y: real)

  /** `kind-n` as the game session mints it, or any other text a caller may pass. */
  datatype FacilityId = Minted(kind: Kind, index: nat) | Text(text: string)

  datatype Facility = Facility(kind: Kind, position: Position, status: Status, outageDays: int)

  datatype Pawn = Pawn(position: Position, routeIndex: nat)

  datatype Token = Token(reactor: FacilityId)

  datatype JobStatus = Queued | Running | Complete

  datatype Job = Job(
    reactor: FacilityId, token: nat, status: JobStatus, remaining: int,
    queuedDay: int, startedDay: Option<int>, completedDay: Option<int>)

  datatype Config = Config(
    scenarioDays: int, debtLimit: real, debtGraceDays: int, routeRange: real, costs: Kind -> real,
    fuelFactoryRate: real, burn: real, electricMwe: real, thermalMwt: real,
    desalWater: real, baseResilience: real, electricRevenue: real, waterRevenue: real, resilienceRevenue: real,
    dailyCost: real, simulationBudget: real, tokenCost: real, tokenCap: int, jobDuration: int, insightReward: int)

  datatype Modifiers = Modifiers(inspectorPressure: real, confidence: real)

  datatype Resources = Resources(
    cash: real, fuel: real, electric: real, thermal: real, water: real, resilience: real)

  datatype State = State(
    rng: nat, day: int, resources: Resources, facilities: Record<FacilityId, Facility>,
    inspector: Pawn, trouble: Pawn,
    budget: real, tokens: Record<nat, Token>, jobs: Record<nat, Job>, insight: map<FacilityId, int>,
    debtDays: int, removed: bool, complete: bool, config: Config, modifiers: Modifiers)

  datatype Action =
    | PlaceFacility(id: FacilityId, kind: Kind, position: Position)
    | BuyToken(reactor: FacilityId)
    | QueueJob(reactor: FacilityId)
    | RefuelFacility(id: FacilityId)
    | TickDay

  const INSPECTOR_ROUTE: seq<Position> :=
    [Position(1.0, 1.0), Position(9.0, 1.0), Position(9.0, 7.0), Position(1.0, 7.0)]
  const TROUBLE_ROUTE: seq<Position> :=
    [Position(10.0, 6.0), Position(6.0, 8.0), Position(3.0, 5.0), Position(7.0, 2.0)]

  /** createInitialFleetBoardState, from the hashed seed. */
  function InitialState(rng: nat, cash: real, fuel: real, modifiers: Modifiers, config: Config): State
  {
    State(
      rng, 0, Resources(cash, fuel, 0.0, 0.0, 0.0, 0.0), Record([], map[]),
      Pawn(INSPECTOR_ROUTE[0], 0), Pawn(TROUBLE_ROUTE[0], 0),
      config.simulationBudget, Record([], map[]), Record([], map[]), map[],
      if cash < config.debtLimit then 1 else 0, false, false, config, modifiers)
  }

  // ---------------------------------------------------------------- looking around the board

  predicate IsReactor(s: State, id: FacilityId)
  {
    id in s.facilities.values && s.facilities.values[id].kind == Reactor
  }

  predicate IsActive(facilities: map<FacilityId, Facility>, id: FacilityId, kind: Kind)
  {
    id in facilities && facilities[id].kind == kind && facilities[id].status == Active
  }

  /** Ids of the active facilities of one kind, in board order. */
  function ActiveOf(keys: seq<FacilityId>, facilities: map<FacilityId, Facility>, kind: Kind): seq<FacilityId>
  {
    if keys == [] then []
    else
      var before := ActiveOf(keys[..|keys| - 1], facilities, kind);
      var id := keys[|keys| - 1];
      if IsActive(facilities, id, kind) then before + [id] else before
  }

  function ActiveFacilities(s: State, kind: Kind): seq<FacilityId>
  {
    ActiveOf(s.facilities.keys, s.facilities.values, kind)
  }

  function Abs(x: real): real
  {
    if x < 0.0 then -x else x
  }

  function Distance(a: Position, b: Position): real
  {
    Abs(a.x - b.x) + Abs(a.y - b.y)
  }

  function CountWithin(ids: seq<FacilityId>, facilities: map<FacilityId, Facility>, from: Position, range: real): nat
  {
    if ids == [] then 0
    else
      var id := ids[|ids| - 1];
      CountWithin(ids[..|ids| - 1], facilities, from, range)
      + (if id in facilities && Distance(from, facilities[id].position) <= range then 1 else 0)
  }

  function ConnectedCount(s: State, from: Position, kind: Kind): nat
  {
    CountWithin(ActiveFacilities(s, kind), s.facilities.values, from, s.config.routeRange)
  }

  /** First facility, in board order, at the least distance: what a stable sort by distance puts first. */
  function NearestOf(
    keys: seq<FacilityId>, facilities: map<FacilityId, Facility>, from: Position,
    kind: Option<Kind>): Option<FacilityId>
  {
    if keys == [] then None
    else
      var best := NearestOf(keys[..|keys| - 1], facilities, from, kind);
      var id := keys[|keys| - 1];
      if id !in facilities || (kind.Some? && facilities[id].kind != kind.value) then best
      else if best.Some? && best.value in facilities
              && Distance(from, facilities[best.value].position) <= Distance(from, facilities[id].position) then best
      else Some(id)
  }

  function Nearest(s: State, from: Position, kind: Option<Kind>): Option<FacilityId>
  {
    NearestOf(s.facilities.keys, s.facilities.values, from, kind)
  }

  function SetStatus(s: State, id: FacilityId, status: Status, outageDays: int): State
  {
    if id !in s.facilities.values then s
    else s.(facilities := s.facilities.Put(id, s.facilities.values[id].(status := status, outageDays := outageDays)))
  }

  // ---------------------------------------------------------------- player actions

  function Place(s: State, id: FacilityId, kind: Kind, position: Position): State
  {
    if id in s.facilities.values then s
    else
      s.(resources := s.resources.(cash := s.resources.cash - s.config.costs(kind)),
         facilities := s.facilities.Put(id, Facility(kind, position, Active, 0)))
  }

  function Refuel(s: State, id: FacilityId): State
  {
    if !IsReactor(s, id) then s
    else
      SetStatus(s, id, Active, 0).(resources := s.resources.(fuel := s.resources.fuel - s.config.burn))
  }

  /** Ids of a reactor's tokens, in purchase order. */
  function TokensOf(keys: seq<nat>, tokens: map<nat, Token>, reactor: FacilityId): seq<nat>
  {
    if keys == [] then []
    else
      var before := TokensOf(keys[..|keys| - 1], tokens, reactor);
      var id := keys[|keys| - 1];
      if id in tokens && tokens[id].reactor == reactor then before + [id] else before
  }

  function ReactorTokens(s: State, reactor: FacilityId): seq<nat>
  {
    TokensOf(s.tokens.keys, s.tokens.values, reactor)
  }

  function Buy(s: State, reactor: FacilityId): State
  {
    if !IsReactor(s, reactor) then s
    else if |ReactorTokens(s, reactor)| >= s.config.tokenCap then s
    else if s.budget < s.config.tokenCost then s
    else
      s.(budget := s.budget - s.config.tokenCost,
         tokens := s.tokens.Put(|s.tokens.keys| + 1, Token(reactor)))
  }

  predicate Unfinished(jobs: map<nat, Job>, id: nat)
  {
    id in jobs && jobs[id].status != Complete
  }

  /** `Object.values(jobs).find(...)`: the first unfinished job of a token. */
  function JobOn(keys: seq<nat>, jobs: map<nat, Job>, token: nat): Option<nat>
  {
    if keys == [] then None
    else if Unfinished(jobs, keys[0]) && jobs[keys[0]].token == token then Some(keys[0])
    else JobOn(keys[1..], jobs, token)
  }

  datatype Slot = Idle(token: nat) | Busy(token: nat, status: JobStatus, remaining: int, job: nat)

  /** One slot of summarizeReactorSimulation. */
  function SlotOf(s: State, token: nat): Slot
  {
    match JobOn(s.jobs.keys, s.jobs.values, token)
    case None => Idle(token)
    case Some(j) =>
      if j !in s.jobs.values then Idle(token)
      else Busy(token, if s.jobs.values[j].status == Queued then Queued else Running, s.jobs.values[j].remaining, j)
  }

  function FirstIdle(s: State, tokens: seq<nat>): Option<nat>
  {
    if tokens == [] then None
    else if SlotOf(s, tokens[0]).Idle? then Some(tokens[0])
    else FirstIdle(s, tokens[1..])
  }

  function Enqueue(s: State, reactor: FacilityId): State
  {
    if !IsReactor(s, reactor) then s
    else
      match FirstIdle(s, ReactorTokens(s, reactor))
      case None => s
      case Some(token) =>
        s.(jobs := s.jobs.Put(|s.jobs.keys| + 1, Job(reactor, token, Queued, s.config.jobDuration, s.day, None, None)))
  }

  // ---------------------------------------------------------------- the day tick

  function TickFacility(f: Facility): Facility
  {
    if f.status != Outage then f
    else
      var left := if f.outageDays - 1 > 0 then f.outageDays - 1 else 0;
      f.(status := if left == 0 then Active else Outage, outageDays := left)
  }

  function TickOutages(facilities: Record<FacilityId, Facility>): Record<FacilityId, Facility>
  {
    Record(facilities.keys, map id | id in facilities.values :: TickFacility(facilities.values[id]))
  }

  function BeginDay(s: State): State
  {
    s.(day := s.day + 1,
       resources := s.resources.(cash := s.resources.cash - s.config.dailyCost),
       facilities := TickOutages(s.facilities))
  }

  function ProduceFuel(s: State): State
  {
    var factories := |ActiveFacilities(s, TrisoFactory)|;
    s.(resources := s.resources.(fuel := s.resources.fuel + factories as real * s.config.fuelFactoryRate))
  }

  /** What one reactor at `position` adds to the resources besides burning fuel. */
  function Generated(s: State, position: Position): Resources
  {
    var electric := s.config.electricMwe * s.modifiers.confidence;
    var thermal := s.config.thermalMwt * s.modifiers.confidence;
    var water := ConnectedCount(s, position, DesalPlant) as real * thermal * s.config.desalWater;
    var resilience := ConnectedCount(s, position, ArmyBase) as real * electric * s.config.baseResilience
                      + ConnectedCount(s, position, Battery) as real * electric * 0.8;
    var revenue := electric * s.config.electricRevenue + water * s.config.waterRevenue
                   + resilience * s.config.resilienceRevenue;
    Resources(s.resources.cash + revenue, s.resources.fuel - s.config.burn, s.resources.electric + electric,
              s.resources.thermal + thermal, s.resources.water + water, s.resources.resilience + resilience)
  }

  function RunReactor(s: State, id: FacilityId): State
  {
    if s.resources.fuel < s.config.burn then SetStatus(s, id, Refueling, 1)
    else if id !in s.facilities.values then s
    else s.(resources := Generated(s, s.facilities.values[id].position))
  }

  function RunEach(s: State, ids: seq<FacilityId>): State
  {
    if ids == [] then s else RunReactor(RunEach(s, ids[..|ids| - 1]), ids[|ids| - 1])
  }

  method RunReactors(s: State) returns (next: State)
    ensures next == RunEach(s, ActiveFacilities(s, Reactor))
  {
    next := s;
    var ids := ActiveFacilities(s, Reactor);
    for i := 0 to |ids|
      invariant next == RunEach(s, ids[..i])
    {
      assert ids[..i + 1][..i] == ids[..i];
      next := RunReactor(next, ids[i]);
    }
    assert ids[..|ids|] == ids;
  }

  function MovePawn(p: Pawn, route: seq<Position>): Pawn
    requires |route| > 0
  {
    var index := (p.routeIndex + 1) % |route|;
    Pawn(route[index], index)
  }

  function MovePawns(s: State): State
  {
    s.(inspector := MovePawn(s.inspector, INSPECTOR_ROUTE), trouble := MovePawn(s.trouble, TROUBLE_ROUTE))
  }

  /** The part of the state the job loop rewrites. */
  datatype JobAccount = JobAccount(jobs: Record<nat, Job>, insight: map<FacilityId, int>)

  function HeldIn(insight: map<FacilityId, int>, reactor: FacilityId): int
  {
    if reactor in insight then insight[reactor] else 0
  }

  function Held(s: State, reactor: FacilityId): int
  {
    HeldIn(s.insight, reactor)
  }

  function TickJob(job: Job, day: int): Job
  {
    var remaining := if job.remaining - 1 > 0 then job.remaining - 1 else 0;
    if job.status == Complete then job
    else if remaining == 0 then job.(status := Complete, remaining := 0, completedDay := Some(day))
    else job.(status := Running, remaining := remaining,
              startedDay := if job.startedDay.None? then Some(day) else job.startedDay)
  }

  /** The loop body for the job `id` of the day's starting list. */
  function TickOneJob(next: JobAccount, jobs: map<nat, Job>, id: nat, day: int, reward: int): JobAccount
  {
    if id !in jobs || jobs[id].status == Complete then next
    else
      var ticked := TickJob(jobs[id], day);
      var stored := next.jobs.Put(id, ticked);
      if ticked.status == Complete
      then JobAccount(stored, next.insight[ticked.reactor := HeldIn(next.insight, ticked.reactor) + reward])
      else JobAccount(stored, next.insight)
  }

  function TickEachJob(start: JobAccount, ids: seq<nat>, day: int, reward: int): JobAccount
  {
    if ids == [] then start
    else TickOneJob(TickEachJob(start, ids[..|ids| - 1], day, reward), start.jobs.values, ids[|ids| - 1], day, reward)
  }

  function TickJobs(s: State): State
  {
    var after := TickEachJob(JobAccount(s.jobs, s.insight), s.jobs.keys, s.day, s.config.insightReward);
    s.(jobs := after.jobs, insight := after.insight)
  }

  method TickSimulationJobs(s: State) returns (next: State)
    ensures next == TickJobs(s)
  {
    next := s;
    var start := JobAccount(s.jobs, s.insight);
    for i := 0 to |s.jobs.keys|
      invariant var now := TickEachJob(start, s.jobs.keys[..i], s.day, s.config.insightReward);
        next == s.(jobs := now.jobs, insight := now.insight)
    {
      assert s.jobs.keys[..i + 1][..i] == s.jobs.keys[..i];
      var now := TickOneJob(JobAccount(next.jobs, next.insight), s.jobs.values, s.jobs.keys[i], s.day,
          s.config.insightReward);
      next := next.(jobs := now.jobs, insight := now.insight);
    }
    assert s.jobs.keys[..|s.jobs.keys|] == s.jobs.keys;
  }

  /** Taking one insight token from a reactor that holds any. */
  function Spend(s: State, reactor: FacilityId): State
  {
    s.(insight := s.insight[reactor := Held(s, reactor) - 1])
  }

  /** The active reactor an inspector visit falls on, if any. */
  function InspectorTarget(s: State): Option<FacilityId>
  {
    if s.day % 6 != 0 then None
    else
      match Nearest(s, s.inspector.position, Some(Reactor))
      case None => None
      case Some(id) => if IsActive(s.facilities.values, id, Reactor) then Some(id) else None
  }

  function Inspect(s: State): State
  {
    match InspectorTarget(s)
    case None => s
    case Some(id) =>
      if Held(s, id) != 0 then Spend(s, id)
      else SetStatus(s, id, Outage, if s.modifiers.inspectorPressure > 0.35 then 2 else 1)
  }

  const TWO32 := 4294967296

  function NextRandom(rng: nat): nat
  {
    (rng * 1664525 + 1013904223) % TWO32
  }

  /** kinds[floor(roll * 5)] for roll = next / 2^32. */
  function RolledKind(next: nat): Kind
  {
    var i := next * 5 / TWO32;
    if i == 0 then TrisoFactory else if i == 2 then DesalPlant else if i == 3 then ArmyBase
    else if i == 4 then Battery else Reactor
  }

  function TroubleTarget(s: State): Option<FacilityId>
  {
    var near := Nearest(s, s.trouble.position, Some(RolledKind(NextRandom(s.rng))));
    if near.Some? then near else Nearest(s, s.trouble.position, None)
  }

  /** The active facility a trouble day falls on; a fuel factory is spared. */
  function TroubleVictim(s: State): Option<FacilityId>
  {
    if s.day % 5 != 0 then None
    else
      match TroubleTarget(s)
      case None => None
      case Some(id) =>
        if id in s.facilities.values && s.facilities.values[id].status == Active
          && s.facilities.values[id].kind != TrisoFactory
        then Some(id) else None
  }

  function Trouble(s: State): State
  {
    if s.day % 5 != 0 then s
    else
      var next := s.(rng := NextRandom(s.rng));
      match TroubleVictim(s)
      case None => next
      case Some(id) =>
        if IsReactor(s, id) && Held(s, id) != 0 then Spend(next, id) else SetStatus(next, id, Outage, 1)
  }

  function DebtRules(s: State): State
  {
    if s.resources.cash >= s.config.debtLimit then s.(debtDays := 0)
    else s.(debtDays := s.debtDays + 1, removed := s.removed || s.debtDays + 1 > s.config.debtGraceDays)
  }

  function CloseDay(s: State): State
  {
    if !s.removed && s.day >= s.config.scenarioDays then s.(complete := true) else s
  }

  /** The day up to and including the simulation jobs. */
  function Morning(s: State): State
  {
    var fueled := ProduceFuel(BeginDay(s));
    TickJobs(MovePawns(RunEach(fueled, ActiveFacilities(fueled, Reactor))))
  }

  function Ticked(s: State): State
  {
    CloseDay(DebtRules(Trouble(Inspect(Morning(s)))))
  }

  /** tickDay, rebinding one local through the steps of the day. */
  method TickTheDay(s: State) returns (next: State)
    ensures next == Ticked(s)
  {
    next := BeginDay(s);
    next := ProduceFuel(next);
    next := RunReactors(next);
    next := MovePawns(next);
    next := TickSimulationJobs(next);
    next := Inspect(next);
    next := Trouble(next);
    next := DebtRules(next);
    next := CloseDay(next);
  }

  // ---------------------------------------------------------------- games

  predicate Ended(s: State)
  {
    s.removed || s.complete
  }

  /** applyFleetBoardAction. */
  function Apply(s: State, action: Action): State
  {
    if Ended(s) then s
    else
      match action
      case PlaceFacility(id, kind, position) => Place(s, id, kind, position)
      case BuyToken(reactor) => Buy(s, reactor)
      case QueueJob(reactor) => Enqueue(s, reactor)
      case RefuelFacility(id) => Refuel(s, id)
      case TickDay => Ticked(s)
  }

  /** A move of a game session: a board action, or new modifiers from the workbench. */
  datatype Move = Act(action: Action) | Accept(modifiers: Modifiers)

  function Moved(s: State, move: Move): State
  {
    match move
    case Act(action) => Apply(s, action)
    case Accept(modifiers) => s.(modifiers := modifiers)
  }

  function Play(s: State, moves: seq<Move>): State
  {
    if moves == [] then s else Moved(Play(s, moves[..|moves| - 1]), moves[|moves| - 1])
  }

  datatype Setup = Setup(rng: nat, cash: real, fuel: real, modifiers: Modifiers, config: Config)

  function Start(setup: Setup): State
  {
    InitialState(setup.rng, setup.cash, setup.fuel, setup.modifiers, setup.config)
  }
}
