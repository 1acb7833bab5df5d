/** Where a Fleet Board game's cash comes from and goes to, and how long facilities stand still. */
module FleetBoardCash {
  import opened Prelude
  import opened OrderedRecord
  import opened FleetBoard
  import opened FleetBoardSession

  // ---------------------------------------------------------------- the cash account

  /** What the placed facilities cost. */
  function PlacedCost(keys: seq<FacilityId>, facilities: map<FacilityId, Facility>, costs: Kind -> real): real
  {
    if keys == [] then 0.0
    else
      var id := keys[|keys| - 1];
      PlacedCost(keys[..|keys| - 1], facilities, costs) + (if id in facilities then costs(facilities[id].kind) else 0.0)
  }

  /** What the delivered electricity, water and resilience have earned. */
  function Earned(c: Config, electric: real, water: real, resilience: real): real
  {
    electric * c.electricRevenue + water * c.waterRevenue + resilience * c.resilienceRevenue
  }

  function DailyCosts(cost: real, days: int): real
  {
    cost * days as real
  }

  /** Cash, what was placed and what the days cost make up the starting cash and the earnings. */
  ghost predicate CashBooks(s: State, start: real)
  {
    s.resources.cash + PlacedCost(s.facilities.keys, s.facilities.values, s.config.costs)
      + DailyCosts(s.config.dailyCost, s.day)
    == start + Earned(s.config, s.resources.electric, s.resources.water, s.resources.resilience)
  }

  /** The same board, day, cash and deliveries. */
  ghost predicate SameCash(s: State, t: State)
  {
    && t.config == s.config && t.day == s.day && SameBoard(s.facilities, t.facilities) && t.facilities.Valid()
    && t.resources.cash == s.resources.cash && t.resources.electric == s.resources.electric
    && t.resources.water == s.resources.water && t.resources.resilience == s.resources.resilience
  }

  lemma {:induction false} SameBoardCosts(
    keys: seq<FacilityId>, f: map<FacilityId, Facility>, g: map<FacilityId, Facility>, costs: Kind -> real)
    requires f.Keys == g.Keys && forall id :: id in f ==> g[id].kind == f[id].kind
    ensures PlacedCost(keys, g, costs) == PlacedCost(keys, f, costs)
  {
    if keys != [] {
      SameBoardCosts(keys[..|keys| - 1], f, g, costs);
    }
  }

  lemma SameCashStands(s: State, t: State, start: real)
    requires CashBooks(s, start) && SameCash(s, t)
    ensures CashBooks(t, start)
  {
    SameBoardCosts(s.facilities.keys, s.facilities.values, t.facilities.values, s.config.costs);
  }

  lemma EarnedAdds(c: Config, e: real, w: real, r: real, de: real, dw: real, dr: real)
    ensures Earned(c, e + de, w + dw, r + dr) == Earned(c, e, w, r) + Earned(c, de, dw, dr)
  {
    assert (e + de) * c.electricRevenue == e * c.electricRevenue + de * c.electricRevenue;
    assert (w + dw) * c.waterRevenue == w * c.waterRevenue + dw * c.waterRevenue;
    assert (r + dr) * c.resilienceRevenue == r * c.resilienceRevenue + dr * c.resilienceRevenue;
  }

  lemma DailyStep(cost: real, days: int)
    ensures DailyCosts(cost, days + 1) == DailyCosts(cost, days) + cost
  {
    assert (days + 1) as real == days as real + 1.0;
  }

  // ---------------------------------------------------------------- the steps of a day

  /** `t` is `s` after delivering electricity, water and resilience and being paid for them. */
  ghost predicate Delivered(c: Config, s: Resources, t: Resources, electric: real, water: real, resilience: real)
  {
    && t.electric == s.electric + electric && t.water == s.water + water && t.resilience == s.resilience + resilience
    && t.cash == s.cash + Earned(c, electric, water, resilience)
  }

  /** What one reactor delivers, it is paid for. */
  lemma GeneratedIsPaid(s: State, position: Position) returns (electric: real, water: real, resilience: real)
    ensures Delivered(s.config, s.resources, Generated(s, position), electric, water, resilience)
  {
    electric := s.config.electricMwe * s.modifiers.confidence;
    water := ConnectedCount(s, position,
        DesalPlant) as real * (s.config.thermalMwt * s.modifiers.confidence) * s.config.desalWater;
    resilience := ConnectedCount(s, position, ArmyBase) as real * electric * s.config.baseResilience
                  + ConnectedCount(s, position, Battery) as real * electric * 0.8;
  }

  lemma PaidStands(s: State, t: State, start: real, electric: real, water: real, resilience: real)
    requires CashBooks(s, start) && t == s.(resources := t.resources)
    requires Delivered(s.config, s.resources, t.resources, electric, water, resilience)
    ensures CashBooks(t, start)
  {
    EarnedAdds(s.config, s.resources.electric, s.resources.water, s.resources.resilience, electric, water, resilience);
  }

  lemma RunReactorKeepsCash(s: State, id: FacilityId, start: real)
    requires CashBooks(s, start) && s.facilities.Valid()
    ensures CashBooks(RunReactor(s, id), start) && RunReactor(s, id).facilities.Valid()
  {
    if s.resources.fuel < s.config.burn {
      StatusKeepsBoard(s, id, Refueling, 1);
      SameCashStands(s, SetStatus(s, id, Refueling, 1), start);
    } else if id in s.facilities.values {
      var electric, water, resilience := GeneratedIsPaid(s, s.facilities.values[id].position);
      PaidStands(s, RunReactor(s, id), start, electric, water, resilience);
    }
  }

  lemma {:induction false} RunEachKeepsCash(s: State, ids: seq<FacilityId>, start: real)
    requires CashBooks(s, start) && s.facilities.Valid()
    ensures CashBooks(RunEach(s, ids), start) && RunEach(s, ids).facilities.Valid()
    decreases |ids|
  {
    if ids != [] {
      RunEachKeepsCash(s, ids[..|ids| - 1], start);
      RunReactorKeepsCash(RunEach(s, ids[..|ids| - 1]), ids[|ids| - 1], start);
    }
  }

  lemma BeginDayKeepsCash(s: State, start: real)
    requires CashBooks(s, start) && s.facilities.Valid()
    ensures CashBooks(BeginDay(s), start) && BeginDay(s).facilities.Valid()
  {
    DailyStep(s.config.dailyCost, s.day);
    SameBoardCosts(s.facilities.keys, s.facilities.values, TickOutages(s.facilities).values, s.config.costs);
  }

  lemma MorningKeepsCash(s: State, start: real)
    requires CashBooks(s, start) && s.facilities.Valid()
    ensures CashBooks(Morning(s), start) && Morning(s).facilities.Valid()
  {
    BeginDayKeepsCash(s, start);
    var fueled := ProduceFuel(BeginDay(s));
    SameCashStands(BeginDay(s), fueled, start);
    var ran := RunEach(fueled, ActiveFacilities(fueled, Reactor));
    RunEachKeepsCash(fueled, ActiveFacilities(fueled, Reactor), start);
    SameCashStands(ran, TickJobs(MovePawns(ran)), start);
  }

  lemma InspectKeepsCash(s: State)
    requires s.facilities.Valid()
    ensures SameCash(s, Inspect(s))
  {
    InspectKeepsBoard(s);
  }

  lemma TroubleKeepsCash(s: State)
    requires s.facilities.Valid()
    ensures SameCash(s, Trouble(s))
  {
    TroubleKeepsBoard(s);
  }

  lemma AccountingKeepsCash(s: State)
    requires s.facilities.Valid()
    ensures SameCash(s, CloseDay(DebtRules(s)))
  {
  }

  lemma TickKeepsCash(s: State, start: real)
    requires CashBooks(s, start) && s.facilities.Valid()
    ensures CashBooks(Ticked(s), start) && Ticked(s).facilities.Valid()
  {
    MorningKeepsCash(s, start);
    InspectKeepsCash(Morning(s));
    SameCashStands(Morning(s), Inspect(Morning(s)), start);
    TroubleKeepsCash(Inspect(Morning(s)));
    SameCashStands(Inspect(Morning(s)), Trouble(Inspect(Morning(s))), start);
    AccountingKeepsCash(Trouble(Inspect(Morning(s))));
    SameCashStands(Trouble(Inspect(Morning(s))), Ticked(s), start);
  }

  lemma PlaceKeepsCash(s: State, id: FacilityId, kind: Kind, position: Position, start: real)
    requires CashBooks(s, start) && s.facilities.Valid()
    ensures CashBooks(Place(s, id, kind, position), start) && Place(s, id, kind, position).facilities.Valid()
  {
    if id !in s.facilities.values {
      var t := Place(s, id, kind, position);
      assert t.facilities.keys[..|s.facilities.keys|] == s.facilities.keys;
      PlacedBefore(s.facilities.keys, s.facilities.values, id, Facility(kind, position, Active, 0), s.config.costs);
    }
  }

  lemma {:induction false} PlacedBefore(
    keys: seq<FacilityId>, facilities: map<FacilityId, Facility>, id: FacilityId, f: Facility, costs: Kind -> real)
    requires id !in keys
    ensures PlacedCost(keys, facilities[id := f], costs) == PlacedCost(keys, facilities, costs)
  {
    if keys != [] {
      PlacedBefore(keys[..|keys| - 1], facilities, id, f, costs);
    }
  }

  lemma ActionKeepsCash(s: State, action: Action, start: real)
    requires CashBooks(s, start) && s.facilities.Valid()
    ensures CashBooks(Apply(s, action), start) && Apply(s, action).facilities.Valid()
  {
    if !Ended(s) {
      match action {
        case PlaceFacility(id, kind, position) => PlaceKeepsCash(s, id, kind, position, start);
        case BuyToken(reactor) => SameCashStands(s, Buy(s, reactor), start);
        case QueueJob(reactor) => SameCashStands(s, Enqueue(s, reactor), start);
        case RefuelFacility(id) =>
          StatusKeepsBoard(s, id, Active, 0);
          SameCashStands(s, Refuel(s, id), start);
        case TickDay => TickKeepsCash(s, start);
      }
    }
  }

  /**
   In every reachable state, cash + what the placed facilities cost + what the days cost == the starting cash +
   what the delivered electricity, water and resilience earn at the configured rates. No cash appears or
   disappears otherwise.
   */
  lemma {:induction false} CashConserved(setup: Setup, moves: seq<Move>)
    ensures CashBooks(Play(Start(setup), moves), setup.cash) && Play(Start(setup), moves).facilities.Valid()
    decreases |moves|
  {
    if moves != [] {
      var s := Play(Start(setup), moves[..|moves| - 1]);
      CashConserved(setup, moves[..|moves| - 1]);
      match moves[|moves| - 1] {
        case Act(action) => ActionKeepsCash(s, action, setup.cash);
        case Accept(modifiers) => SameCashStands(s, s.(modifiers := modifiers), setup.cash);
      }
    }
  }

  // ---------------------------------------------------------------- outages and refueling

  predicate InOutage(s: State, id: FacilityId, days: int)
  {
    id in s.facilities.values && s.facilities.values[id].status == Outage && s.facilities.values[id].outageDays == days
  }

  lemma {:induction false} ActiveOnly(
    keys: seq<FacilityId>, facilities: map<FacilityId, Facility>, kind: Kind, id: FacilityId)
    ensures id in ActiveOf(keys, facilities, kind) ==> IsActive(facilities, id, kind)
  {
    if keys != [] {
      ActiveOnly(keys[..|keys| - 1], facilities, kind, id);
    }
  }

  lemma {:induction false} RunEachKeepsOutage(s: State, ids: seq<FacilityId>, id: FacilityId, days: int)
    requires InOutage(s, id, days) && id !in ids
    ensures InOutage(RunEach(s, ids), id, days)
    decreases |ids|
  {
    if ids != [] {
      RunEachKeepsOutage(s, ids[..|ids| - 1], id, days);
      assert ids[|ids| - 1] in ids;
    }
  }

  lemma MorningCountsOutage(s: State, id: FacilityId, days: int)
    requires InOutage(s, id, days) && days > 1
    ensures InOutage(Morning(s), id, days - 1)
  {
    var fueled := ProduceFuel(BeginDay(s));
    assert InOutage(fueled, id, days - 1);
    ActiveOnly(fueled.facilities.keys, fueled.facilities.values, Reactor, id);
    RunEachKeepsOutage(fueled, ActiveFacilities(fueled, Reactor), id, days - 1);
  }

  /** Pressure only strikes facilities that are active. */
  lemma PressureKeepsOutage(s: State, id: FacilityId, days: int)
    requires InOutage(s, id, days)
    ensures InOutage(Inspect(s), id, days) && InOutage(Trouble(s), id, days)
  {
  }

  lemma TickCountsOutage(s: State, id: FacilityId, days: int)
    requires InOutage(s, id, days) && days > 1
    ensures InOutage(Ticked(s), id, days - 1)
  {
    MorningCountsOutage(s, id, days);
    PressureKeepsOutage(Morning(s), id, days - 1);
    PressureKeepsOutage(Inspect(Morning(s)), id, days - 1);
  }

  lemma ActionKeepsOutage(s: State, action: Action, id: FacilityId, days: int)
    requires InOutage(s, id, days) && action != RefuelFacility(id) && action != TickDay
    ensures InOutage(Apply(s, action), id, days)
  {
  }

  /** Day ticks that are played while the game is not over. */
  function LiveTicks(s: State, moves: seq<Move>): nat
  {
    if moves == [] then 0
    else
      var before := moves[..|moves| - 1];
      LiveTicks(s, before) + (if moves[|moves| - 1] == Act(TickDay) && !Ended(Play(s, before)) then 1 else 0)
  }

  /**
   In any game, whatever is played but the facility's own refueling: an outage of d days counts down by one each day
   and is over at the start of day max(1, d), exactly.
   */
  lemma {:induction false} OutagesLastExactly(s: State, moves: seq<Move>, id: FacilityId, days: int)
    requires InOutage(s, id, days) && Act(RefuelFacility(id)) !in moves
    ensures var n, t := LiveTicks(s, moves), Play(s, moves);
      && (n == 0 || n < days ==> InOutage(t, id, days - n))
      && (n + 1 == (if days > 1 then days else 1) ==>
          IsActive(BeginDay(t).facilities.values, id, t.facilities.values[id].kind))
    decreases |moves|
  {
    if moves != [] {
      var before, last := moves[..|moves| - 1], moves[|moves| - 1];
      OutagesLastExactly(s, before, id, days);
      assert last in moves;
      var u, n := Play(s, before), LiveTicks(s, before);
      if last.Act? && !Ended(u) && (n == 0 || n < days) {
        if last.action != TickDay {
          ActionKeepsOutage(u, last.action, id, days - n);
        } else if n + 1 < days {
          TickCountsOutage(u, id, days - n);
        }
      }
    }
  }

  ghost predicate StillRefueling(s: State, t: State, id: FacilityId)
  {
    id in s.facilities.values && s.facilities.values[id].status == Refueling ==>
      id in t.facilities.values && t.facilities.values[id].status == Refueling
  }

  lemma {:induction false} RunEachKeepsRefueling(s: State, ids: seq<FacilityId>, id: FacilityId)
    ensures StillRefueling(s, RunEach(s, ids), id)
    decreases |ids|
  {
    if ids != [] {
      RunEachKeepsRefueling(s, ids[..|ids| - 1], id);
    }
  }

  lemma MorningKeepsRefueling(s: State, id: FacilityId)
    ensures StillRefueling(s, Morning(s), id)
  {
    var fueled := ProduceFuel(BeginDay(s));
    RunEachKeepsRefueling(fueled, ActiveFacilities(fueled, Reactor), id);
  }

  /** Pressure only strikes facilities that are active. */
  lemma PressureKeepsRefueling(s: State, id: FacilityId)
    ensures StillRefueling(s, Inspect(s), id) && StillRefueling(s, Trouble(s), id)
  {
  }

  /** A reactor out of fuel stays so through every action but its own refueling. */
  lemma RefuelingNeedsThePlayer(s: State, action: Action, id: FacilityId)
    requires action != RefuelFacility(id)
    ensures StillRefueling(s, Apply(s, action), id)
  {
    if !Ended(s) && action == TickDay {
      MorningKeepsRefueling(s, id);
      PressureKeepsRefueling(Morning(s), id);
      PressureKeepsRefueling(Inspect(Morning(s)), id);
    }
  }
}
