/** FleetBoardGameSession: the player's view of a game, which mints the facility ids. */
module FleetBoardSession {
  import opened Prelude
  import opened OrderedRecord
  import opened FleetBoard

  /** A transition of the session. Only modifiers bypass the board's rules. */
  datatype Turn =
    | AcceptModifiers(modifiers: Modifiers)
    | PlaceFacility(kind: Kind, position: Position)
    | AdvanceDay
    | RefuelReactor(reactor: FacilityId)
    | BuyToken(reactor: FacilityId)
    | QueueJob(reactor: FacilityId)

  /** The id the next placed facility gets: its kind and one more than the number of facilities. */
  function NextId(s: State, kind: Kind): FacilityId
  {
    Minted(kind, |s.facilities.keys| + 1)
  }

  function MoveOf(s: State, turn: Turn): Move
  {
    match turn
    case AcceptModifiers(modifiers) => Accept(modifiers)
    case PlaceFacility(kind, position) => Act(Action.PlaceFacility(NextId(s, kind), kind, position))
    case AdvanceDay => Act(TickDay)
    case RefuelReactor(reactor) => Act(RefuelFacility(reactor))
    case BuyToken(reactor) => Act(Action.BuyToken(reactor))
    case QueueJob(reactor) => Act(Action.QueueJob(reactor))
  }

  function Turned(s: State, turn: Turn): State
  {
    Moved(s, MoveOf(s, turn))
  }

  function TakeTurns(s: State, turns: seq<Turn>): State
  {
    if turns == [] then s else Turned(TakeTurns(s, turns[..|turns| - 1]), turns[|turns| - 1])
  }

  /** The board moves behind a run of turns. */
  function MovesOf(s: State, turns: seq<Turn>): seq<Move>
  {
    if turns == [] then []
    else MovesOf(s, turns[..|turns| - 1]) + [MoveOf(TakeTurns(s, turns[..|turns| - 1]), turns[|turns| - 1])]
  }

  /** A session plays board moves and nothing else, so whatever holds of every game holds of every session. */
  lemma {:induction false} SessionsPlayGames(s: State, turns: seq<Turn>)
    ensures TakeTurns(s, turns) == Play(s, MovesOf(s, turns))
    decreases |turns|
  {
    if turns != [] {
      SessionsPlayGames(s, turns[..|turns| - 1]);
      var moves := MovesOf(s, turns);
      assert moves[..|moves| - 1] == MovesOf(s, turns[..|turns| - 1]);
    }
  }

  // ---------------------------------------------------------------- fresh ids

  /** The same facilities stand on the same spots; only their status may differ. */
  ghost predicate SameBoard(f: Record<FacilityId, Facility>, g: Record<FacilityId, Facility>)
  {
    && f.keys == g.keys
    && f.values.Keys == g.values.Keys
    && forall id :: id in f.values ==>
      g.values[id].kind == f.values[id].kind && g.values[id].position == f.values[id].position
  }

  lemma StatusKeepsBoard(s: State, id: FacilityId, status: Status, days: int)
    requires s.facilities.Valid()
    ensures SameBoard(s.facilities, SetStatus(s, id, status, days).facilities)
  {
  }

  lemma {:induction false} RunEachKeepsBoard(s: State, ids: seq<FacilityId>)
    requires s.facilities.Valid()
    ensures SameBoard(s.facilities, RunEach(s, ids).facilities) && RunEach(s, ids).facilities.Valid()
    decreases |ids|
  {
    if ids != [] {
      var before := RunEach(s, ids[..|ids| - 1]);
      RunEachKeepsBoard(s, ids[..|ids| - 1]);
      StatusKeepsBoard(before, ids[|ids| - 1], Refueling, 1);
    }
  }

  lemma MorningKeepsBoard(s: State)
    requires s.facilities.Valid()
    ensures SameBoard(s.facilities, Morning(s).facilities) && Morning(s).facilities.Valid()
  {
    var fueled := ProduceFuel(BeginDay(s));
    RunEachKeepsBoard(fueled, ActiveFacilities(fueled, Reactor));
  }

  lemma InspectKeepsBoard(s: State)
    requires s.facilities.Valid()
    ensures SameBoard(s.facilities, Inspect(s).facilities) && Inspect(s).facilities.Valid()
  {
    match InspectorTarget(s) {
      case None =>
      case Some(id) => StatusKeepsBoard(s, id, Outage, if s.modifiers.inspectorPressure > 0.35 then 2 else 1);
    }
  }

  lemma TroubleKeepsBoard(s: State)
    requires s.facilities.Valid()
    ensures SameBoard(s.facilities, Trouble(s).facilities) && Trouble(s).facilities.Valid()
  {
    var next := s.(rng := NextRandom(s.rng));
    match TroubleVictim(s) {
      case None =>
      case Some(id) => StatusKeepsBoard(next, id, Outage, 1);
    }
  }

  /** A day neither adds, removes nor moves a facility. */
  lemma DayKeepsBoard(s: State)
    requires s.facilities.Valid()
    ensures SameBoard(s.facilities, Ticked(s).facilities) && Ticked(s).facilities.Valid()
  {
    MorningKeepsBoard(s);
    InspectKeepsBoard(Morning(s));
    TroubleKeepsBoard(Inspect(Morning(s)));
  }

  /** Key i of the board is minted with the number i + 1. */
  ghost predicate IdsAreMinted(f: Record<FacilityId, Facility>)
  {
    && f.Valid()
    && forall i :: 0 <= i < |f.keys| ==> f.keys[i] in f.values && f.keys[i] == Minted(f.values[f.keys[i]].kind, i + 1)
  }

  /** With minted ids, the next id is free, so placing adds exactly the new facility. */
  lemma PlacingIsFresh(s: State, kind: Kind, position: Position)
    requires IdsAreMinted(s.facilities)
    ensures NextId(s, kind) !in s.facilities.values
    ensures var t := Place(s, NextId(s, kind), kind, position);
      && t.facilities.keys == s.facilities.keys + [NextId(s, kind)]
      && t.facilities.values == s.facilities.values[NextId(s, kind) := Facility(kind, position, Active, 0)]
      && t.resources == s.resources.(cash := s.resources.cash - s.config.costs(kind))
      && IdsAreMinted(t.facilities)
  {
    assert NextId(s, kind) !in s.facilities.keys;
  }

  lemma SameBoardIsMinted(f: Record<FacilityId, Facility>, g: Record<FacilityId, Facility>)
    requires IdsAreMinted(f) && SameBoard(f, g) && g.Valid()
    ensures IdsAreMinted(g)
  {
  }

  lemma TurnKeepsIds(s: State, turn: Turn)
    requires IdsAreMinted(s.facilities)
    ensures IdsAreMinted(Turned(s, turn).facilities)
  {
    if !Ended(s) {
      match turn {
        case AcceptModifiers(modifiers) =>
        case PlaceFacility(kind, position) => PlacingIsFresh(s, kind, position);
        case AdvanceDay =>
          DayKeepsBoard(s);
          SameBoardIsMinted(s.facilities, Ticked(s).facilities);
        case RefuelReactor(reactor) =>
          StatusKeepsBoard(s, reactor, Active, 0);
          SameBoardIsMinted(s.facilities, SetStatus(s, reactor, Active, 0).facilities);
        case BuyToken(reactor) =>
        case QueueJob(reactor) =>
      }
    }
  }

  lemma {:induction false} SessionsKeepIds(setup: Setup, turns: seq<Turn>)
    ensures IdsAreMinted(TakeTurns(Start(setup), turns).facilities)
    decreases |turns|
  {
    if turns != [] {
      SessionsKeepIds(setup, turns[..|turns| - 1]);
      TurnKeepsIds(TakeTurns(Start(setup), turns[..|turns| - 1]), turns[|turns| - 1]);
    }
  }

  /** How many placements of a session happened before its game ended. */
  function Placed(s: State, turns: seq<Turn>): nat
  {
    if turns == [] then 0
    else
      var before := TakeTurns(s, turns[..|turns| - 1]);
      Placed(s, turns[..|turns| - 1]) + (if turns[|turns| - 1].PlaceFacility? && !Ended(before) then 1 else 0)
  }

  /** Every placement on a live game adds a facility of its own: none is lost to a reused id. */
  lemma {:induction false} EveryPlacementStands(setup: Setup, turns: seq<Turn>)
    ensures |TakeTurns(Start(setup), turns).facilities.keys| == Placed(Start(setup), turns)
    decreases |turns|
  {
    if turns != [] {
      var before := TakeTurns(Start(setup), turns[..|turns| - 1]);
      EveryPlacementStands(setup, turns[..|turns| - 1]);
      SessionsKeepIds(setup, turns[..|turns| - 1]);
      if !Ended(before) {
        match turns[|turns| - 1] {
          case AcceptModifiers(modifiers) =>
          case PlaceFacility(kind, position) => PlacingIsFresh(before, kind, position);
          case AdvanceDay => DayKeepsBoard(before);
          case RefuelReactor(reactor) => StatusKeepsBoard(before, reactor, Active, 0);
          case BuyToken(reactor) =>
          case QueueJob(reactor) =>
        }
      }
    }
  }

  /** A finished game still takes modifiers, and nothing else. */
  lemma {:induction false} FinishedGamesOnlyTakeModifiers(s: State, turns: seq<Turn>)
    requires Ended(s)
    ensures TakeTurns(s, turns) == s.(modifiers := TakeTurns(s, turns).modifiers)
    decreases |turns|
  {
    if turns != [] {
      FinishedGamesOnlyTakeModifiers(s, turns[..|turns| - 1]);
    }
  }
}
