/** How Fleet Board games end, what a day does to the reactors, and which facility is the nearest. */
module FleetBoardEnding {
  import opened Prelude
  import opened OrderedRecord
  import opened FleetBoard
  import opened FleetBoardLedger

  // ---------------------------------------------------------------- ending

  /** Day ticks among the moves. */
  function Ticks(moves: seq<Move>): nat
  {
    if moves == [] then 0
    else Ticks(moves[..|moves| - 1]) + (if moves[|moves| - 1] == Act(TickDay) then 1 else 0)
  }

  predicate InDebt(s: State)
  {
    s.resources.cash < s.config.debtLimit
  }

  /** Whether the board was in debt at the start and after each day that was played. */
  function DebtRecord(setup: Setup, moves: seq<Move>): seq<bool>
  {
    if moves == [] then [InDebt(Start(setup))]
    else
      var s := Play(Start(setup), moves[..|moves| - 1]);
      var before := DebtRecord(setup, moves[..|moves| - 1]);
      if moves[|moves| - 1] == Act(TickDay) && !Ended(s) then before + [InDebt(Ticked(s))] else before
  }

  /** Length of the run of `true` at the end. */
  function TrailingDays(debt: seq<bool>): nat
  {
    if debt == [] || !debt[|debt| - 1] then 0 else 1 + TrailingDays(debt[..|debt| - 1])
  }

  /** `t` is no further towards its end than `s`. */
  ghost predicate SameEnding(s: State, t: State)
  {
    t.config == s.config && t.debtDays == s.debtDays && t.removed == s.removed && t.complete == s.complete
  }

  lemma DayBeforeAccounting(s: State) returns (t: State)
    ensures t == Trouble(Inspect(Morning(s))) && SameEnding(s, t) && t.day == s.day + 1
  {
    MorningAccounts(s);
    InspectAccounts(Morning(s), Text(""));
    TroubleAccounts(Inspect(Morning(s)), Text(""));
    t := Trouble(Inspect(Morning(s)));
  }

  lemma AccountingEnds(u: State)
    ensures var t := CloseDay(DebtRules(u));
      && t.day == u.day && t.config == u.config
      && t.debtDays == (if InDebt(t) then u.debtDays + 1 else 0)
      && t.removed == (u.removed || (InDebt(t) && u.debtDays + 1 > u.config.debtGraceDays))
      && t.complete == (u.complete || (!t.removed && t.day >= u.config.scenarioDays))
  {
  }

  /** A day tick, as far as the end of the game is concerned. */
  lemma TickEnding(s: State)
    ensures var t := Ticked(s);
      && t.day == s.day + 1 && t.config == s.config
      && t.debtDays == (if InDebt(t) then s.debtDays + 1 else 0)
      && t.removed == (s.removed || (InDebt(t) && s.debtDays + 1 > s.config.debtGraceDays))
      && t.complete == (s.complete || (!t.removed && t.day >= s.config.scenarioDays))
  {
    var u := DayBeforeAccounting(s);
    AccountingEnds(u);
  }

  ghost predicate EndingBooks(s: State, c: Config, ticks: nat, debt: seq<bool>, covered: bool)
  {
    && s.config == c
    && !(s.removed && s.complete)
    && (!Ended(s) ==> s.day == ticks && (ticks == 0 || ticks < c.scenarioDays))
    && s.debtDays == TrailingDays(debt)
    && (covered ==> c.debtGraceDays >= 0 && (s.removed <==> s.debtDays > c.debtGraceDays))
  }

  /** Whether the grace covers the start: at least a day of it, or none and no debt to begin with. */
  predicate GraceCoversTheStart(setup: Setup)
  {
    setup.config.debtGraceDays >= 1 || (setup.config.debtGraceDays == 0 && setup.cash >= setup.config.debtLimit)
  }

  lemma TrailingOf(debt: seq<bool>, b: bool)
    ensures TrailingDays(debt + [b]) == if b then TrailingDays(debt) + 1 else 0
  {
    assert (debt + [b])[..|debt|] == debt;
  }

  lemma TickKeepsEnding(s: State, c: Config, ticks: nat, debt: seq<bool>, covered: bool)
    requires EndingBooks(s, c, ticks, debt, covered) && !Ended(s)
    ensures EndingBooks(Ticked(s), c, ticks + 1, debt + [InDebt(Ticked(s))], covered)
  {
    TickEnding(s);
    TrailingOf(debt, InDebt(Ticked(s)));
  }

  lemma OtherActionsKeepEnding(s: State, action: Action)
    requires action != TickDay
    ensures var t := Apply(s, action);
      t.config == s.config && t.day == s.day && t.debtDays == s.debtDays && t.removed == s.removed
        && t.complete == s.complete
  {
  }

  lemma {:induction false} GamesKeepEnding(setup: Setup, moves: seq<Move>)
    ensures EndingBooks(Play(Start(setup), moves), setup.config, Ticks(moves), DebtRecord(setup, moves),
        GraceCoversTheStart(setup))
    decreases |moves|
  {
    if moves != [] {
      var before := moves[..|moves| - 1];
      GamesKeepEnding(setup, before);
      var s := Play(Start(setup), before);
      match moves[|moves| - 1] {
        case Accept(modifiers) =>
        case Act(action) =>
          if !Ended(s) {
            if action == TickDay {
              TickKeepsEnding(s, setup.config, Ticks(before), DebtRecord(setup, before), GraceCoversTheStart(setup));
            } else {
              OtherActionsKeepEnding(s, action);
            }
          }
      }
    } else {
      assert TrailingDays([InDebt(Start(setup))]) == if InDebt(Start(setup)) then 1 else 0 by {
        TrailingOf([], InDebt(Start(setup)));
        assert [] + [InDebt(Start(setup))] == [InDebt(Start(setup))];
      }
    }
  }

  /**
   Every game is over after max(1, scenarioDays) day ticks, whatever else is played: it has then either
   completed or been removed, never both.
   */
  lemma GamesEnd(setup: Setup, moves: seq<Move>)
    ensures var s := Play(Start(setup), moves); !(s.removed && s.complete)
    ensures Ticks(moves) >= 1 && Ticks(moves) >= setup.config.scenarioDays ==>
              Play(Start(setup), moves).removed != Play(Start(setup), moves).complete
  {
    GamesKeepEnding(setup, moves);
  }

  /** The game is removed exactly if its trailing days in debt, a start in debt included, exceed the grace. */
  ghost predicate RemovedBySustainedDebt(setup: Setup, moves: seq<Move>)
  {
    Play(Start(setup), moves).removed <==> TrailingDays(DebtRecord(setup, moves)) > setup.config.debtGraceDays
  }

  /** A grace that does not cover the start fails right there: the debt exceeds it and the game is not removed. */
  lemma UncoveredStartIsNotRemoved(setup: Setup)
    requires !GraceCoversTheStart(setup)
    ensures !RemovedBySustainedDebt(setup, []) && !Play(Start(setup), []).removed
  {
    GamesKeepEnding(setup, []);
  }

  /** Removal is sustained debt in every history of a game if and only if the grace covers the start. */
  lemma RemovalIsSustainedDebt(setup: Setup)
    ensures (forall moves :: RemovedBySustainedDebt(setup, moves)) <==> GraceCoversTheStart(setup)
  {
    if GraceCoversTheStart(setup) {
      forall moves ensures RemovedBySustainedDebt(setup, moves) {
        GamesKeepEnding(setup, moves);
      }
    } else {
      UncoveredStartIsNotRemoved(setup);
    }
  }

  /** After the end, no board action changes anything. */
  lemma {:induction false} EndIsFinal(s: State, actions: seq<Action>)
    requires Ended(s)
    ensures Play(s, seq(|actions|, i requires 0 <= i < |actions| => Act(actions[i]))) == s
    decreases |actions|
  {
    var moves := seq(|actions|, i requires 0 <= i < |actions| => Act(actions[i]));
    if actions != [] {
      var fewer := actions[..|actions| - 1];
      EndIsFinal(s, fewer);
      assert moves[..|moves| - 1] == seq(|fewer|, i requires 0 <= i < |fewer| => Act(fewer[i]));
    }
  }

  // ---------------------------------------------------------------- which reactors run

  /** `x` added up `n` times. */
  function Times(x: real, n: nat): real
  {
    if n == 0 then 0.0 else Times(x, n - 1) + x
  }

  lemma TimesOneMore(x: real, n: nat)
    requires n > 0
    ensures Times(x, n) == Times(x, n - 1) + x
  {
  }

  lemma {:induction false} TimesIsProduct(x: real, n: nat)
    ensures Times(x, n) == x * n as real
  {
    if n > 0 {
      TimesIsProduct(x, n - 1);
    }
  }

  /** How many of `n` reactors find enough fuel, one after the other. */
  function Generators(n: nat, fuel: real, burn: real): nat
  {
    if n == 0 then 0
    else
      var g := Generators(n - 1, fuel, burn);
      if fuel - Times(burn, g) < burn then g else g + 1
  }

  lemma ScaledOrder(x: real, y: real, burn: real)
    requires burn > 0.0
    ensures x * burn <= y * burn <==> x <= y
  {
    if x <= y {
      assert (y - x) * burn >= 0.0;
    } else {
      assert (x - y) * burn > 0.0;
    }
  }

  lemma FuelLasts(fuel: real, burn: real, g: nat)
    requires burn > 0.0
    ensures fuel - Times(burn, g) >= burn <==> g + 1 <= (fuel / burn).Floor
  {
    var q := fuel / burn;
    TimesIsProduct(burn, g + 1);
    ScaledOrder((g + 1) as real, q, burn);
  }

  /** With positive burn: min(n, max(0, floor(fuel / burn))). Otherwise: all of them or none. */
  lemma {:induction false} GeneratorsClosedForm(n: nat, fuel: real, burn: real)
    ensures burn > 0.0 ==>
      var whole := (fuel / burn).Floor;
      Generators(n, fuel, burn) == (if whole < 0 then 0 else if whole < n then whole else n)
    ensures burn <= 0.0 ==> Generators(n, fuel, burn) == if fuel < burn then 0 else n
  {
    if n > 0 {
      GeneratorsClosedForm(n - 1, fuel, burn);
      var g := Generators(n - 1, fuel, burn);
      if burn > 0.0 {
        FuelLasts(fuel, burn, g);
      } else {
        TimesIsProduct(burn, g);
        assert burn * g as real <= 0.0;
      }
    }
  }

  lemma {:induction false} ActiveOfMembers(keys: seq<FacilityId>, facilities: map<FacilityId, Facility>, kind: Kind)
    requires AllDifferent(keys)
    ensures var ids := ActiveOf(keys, facilities, kind);
      AllDifferent(ids) && forall id :: id in ids <==> id in keys && IsActive(facilities, id, kind)
  {
    if keys != [] {
      ActiveOfMembers(keys[..|keys| - 1], facilities, kind);
      assert keys == keys[..|keys| - 1] + [keys[|keys| - 1]];
    }
  }

  /** The facilities after `ids[g..]` were sent to refueling. */
  function Refueled(facilities: map<FacilityId, Facility>, ids: seq<FacilityId>, g: nat): map<FacilityId, Facility>
    requires g <= |ids|
  {
    map id | id in facilities ::
      if id in ids[g..] then facilities[id].(status := Refueling, outageDays := 1) else facilities[id]
  }

  /** The reactor loop over `ids`: the first `g` generate, the rest refuel. */
  ghost predicate ReactorsRan(s: State, t: State, ids: seq<FacilityId>, g: nat)
    requires g <= |ids|
  {
    && t == s.(resources := t.resources, facilities := t.facilities)
    && t.facilities == Record(s.facilities.keys, Refueled(s.facilities.values, ids, g))
    && t.resources.fuel == s.resources.fuel - Times(s.config.burn, g)
    && t.resources.electric == s.resources.electric + Times(s.config.electricMwe * s.modifiers.confidence, g)
    && t.resources.thermal == s.resources.thermal + Times(s.config.thermalMwt * s.modifiers.confidence, g)
  }

  /** What one turn of the reactor loop does to the state. */
  ghost predicate Ran(t: State, u: State, id: FacilityId)
  {
    && u == t.(resources := u.resources, facilities := u.facilities)
    && if t.resources.fuel < t.config.burn
      then u.resources == t.resources && u.facilities == SetStatus(t, id, Refueling, 1).facilities
       else
         && u.facilities == t.facilities && u.resources.fuel == t.resources.fuel - t.config.burn
         && u.resources.electric == t.resources.electric + t.config.electricMwe * t.modifiers.confidence
         && u.resources.thermal == t.resources.thermal + t.config.thermalMwt * t.modifiers.confidence
  }

  lemma ReactorRuns(t: State, id: FacilityId)
    requires id in t.facilities.values
    ensures Ran(t, RunReactor(t, id), id)
  {
  }

  lemma RefuelOneMore(s: State, t: State, u: State, ids: seq<FacilityId>, g: nat)
    requires ids != [] && g < |ids| && s.facilities.Valid() && AllDifferent(ids)
            && ids[|ids| - 1] in s.facilities.values
    requires ReactorsRan(s, t, ids[..|ids| - 1], g) && Ran(t, u, ids[|ids| - 1]) && t.resources.fuel < t.config.burn
    ensures ReactorsRan(s, u, ids, g)
  {
    var before, id := ids[..|ids| - 1], ids[|ids| - 1];
    assert ids[g..] == before[g..] + [id];
    assert id !in before[g..];
    assert u.facilities.values == Refueled(s.facilities.values, ids, g);
  }

  lemma GenerateOneMore(s: State, t: State, u: State, ids: seq<FacilityId>)
    requires ids != [] && ReactorsRan(s, t, ids[..|ids| - 1], |ids| - 1)
    requires Ran(t, u, ids[|ids| - 1]) && t.resources.fuel >= t.config.burn
    ensures ReactorsRan(s, u, ids, |ids|)
  {
    assert ids[..|ids| - 1][|ids| - 1..] == [] && ids[|ids|..] == [];
    assert t.config == s.config && t.modifiers == s.modifiers;
    TimesOneMore(s.config.burn, |ids|);
    TimesOneMore(s.config.electricMwe * s.modifiers.confidence, |ids|);
    TimesOneMore(s.config.thermalMwt * s.modifiers.confidence, |ids|);
  }

  lemma RunOneMore(s: State, t: State, u: State, ids: seq<FacilityId>, g: nat)
    requires ids != [] && g < |ids| && s.facilities.Valid() && AllDifferent(ids)
            && ids[|ids| - 1] in s.facilities.values
    requires ReactorsRan(s, t, ids[..|ids| - 1], g) && Ran(t, u, ids[|ids| - 1])
    requires g < |ids| - 1 ==> t.resources.fuel < t.config.burn
    ensures ReactorsRan(s, u, ids, if t.resources.fuel < s.config.burn then g else g + 1)
  {
    if t.resources.fuel < t.config.burn {
      RefuelOneMore(s, t, u, ids, g);
    } else {
      GenerateOneMore(s, t, u, ids);
    }
  }

  lemma RunsOneMore(s: State, ids: seq<FacilityId>, t: State, u: State)
    requires s.facilities.Valid() && AllDifferent(ids) && ids != [] && ids[|ids| - 1] in s.facilities.values
            && s.config.burn > 0.0
    requires Generators(|ids| - 1, s.resources.fuel, s.config.burn) <= |ids| - 1
    requires ReactorsRan(s, t, ids[..|ids| - 1], Generators(|ids| - 1, s.resources.fuel, s.config.burn))
    requires Ran(t, u, ids[|ids| - 1])
    ensures Generators(|ids|, s.resources.fuel, s.config.burn) <= |ids|
    ensures ReactorsRan(s, u, ids, Generators(|ids|, s.resources.fuel, s.config.burn))
  {
    StaysShort(|ids| - 1, s.resources.fuel, s.config.burn);
    RunOneMore(s, t, u, ids, Generators(|ids| - 1, s.resources.fuel, s.config.burn));
  }

  lemma {:induction false} RunEachSplits(s: State, ids: seq<FacilityId>)
    requires s.facilities.Valid() && AllDifferent(ids) && s.config.burn > 0.0
    requires forall id :: id in ids ==> id in s.facilities.values
    ensures Generators(|ids|, s.resources.fuel, s.config.burn) <= |ids|
    ensures ReactorsRan(s, RunEach(s, ids), ids, Generators(|ids|, s.resources.fuel, s.config.burn))
    decreases |ids|
  {
    if ids == [] {
      assert Refueled(s.facilities.values, ids, 0) == s.facilities.values;
    } else {
      RunEachSplits(s, ids[..|ids| - 1]);
      assert ids[|ids| - 1] in ids;
      ReactorRuns(RunEach(s, ids[..|ids| - 1]), ids[|ids| - 1]);
      RunsOneMore(s, ids, RunEach(s, ids[..|ids| - 1]), RunEach(s, ids));
    }
  }

  /** Once a reactor has found too little fuel, every later one does. */
  lemma {:induction false} StaysShort(n: nat, fuel: real, burn: real)
    requires burn > 0.0
    ensures Generators(n, fuel, burn) <= n
    ensures Generators(n, fuel, burn) < n ==> fuel - Times(burn, Generators(n, fuel, burn)) < burn
  {
    if n > 0 {
      StaysShort(n - 1, fuel, burn);
    }
  }

  /**
   A day's reactor run, with positive burn: of the active reactors in board order, exactly the first
   min(n, max(0, fuel div burn)) generate, each burning its share; all others enter a refueling outage.
   */
  lemma FirstReactorsGenerate(s: State)
    requires s.facilities.Valid() && s.config.burn > 0.0
    ensures var ids := ActiveFacilities(s, Reactor);
      var whole := (s.resources.fuel / s.config.burn).Floor;
      var g := if whole < 0 then 0 else if whole < |ids| then whole else |ids|;
      ReactorsRan(s, RunEach(s, ids), ids, g)
  {
    var ids := ActiveFacilities(s, Reactor);
    ActiveOfMembers(s.facilities.keys, s.facilities.values, Reactor);
    RunEachSplits(s, ids);
    GeneratorsClosedForm(|ids|, s.resources.fuel, s.config.burn);
  }

  /** If `id` is of the kind, it is not nearer than `best`, and farther if it comes earlier on the board. */
  predicate NotNearer(
    facilities: map<FacilityId, Facility>, from: Position, kind: Option<Kind>, best: FacilityId, id: FacilityId,
    earlier: bool)
    requires best in facilities
  {
    id in facilities && (kind.None? || facilities[id].kind == kind.value) ==>
      var d, e := Distance(from, facilities[best].position), Distance(from, facilities[id].position);
      d <= e && (earlier ==> d < e)
  }

  /** The facility a pawn is nearest to: no other is closer, and none as close comes earlier on the board. */
  lemma {:induction false} NearestIsFirstMinimum(
    keys: seq<FacilityId>, facilities: map<FacilityId, Facility>, from: Position, kind: Option<Kind>)
    ensures var best := NearestOf(keys, facilities, from, kind);
      && (best.None? ==> forall id :: id in keys && id in facilities ==>
          kind.Some? && facilities[id].kind != kind.value)
      && (best.Some? ==>
            exists k: nat :: k < |keys| && keys[k] == best.value && best.value in facilities
              && (kind.Some? ==> facilities[best.value].kind == kind.value)
              && forall i :: 0 <= i < |keys| ==> NotNearer(facilities, from, kind, best.value, keys[i], i < k))
  {
    if keys != [] {
      var before := keys[..|keys| - 1];
      NearestIsFirstMinimum(before, facilities, from, kind);
      assert keys == before + [keys[|keys| - 1]];
      var best := NearestOf(keys, facilities, from, kind);
      if best.Some? && best == NearestOf(before, facilities, from, kind) {
        var k: nat :| k < |before| && before[k] == best.value
          && forall i :: 0 <= i < |before| ==> NotNearer(facilities, from, kind, best.value, before[i], i < k);
        assert keys[k] == best.value;
      } else if best.Some? {
        assert keys[|keys| - 1] == best.value;
      }
    }
  }
}
