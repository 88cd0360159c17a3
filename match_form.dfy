/**
 * The three-step match entry form: choosing the format and the players or
 * teams, entering the sets, and confirming. Each handler is one update of
 * the form's record; `validateStep` is the gate in front of each next step.
 */
module MatchEntry {
  import opened Wrappers
  import opened MatchData
  import opened Sorting
  import opened ScoringSystem

  const PLAYERS_COUNT := "Виберіть двох гравців"
  const PLAYERS_DISTINCT := "Гравці повинні бути різними"
  const TEAMS_COUNT := "Виберіть чотирьох гравців (по два в кожній команді)"
  const TEAMS_DISTINCT := "Кожен гравець може бути вибраний тільки один раз"
  const NO_SETS := "Додайте хоча б один сет"
  const TIE := "У тенісі не може бути нічиїх"
  const NO_SET_WINNER := "Виберіть переможця сету"
  const UNKNOWN_PLAYER := "Невідомий гравець"
  const TEAM_1 := "Команда 1"
  const TEAM_2 := "Команда 2"

  /** Form errors by key; a cleared error stays as a `null` entry. */
  type Errors = map<string, Option<string>>

  /** `ids[i]`, where an index past the end reads `undefined`, the key "undefined" when used on an object. */
  function At(ids: seq<string>, i: nat): string
  {
    if i < |ids| then ids[i] else "undefined"
  }

  /** The error keys of one set. */
  function SetKey(k: nat): string
  {
    "set_" + DecimalString(k)
  }

  function SetWinnerKey(k: nat): string
  {
    "set_" + DecimalString(k) + "_winner"
  }

  /** The keys the two sides' games are stored under, for a known format. */
  function SideKeys(format: string, players: seq<string>, teams: seq<seq<string>>): Option<(string, string)>
    requires |teams| == 2
  {
    if format == SINGLES then Some((At(players, 0), At(players, 1)))
    else if format == DOUBLES then Some((TeamId(teams[0]), TeamId(teams[1])))
    else None
  }

  /** Step 0 of `validateStep`: the players or teams chosen. */
  function Step0Errors(format: string, players: seq<string>, teams: seq<seq<string>>): Errors
    requires |teams| == 2
  {
    if format == SINGLES then
      if |players| != 2 then map["players" := Some(PLAYERS_COUNT)]
      else if players[0] == players[1] then map["players" := Some(PLAYERS_DISTINCT)]
      else map[]
    else if format == DOUBLES then
      var all := teams[0] + teams[1];
      if |all| != 4 then map["teams" := Some(TEAMS_COUNT)]
      else if |ToSet(all)| != 4 then map["teams" := Some(TEAMS_DISTINCT)]
      else map[]
    else map[]
  }

  /** What step 0 asks for: two different players, or four different players in the two teams. */
  predicate Step0Ok(format: string, players: seq<string>, teams: seq<seq<string>>)
    requires |teams| == 2
  {
    && (format == SINGLES ==> |players| == 2 && players[0] != players[1])
    && (format == DOUBLES ==> |teams[0]| + |teams[1]| == 4 && Distinct(teams[0] + teams[1]))
  }

  /** Step 0 passes exactly when its requirement holds. */
  lemma Step0Iff(format: string, players: seq<string>, teams: seq<seq<string>>)
    requires |teams| == 2
    ensures Step0Errors(format, players, teams) == map[] <==> Step0Ok(format, players, teams)
  {
    if format == SINGLES {
      assert "players" in map["players" := Some(PLAYERS_COUNT)];
    } else if format == DOUBLES {
      ToSetSize(teams[0] + teams[1]);
      assert "teams" in map["teams" := Some(TEAMS_COUNT)];
    }
  }

  /** A set both of whose sides are entered properly: different game counts and a winner. */
  predicate SetReady(s: GameSet, a: string, b: string)
  {
    ValueOr0(s.games, a) != ValueOr0(s.games, b) && Truthy(s.winner)
  }

  /** The errors one set adds in step 1. */
  function SetCheck(acc: Errors, k: nat, s: GameSet, a: string, b: string): Errors
  {
    var withTie := if ValueOr0(s.games, a) == ValueOr0(s.games, b) then acc[SetKey(k) := Some(TIE)] else acc;
    if !Truthy(s.winner) then withTie[SetWinnerKey(k) := Some(NO_SET_WINNER)] else withTie
  }

  /** One set's check only adds keys: a tie under the set's key, a missing winner under its winner key. */
  lemma SetCheckSpec(acc: Errors, k: nat, s: GameSet, a: string, b: string)
    ensures acc.Keys <= SetCheck(acc, k, s, a, b).Keys
    ensures SetCheck(acc, k, s, a, b) == map[] <==> acc == map[] && SetReady(s, a, b)
    ensures ValueOr0(s.games, a) == ValueOr0(s.games, b) ==> SetKey(k) in SetCheck(acc, k, s, a, b)
    ensures !Truthy(s.winner) ==> SetWinnerKey(k) in SetCheck(acc, k, s, a, b)
  {
    var r := SetCheck(acc, k, s, a, b);
    if r == map[] {
      assert acc.Keys <= r.Keys;
      assert acc.Keys == {};
      assert acc == map[];
    }
    if ValueOr0(s.games, a) == ValueOr0(s.games, b) {
      assert SetKey(k) in r;
    } else if !Truthy(s.winner) {
      assert SetWinnerKey(k) in r;
    }
  }

  /** The `for` loop of step 1 over the set numbers `ks`. */
  function CheckSets(sets: map<nat, GameSet>, ks: seq<nat>, a: string, b: string): Errors
    requires forall i :: 0 <= i < |ks| ==> ks[i] in sets
    decreases |ks|
  {
    if ks == [] then map[]
    else
      var k := ks[|ks| - 1];
      SetCheck(CheckSets(sets, ks[..|ks| - 1], a, b), k, sets[k], a, b)
  }

  /** Step 1 of `validateStep`: the sets entered. */
  function Step1Errors(format: string, players: seq<string>, teams: seq<seq<string>>, sets: map<nat, GameSet>): Errors
    requires |teams| == 2
  {
    var ks := SortedKeys(sets);
    if |ks| == 0 then map["sets" := Some(NO_SETS)]
    else
      match SideKeys(format, players, teams)
      case None => map[]
      case Some((a, b)) => CheckSets(sets, ks, a, b)
  }

  /** What step 1 asks for: at least one set, and every set ready for the sides of a known format. */
  predicate Step1Ok(format: string, players: seq<string>, teams: seq<seq<string>>, sets: map<nat, GameSet>)
    requires |teams| == 2
  {
    && sets != map[]
    && (SideKeys(format, players, teams).Some? ==>
          var (a, b) := SideKeys(format, players, teams).value;
          forall k :: k in sets ==> SetReady(sets[k], a, b))
  }

  /**
   * The set loop reports nothing exactly when every set is ready; otherwise a
   * tie is reported under the set's key and a missing winner under its
   * winner key.
   */
  lemma {:induction false} CheckSetsSpec(sets: map<nat, GameSet>, ks: seq<nat>, a: string, b: string)
    requires forall i :: 0 <= i < |ks| ==> ks[i] in sets
    ensures CheckSets(sets, ks, a, b) == map[] <==> forall i :: 0 <= i < |ks| ==> SetReady(sets[ks[i]], a, b)
    ensures forall i :: 0 <= i < |ks| && ValueOr0(sets[ks[i]].games, a) == ValueOr0(sets[ks[i]].games, b) ==>
              SetKey(ks[i]) in CheckSets(sets, ks, a, b)
    ensures forall i :: 0 <= i < |ks| && !Truthy(sets[ks[i]].winner) ==>
              SetWinnerKey(ks[i]) in CheckSets(sets, ks, a, b)
    decreases |ks|
  {
    if ks != [] {
      var init, k := ks[..|ks| - 1], ks[|ks| - 1];
      CheckSetsSpec(sets, init, a, b);
      SetCheckSpec(CheckSets(sets, init, a, b), k, sets[k], a, b);
      assert forall i :: 0 <= i < |init| ==> ks[i] == init[i];
    }
  }

  /** Step 1 passes exactly when its requirement holds. */
  lemma Step1Iff(format: string, players: seq<string>, teams: seq<seq<string>>, sets: map<nat, GameSet>)
    requires |teams| == 2
    ensures Step1Errors(format, players, teams, sets) == map[] <==> Step1Ok(format, players, teams, sets)
  {
    var ks := SortedKeys(sets);
    if |ks| == 0 {
      assert sets.Keys == {};
    } else {
      assert sets != map[] by {
        assert ks[0] in sets;
      }
      if SideKeys(format, players, teams).Some? {
        var (a, b) := SideKeys(format, players, teams).value;
        CheckSetsSpec(sets, ks, a, b);
        if forall i :: 0 <= i < |ks| ==> SetReady(sets[ks[i]], a, b) {
          forall k | k in sets
            ensures SetReady(sets[k], a, b)
          {
            var i :| 0 <= i < |ks| && ks[i] == k;
          }
        }
      }
    }
  }

  /** The errors `validateStep(step)` leaves behind; steps other than 0 and 1 check nothing. */
  function StepErrors(step: int, format: string, players: seq<string>, teams: seq<seq<string>>, sets: map<nat, GameSet>): Errors
    requires |teams| == 2
  {
    if step == 0 then Step0Errors(format, players, teams)
    else if step == 1 then Step1Errors(format, players, teams, sets)
    else map[]
  }

  /** `handlePlayerSelect` in singles: deselect, or select while fewer than two are chosen. */
  function SelectSingle(players: seq<string>, pid: string): seq<string>
  {
    if pid in players then Filter(players, (id: string) => id != pid)
    else if |players| < 2 then players + [pid]
    else players
  }

  /** `handlePlayerSelect` in doubles: take the player out of their team, or add them to the first team with room. */
  function SelectDouble(teams: seq<seq<string>>, pid: string): seq<seq<string>>
    requires |teams| == 2
  {
    var team1Has := pid in teams[0];
    var team2Has := pid in teams[1];
    if team1Has || team2Has then
      [if team1Has then Filter(teams[0], (id: string) => id != pid) else teams[0],
       if team2Has then Filter(teams[1], (id: string) => id != pid) else teams[1]]
    else
      var teamIndex := if |teams[0]| >= 2 then 1 else 0;
      if |teams[teamIndex]| < 2 then teams[teamIndex := teams[teamIndex] + [pid]] else teams
  }

  /** At most two entries, none repeated. */
  predicate Roster(ids: seq<string>)
  {
    |ids| <= 2 && Distinct(ids)
  }

  /** Filtering keeps a list free of repeats. */
  lemma {:induction false} FilterDistinct(ids: seq<string>, p: string -> bool)
    requires Distinct(ids)
    ensures Distinct(Filter(ids, p))
    decreases |ids|
  {
    if ids != [] {
      var init, last := ids[..|ids| - 1], ids[|ids| - 1];
      assert Distinct(init) by {
        forall i, j | 0 <= i < j < |init|
          ensures init[i] != init[j]
        {
          assert init[i] == ids[i] && init[j] == ids[j];
        }
      }
      FilterDistinct(init, p);
      FilterMembers(init, p);
      if p(last) {
        assert last !in init by {
          forall i | 0 <= i < |init|
            ensures init[i] != last
          {
            assert init[i] == ids[i];
          }
        }
        DistinctSnoc(Filter(init, p), last);
      }
    }
  }

  /** Removing every occurrence of `pid` keeps a roster a roster and takes `pid` out. */
  lemma RemoveFromRoster(ids: seq<string>, pid: string)
    requires Roster(ids)
    ensures Roster(Filter(ids, (id: string) => id != pid))
    ensures pid !in Filter(ids, (id: string) => id != pid)
    ensures forall x :: x in Filter(ids, (id: string) => id != pid) ==> x in ids
  {
    FilterMembers(ids, (id: string) => id != pid);
    FilterDistinct(ids, (id: string) => id != pid);
  }

  /** The singles selection never holds more than two players or the same player twice. */
  lemma SelectSingleKeepsRoster(players: seq<string>, pid: string)
    requires Roster(players)
    ensures Roster(SelectSingle(players, pid))
    ensures pid in players ==> pid !in SelectSingle(players, pid)
    ensures pid !in players && |players| < 2 ==> SelectSingle(players, pid) == players + [pid]
  {
    if pid in players {
      RemoveFromRoster(players, pid);
    }
  }

  /** Two rosters with no player in both. */
  predicate TeamsOk(teams: seq<seq<string>>)
  {
    |teams| == 2 && Roster(teams[0]) && Roster(teams[1]) && forall x :: x in teams[0] ==> x !in teams[1]
  }

  /**
   * The doubles selection keeps each team at most two players, no player in
   * both, and toggles: a placed player is removed from the teams, a new one
   * joins team 0 unless it is full, else team 1 if it has room.
   */
  lemma SelectDoubleKeepsTeams(teams: seq<seq<string>>, pid: string)
    requires TeamsOk(teams)
    ensures TeamsOk(SelectDouble(teams, pid))
    ensures pid in teams[0] + teams[1] ==> pid !in SelectDouble(teams, pid)[0] + SelectDouble(teams, pid)[1]
    ensures pid !in teams[0] + teams[1] && |teams[0]| < 2 ==> SelectDouble(teams, pid) == [teams[0] + [pid], teams[1]]
    ensures pid !in teams[0] + teams[1] && |teams[0]| >= 2 && |teams[1]| < 2 ==> SelectDouble(teams, pid) == [teams[0], teams[1] + [pid]]
  {
    if pid in teams[0] {
      RemoveFromRoster(teams[0], pid);
    }
    if pid in teams[1] {
      RemoveFromRoster(teams[1], pid);
    }
  }

  /** The new set of `handleAddSet`: both sides at 0 games, no winner. */
  function NewSet(format: string, players: seq<string>, teams: seq<seq<string>>): GameSet
    requires |teams| == 2
  {
    var games :=
      if format == SINGLES then map[At(players, 0) := 0][At(players, 1) := 0]
      else if format == DOUBLES then map[TeamId(teams[0]) := 0][TeamId(teams[1]) := 0]
      else map[];
    GameSet(games, None)
  }

  /**
   * The winner `handleSetScoreChange` derives for sides `a` and `b` from the
   * updated games, after `side` was set to `value`.
   */
  function AutoWinner(updated: map<string, int>, a: string, b: string, side: string, value: int): Option<string>
  {
    var aGames := if side == a then value else ValueOr0(updated, a);
    var bGames := if side == b then value else ValueOr0(updated, b);
    if aGames > bGames then Some(a) else if bGames > aGames then Some(b) else None
  }

  /**
   * The derived winner is the side with strictly more games in the updated
   * set, and `null` exactly on a tie.
   */
  lemma AutoWinnerSpec(games: map<string, int>, a: string, b: string, side: string, value: int)
    ensures var g := games[side := value];
      var w := AutoWinner(g, a, b, side, value);
      && (w == Some(a) <==> a != b && ValueOr0(g, a) > ValueOr0(g, b))
      && (a != b ==> (w == Some(b) <==> ValueOr0(g, b) > ValueOr0(g, a)))
      && (w == None <==> ValueOr0(g, a) == ValueOr0(g, b))
  {
  }

  /** A set's winner as `handleSetScoreChange` leaves it: derived in a known format, kept otherwise. */
  function ScoredSet(s: GameSet, format: string, players: seq<string>, teams: seq<seq<string>>, side: string, value: int): GameSet
    requires |teams| == 2
  {
    var games := s.games[side := value];
    match SideKeys(format, players, teams)
    case None => GameSet(games, s.winner)
    case Some((a, b)) => GameSet(games, AutoWinner(games, a, b, side, value))
  }

  /** The number of sets whose winner is `e`, as the confirmation step counts them. */
  function SetsWonCount(vs: seq<GameSet>, e: string): nat
  {
    |Filter(vs, (s: GameSet) => s.winner == Some(e))|
  }

  /** Counting by `filter(...).length` agrees with the scoring engine's tally. */
  lemma {:induction false} SetsWonCountTotal(vs: seq<GameSet>, e: string)
    ensures SetsWonCount(vs, e) == Total(vs, WonBy(e))
    decreases |vs|
  {
    if vs != [] {
      SetsWonCountTotal(vs[..|vs| - 1], e);
    }
  }

  /** The confirmation step's winner: side 0, side 1, or nobody on equal set counts. */
  function ConfirmedSide(format: string, players: seq<string>, teams: seq<seq<string>>, sets: map<nat, GameSet>): Option<nat>
    requires |teams| == 2
  {
    match SideKeys(format, players, teams)
    case None => None
    case Some((a, b)) =>
      var aSets := SetsWonCount(SetList(sets), a);
      var bSets := SetsWonCount(SetList(sets), b);
      if aSets > bSets then Some(0) else if bSets > aSets then Some(1) else None
  }

  /**
   * The confirmation step announces the same winner the scoring engine will
   * store, whenever the two sides are different keys.
   */
  lemma ConfirmedSideAgrees(m: MatchInput, r: PointsEarned)
    requires |m.teams| == 2 && Readable(m) && KnownFormat(m.format) && Scores(m, r)
    requires m.format == SINGLES ==> m.players[0] != m.players[1]
    requires m.format == DOUBLES ==> TeamId(m.teams[0]) != TeamId(m.teams[1])
    ensures ConfirmedSide(m.format, m.players, m.teams, m.sets) == Some(0) <==> r.winner == WinnerId(Sides(m).0)
    ensures ConfirmedSide(m.format, m.players, m.teams, m.sets) == Some(1) <==> r.winner == WinnerId(Sides(m).1)
    ensures ConfirmedSide(m.format, m.players, m.teams, m.sets) == None <==> r.winner == NoWinner
  {
    var a, b := Sides(m).0, Sides(m).1;
    SetsWonCountTotal(SetList(m.sets), a);
    SetsWonCountTotal(SetList(m.sets), b);
  }

  /** `getPlayerName`: the roster name, or the unknown-player label. */
  function PlayerName(roster: seq<Player>, id: string): string
  {
    match Find(roster, (p: Player) => p.id == id)
    case Some(p) => p.name
    case None => UNKNOWN_PLAYER
  }

  /** The form record and its step, as the component keeps them. */
  class MatchForm {
    var format: string
    var players: seq<string>
    var teams: seq<seq<string>>
    var sets: map<nat, GameSet>
    var date: string
    var errors: Errors
    var activeStep: int

    /**
     * What every handler keeps: two teams, rosters of at most two distinct
     * players with no player in both teams, and sets numbered 1..n.
     */
    ghost predicate Valid()
      reads this
    {
      Roster(players) && TeamsOk(teams) && Dense(sets)
    }

    /** The form with no initial values: singles, nothing chosen, no sets, step 0, on `today`. */
    constructor (today: string)
      ensures Valid()
      ensures format == SINGLES && players == [] && teams == [[], []] && sets == map[]
      ensures date == today && errors == map[] && activeStep == 0
    {
      format := SINGLES;
      players := [];
      teams := [[], []];
      sets := map[];
      date := today;
      errors := map[];
      activeStep := 0;
    }

    /** The record handed to `onSubmit`. */
    function Data(): MatchInput
      reads this
    {
      MatchInput(format, players, teams, sets)
    }

    /** Choosing singles: the players are cleared, and the format effect clears the teams. */
    method SelectSinglesFormat()
      requires Valid()
      modifies this
      ensures Valid()
      ensures format == SINGLES && players == [] && teams == [[], []]
      ensures sets == old(sets) && date == old(date) && errors == old(errors) && activeStep == old(activeStep)
    {
      format := SINGLES;
      players := [];
      teams := [[], []];
    }

    /** Choosing doubles: the teams are cleared; the chosen singles players stay. */
    method SelectDoublesFormat()
      requires Valid()
      modifies this
      ensures Valid()
      ensures format == DOUBLES && teams == [[], []]
      ensures players == old(players) && sets == old(sets) && date == old(date)
      ensures errors == old(errors) && activeStep == old(activeStep)
    {
      format := DOUBLES;
      teams := [[], []];
    }

    /** `validateStep(step)`: records the step's errors and passes when there are none. */
    method ValidateStep(step: int) returns (ok: bool)
      requires Valid()
      modifies this
      ensures Valid()
      ensures errors == StepErrors(step, format, players, teams, sets)
      ensures ok <==> errors == map[]
      ensures ok <==> (step == 0 ==> Step0Ok(format, players, teams)) && (step == 1 ==> Step1Ok(format, players, teams, sets))
      ensures format == old(format) && players == old(players) && teams == old(teams)
      ensures sets == old(sets) && date == old(date) && activeStep == old(activeStep)
    {
      var newErrors := CollectErrors(step, format, players, teams, sets);
      Step0Iff(format, players, teams);
      Step1Iff(format, players, teams, sets);
      errors := newErrors;
      ok := |newErrors| == 0;
      assert ok <==> newErrors == map[] by {
        if newErrors != map[] {
          var key :| key in newErrors;
        }
      }
    }

    /** `handleNextStep`: moves on only when the current step validates. */
    method NextStep()
      requires Valid()
      modifies this
      ensures Valid()
      ensures errors == StepErrors(old(activeStep), format, players, teams, sets)
      ensures activeStep == if errors == map[] then old(activeStep) + 1 else old(activeStep)
      ensures format == old(format) && players == old(players) && teams == old(teams) && sets == old(sets)
      ensures date == old(date)
    {
      var ok := ValidateStep(activeStep);
      if ok {
        activeStep := activeStep + 1;
      }
    }

    /** `handlePrevStep`. */
    method PrevStep()
      modifies this
      ensures activeStep == old(activeStep) - 1
      ensures format == old(format) && players == old(players) && teams == old(teams) && sets == old(sets)
      ensures errors == old(errors) && date == old(date)
    {
      activeStep := activeStep - 1;
    }

    /**
     * `handleSubmit`: the record goes to `onSubmit` when the current step
     * validates; on the confirmation step (2) nothing is checked.
     */
    method Submit() returns (submitted: Option<MatchInput>)
      requires Valid()
      modifies this
      ensures Valid()
      ensures errors == StepErrors(activeStep, format, players, teams, sets)
      ensures submitted == if errors == map[] then Some(Data()) else None
      ensures format == old(format) && players == old(players) && teams == old(teams) && sets == old(sets)
      ensures activeStep == old(activeStep) && date == old(date)
    {
      var ok := ValidateStep(activeStep);
      submitted := if ok then Some(Data()) else None;
    }

    /** `handlePlayerSelect(pid)`. */
    method HandlePlayerSelect(pid: string)
      requires Valid()
      modifies this
      ensures Valid()
      ensures players == if format == SINGLES then SelectSingle(old(players), pid) else old(players)
      ensures teams == if format == DOUBLES then SelectDouble(old(teams), pid) else old(teams)
      ensures format == old(format) && sets == old(sets) && errors == old(errors) && activeStep == old(activeStep)
      ensures date == old(date)
    {
      if format == SINGLES {
        SelectSingleKeepsRoster(players, pid);
        if pid in players {
          players := Filter(players, (id: string) => id != pid);
        } else if |players| < 2 {
          players := players + [pid];
        }
      } else if format == DOUBLES {
        SelectDoubleKeepsTeams(teams, pid);
        var team1Has := pid in teams[0];
        var team2Has := pid in teams[1];
        if team1Has || team2Has {
          teams := [if team1Has then Filter(teams[0], (id: string) => id != pid) else teams[0],
                    if team2Has then Filter(teams[1], (id: string) => id != pid) else teams[1]];
        } else {
          var teamIndex := 0;
          if |teams[0]| >= 2 {
            teamIndex := 1;
          }
          if |teams[teamIndex]| < 2 {
            teams := teams[teamIndex := teams[teamIndex] + [pid]];
          }
        }
      }
    }

    /** `handleAddSet`: a new last set numbered `count + 1`, both sides at 0 games, no winner. */
    method HandleAddSet()
      requires Valid()
      modifies this`sets
      ensures Valid()
      ensures sets == old(sets)[|old(sets).Keys| + 1 := NewSet(format, players, teams)]
      ensures SetList(sets) == SetList(old(sets)) + [NewSet(format, players, teams)]
      ensures unchanged(`format, `players, `teams, `errors, `activeStep)
    {
      sets := AddSet(sets, format, players, teams);
    }

    /**
     * `handleRemoveSet(k)`: deletes set `k` and renumbers the others 1..n-1,
     * listed in the order they had.
     */
    method HandleRemoveSet(k: nat)
      requires Valid()
      modifies this`sets
      ensures Valid()
      ensures sets == Renumber(SetList(old(sets) - {k}))
      ensures k in old(sets) ==> SetList(sets) == SetList(old(sets))[..k - 1] + SetList(old(sets))[k..]
      ensures k !in old(sets) ==> SetList(sets) == SetList(old(sets))
      ensures unchanged(`format, `players, `teams, `errors, `activeStep)
    {
      sets := RemoveSet(sets, k);
    }

    /**
     * `handleSetScoreChange(k, side, value)`: sets one side's games in set
     * `k`, derives that set's winner again, and clears a reported tie of
     * that set. `k` must be an existing set: the source reads its games.
     */
    method HandleSetScoreChange(k: nat, side: string, value: int)
      requires Valid() && k in sets
      modifies this`sets, this`errors
      ensures Valid()
      ensures sets == old(sets)[k := ScoredSet(old(sets)[k], format, players, teams, side, value)]
      ensures errors == if SetKey(k) in old(errors) && Truthy(old(errors)[SetKey(k)])
                        then old(errors)[SetKey(k) := None] else old(errors)
      ensures unchanged(`format, `players, `teams, `activeStep)
    {
      var r := ScoreSet(sets, k, format, players, teams, side, value);
      assert Roster(players) && TeamsOk(teams);
      sets := r;
      if SetKey(k) in errors && Truthy(errors[SetKey(k)]) {
        errors := errors[SetKey(k) := None];
      }
    }

    /**
     * The confirmation step's winner line: the winning player's name, "Команда 1"
     * or "Команда 2", or empty on equal set counts.
     */
    function ConfirmationWinner(roster: seq<Player>): (r: string)
      requires Valid()
      reads this
      ensures r == "" <==> ConfirmedSide(format, players, teams, sets) == None || (format == SINGLES && PlayerName(roster, At(players, ConfirmedSide(format, players, teams, sets).value)) == "")
    {
      match ConfirmedSide(format, players, teams, sets)
      case None => ""
      case Some(i) =>
        if format == SINGLES then PlayerName(roster, At(players, i))
        else if i == 0 then TEAM_1 else TEAM_2
    }
  }

  /** The score change on the sets: set `k` takes its new games and winner, its number and the others stay. */
  method ScoreSet(sets: map<nat, GameSet>, k: nat, format: string, players: seq<string>, teams: seq<seq<string>>,
                  side: string, value: int) returns (r: map<nat, GameSet>)
    requires Dense(sets) && k in sets && |teams| == 2
    ensures r == sets[k := ScoredSet(sets[k], format, players, teams, side, value)]
    ensures Dense(r)
  {
    var current := sets[k];
    var updatedGames := current.games[side := value];
    var winner := current.winner;
    if format == SINGLES {
      winner := AutoWinner(updatedGames, At(players, 0), At(players, 1), side, value);
    } else if format == DOUBLES {
      winner := AutoWinner(updatedGames, TeamId(teams[0]), TeamId(teams[1]), side, value);
    }
    var scored := GameSet(updatedGames, winner);
    assert scored == ScoredSet(current, format, players, teams, side, value);
    assert sets[k := scored].Keys == sets.Keys;
    r := sets[k := scored];
  }

  /** The sets left after removing set `k`, in the order `Object.values` lists them. */
  lemma RemovedSets(sets: map<nat, GameSet>, k: nat)
    requires Dense(sets)
    ensures k in sets ==> SetList(sets - {k}) == SetList(sets)[..k - 1] + SetList(sets)[k..]
    ensures k !in sets ==> SetList(sets - {k}) == SetList(sets)
  {
    if k in sets {
      DenseRemove(sets, k);
    } else {
      assert sets - {k} == sets;
    }
  }

  /** The errors `validateStep(step)` collects, by the same branches. */
  method CollectErrors(step: int, format: string, players: seq<string>, teams: seq<seq<string>>, sets: map<nat, GameSet>)
    returns (newErrors: Errors)
    requires |teams| == 2
    ensures newErrors == StepErrors(step, format, players, teams, sets)
  {
    newErrors := map[];
    if step == 0 {
      if format == SINGLES {
        if |players| != 2 {
          newErrors := newErrors["players" := Some(PLAYERS_COUNT)];
        } else if players[0] == players[1] {
          newErrors := newErrors["players" := Some(PLAYERS_DISTINCT)];
        }
      } else if format == DOUBLES {
        var all := teams[0] + teams[1];
        if |all| != 4 {
          newErrors := newErrors["teams" := Some(TEAMS_COUNT)];
        } else if |ToSet(all)| != 4 {
          newErrors := newErrors["teams" := Some(TEAMS_DISTINCT)];
        }
      }
    } else if step == 1 {
      var setNumbers := SortedKeys(sets);
      if |setNumbers| == 0 {
        newErrors := newErrors["sets" := Some(NO_SETS)];
      } else if SideKeys(format, players, teams).Some? {
        var (a, b) := SideKeys(format, players, teams).value;
        newErrors := CheckSetsLoop(sets, setNumbers, a, b);
      }
    }
  }

  /**
   * The new `sets` of `handleAddSet`: the next number holds a set with both
   * sides at 0 games and no winner, listed after the others.
   */
  method AddSet(sets: map<nat, GameSet>, format: string, players: seq<string>, teams: seq<seq<string>>)
    returns (r: map<nat, GameSet>)
    requires Dense(sets) && |teams| == 2
    ensures r == sets[|sets.Keys| + 1 := NewSet(format, players, teams)]
    ensures Dense(r) && SetList(r) == SetList(sets) + [NewSet(format, players, teams)]
  {
    var nextSetNumber := |sets.Keys| + 1;
    var games: map<string, int> := map[];
    if format == SINGLES {
      games := games[At(players, 0) := 0];
      games := games[At(players, 1) := 0];
    } else if format == DOUBLES {
      games := games[TeamId(teams[0]) := 0];
      games := games[TeamId(teams[1]) := 0];
    }
    var newSet := GameSet(games, None);
    assert newSet == NewSet(format, players, teams);
    r := sets[nextSetNumber := newSet];
    SetListAppend(sets, newSet);
  }

  /** The loop of step 1 of `validateStep` over the set numbers `ks`, in order. */
  method CheckSetsLoop(sets: map<nat, GameSet>, ks: seq<nat>, a: string, b: string) returns (newErrors: Errors)
    requires forall i :: 0 <= i < |ks| ==> ks[i] in sets
    ensures newErrors == CheckSets(sets, ks, a, b)
  {
    newErrors := map[];
    for i := 0 to |ks|
      invariant newErrors == CheckSets(sets, ks[..i], a, b)
    {
      var k := ks[i];
      assert ks[..i + 1][..i] == ks[..i];
      var current := sets[k];
      if ValueOr0(current.games, a) == ValueOr0(current.games, b) {
        newErrors := newErrors[SetKey(k) := Some(TIE)];
      }
      if !Truthy(current.winner) {
        newErrors := newErrors[SetWinnerKey(k) := Some(NO_SET_WINNER)];
      }
    }
    assert ks[..|ks|] == ks;
  }

  /** The new `sets` of `handleRemoveSet(k)`: the others renumbered 1..n-1 in the order they had. */
  method RemoveSet(sets: map<nat, GameSet>, k: nat) returns (r: map<nat, GameSet>)
    requires Dense(sets)
    ensures r == Renumber(SetList(sets - {k})) && Dense(r)
    ensures k in sets ==> SetList(r) == SetList(sets)[..k - 1] + SetList(sets)[k..]
    ensures k !in sets ==> SetList(r) == SetList(sets)
  {
    var newSets := sets - {k};
    var remaining := SetList(newSets);
    r := RenumberSets(remaining);
    RemovedSets(sets, k);
    SetListRenumber(remaining);
  }

  /** The renumbering loop of `handleRemoveSet`: the listed sets stored under 1, 2, ... in order. */
  method RenumberSets(remaining: seq<GameSet>) returns (renumbered: map<nat, GameSet>)
    ensures renumbered == Renumber(remaining)
  {
    renumbered := map[];
    var index := 1;
    for i := 0 to |remaining|
      invariant index == i + 1
      invariant renumbered == Renumber(remaining[..i])
    {
      assert remaining[..i + 1][..i] == remaining[..i];
      renumbered := renumbered[index := remaining[i]];
      index := index + 1;
    }
    assert remaining[..|remaining|] == remaining;
  }

  /** A form that passed step 0 holds a match the scoring engine can read. */
  lemma Step0MakesReadable(format: string, players: seq<string>, teams: seq<seq<string>>, sets: map<nat, GameSet>)
    requires |teams| == 2 && Step0Ok(format, players, teams)
    ensures Readable(MatchInput(format, players, teams, sets))
  {
  }

  /**
   * Removing set `k` from densely numbered sets lists the others in their
   * order, without the `k`-th.
   */
  lemma DenseRemove(sets: map<nat, GameSet>, k: nat)
    requires Dense(sets) && k in sets
    ensures SetList(sets - {k}) == SetList(sets)[..k - 1] + SetList(sets)[k..]
  {
    var rest := sets - {k};
    assert rest[k := sets[k]] == sets;
    var i := SetListInsert(rest, k, sets[k]);
    DenseKeys(sets);
    assert i == k - 1;
    SpliceParts(SetList(rest), sets[k], i);
  }
}
