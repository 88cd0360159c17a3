/**
 * The data behind the all-players progress chart: for the selected format,
 * one tracker entry per player (singles) or per team id (doubles) with a
 * running total, one coloured line per entrant whose total is positive, and
 * one row per match holding every entrant's value after that match.
 */
module CombinedChart {
  import opened Wrappers
  import opened MatchData
  import opened Sorting
  import opened AppData
  import opened Statistics
  import opened ProgressChart

  const PALETTE: seq<string> := ["#4F46E5", "#16A34A", "#EA580C", "#2563EB", "#DC2626",
                                 "#7C3AED", "#0891B2", "#CA8A04", "#DB2777", "#059669"]

  /** What reading a block-scoped constant outside its block raises. */
  const TRACKER_ERROR := ReferenceError("teamTracker is not defined")

  /** One line of the chart: an entrant and its colour. */
  datatype Line = Line(id: string, name: string, color: string)

  /** One row of the chart: the match time (standing for its day label) and each entrant's value. */
  datatype Row = Row(createdAt: int, values: map<string, int>)

  /** What the effect leaves behind: nothing, or the lines it set and the rows (or what it raised). */
  datatype ChartUpdate = NoUpdate | Update(lines: seq<Line>, rows: Result<seq<Row>>)

  /**
   * `pointsTracker` / `teamTracker`: an object keyed by entrant id, which
   * keeps its keys in insertion order, each with a name and a running total.
   */
  datatype Tracker = Tracker(order: seq<string>, names: map<string, string>, totals: map<string, int>)

  const EMPTY := Tracker([], map[], map[])

  /** The keys are listed once each, in insertion order, and each has a name and a total. */
  ghost predicate Tracks(t: Tracker)
  {
    && Distinct(t.order)
    && (forall e :: e in t.totals <==> e in t.order)
    && (forall e :: e in t.names <==> e in t.order)
  }

  /** Adds an entrant at 0 unless it is already tracked. */
  function Enter(t: Tracker, id: string, name: string): Tracker
  {
    if id in t.totals then t else Tracker(t.order + [id], t.names[id := name], t.totals[id := 0])
  }

  /** Adds points to a tracked entrant's total. */
  function Add(t: Tracker, id: string, pts: int): Tracker
    requires id in t.totals
  {
    t.(totals := t.totals[id := t.totals[id] + pts])
  }

  /** The display name of a team: its members' names joined with " і ". */
  function TeamName(players: seq<Player>, team: seq<string>): string
  {
    Join(MemberNames(players, team), NAME_SEPARATOR)
  }

  /** Singles tracker: every known player id from 0, in `players` order. */
  function PlayerTracker(ps: seq<Player>, players: seq<Player>): Tracker
  {
    if ps == [] then EMPTY
    else Enter(PlayerTracker(ps[..|ps| - 1], players), ps[|ps| - 1].id, MemberName(players, ps[|ps| - 1].id))
  }

  /** One singles match: every tracked player gains their points; other ids are ignored. */
  function BumpPlayers(t: Tracker, pts: map<string, int>): Tracker
  {
    t.(totals := map e | e in t.totals :: t.totals[e] + ValueOr0(pts, e))
  }

  /** One doubles match: each team is tracked on first sight and gains its team's points. */
  function BumpTeams(t: Tracker, teams: seq<seq<string>>, pts: map<string, int>, players: seq<Player>): Tracker
  {
    if teams == [] then t
    else
      var id := TeamId(teams[|teams| - 1]);
      var u := Enter(BumpTeams(t, teams[..|teams| - 1], pts, players), id, TeamName(players, teams[|teams| - 1]));
      Add(u, id, ValueOr0(pts, id))
  }

  function Bump(t: Tracker, m: Match, doubles: bool, players: seq<Player>): Tracker
  {
    if doubles then BumpTeams(t, m.teams, m.pointsEarned.points, players)
    else BumpPlayers(t, m.pointsEarned.points)
  }

  /** The tracker after a run of matches. */
  function Replay(t: Tracker, ms: seq<Match>, doubles: bool, players: seq<Player>): Tracker
  {
    if ms == [] then t else Bump(Replay(t, ms[..|ms| - 1], doubles, players), ms[|ms| - 1], doubles, players)
  }

  /** The team ids of a list of teams. */
  function TeamIds(teams: seq<seq<string>>): set<string>
  {
    set team | team in teams :: TeamId(team)
  }

  /** The team ids of a run of matches (none in singles). */
  function MatchTeamIds(ms: seq<Match>, doubles: bool): set<string>
  {
    if ms == [] || !doubles then {} else MatchTeamIds(ms[..|ms| - 1], doubles) + TeamIds(ms[|ms| - 1].teams)
  }

  /** What team id `e` gains from a match's team list: its points once per team with that id. */
  function TeamGain(teams: seq<seq<string>>, e: string, pts: map<string, int>): int
  {
    if teams == [] then 0
    else TeamGain(teams[..|teams| - 1], e, pts) + (if TeamId(teams[|teams| - 1]) == e then ValueOr0(pts, e) else 0)
  }

  /** What entrant `e` gains from one match. */
  function Gain(m: Match, e: string, doubles: bool): int
  {
    if doubles then TeamGain(m.teams, e, m.pointsEarned.points) else ValueOr0(m.pointsEarned.points, e)
  }

  /** What entrant `e` gains from a run of matches. */
  function TotalOf(ms: seq<Match>, e: string, doubles: bool): int
  {
    if ms == [] then 0 else TotalOf(ms[..|ms| - 1], e, doubles) + Gain(ms[|ms| - 1], e, doubles)
  }

  /** The matches of the selected format, oldest first (ties keep their stored order). */
  function Chronological(matches: seq<Match>, format: string): seq<Match>
  {
    SortDesc(Filter(matches, HasFormat(format)), OldestFirst())
  }

  /** `sortedMatches.find(m => m.id === sorted[k].id)`: the first match sharing the `k`-th match's id. */
  function CurrentMatch(sorted: seq<Match>, k: nat): Match
    requires k < |sorted|
  {
    assert MatchIdIs(sorted[k].id)(sorted[k]);
    Find(sorted, MatchIdIs(sorted[k].id)).value
  }

  function Currents(sorted: seq<Match>): seq<Match>
  {
    seq(|sorted|, k requires 0 <= k < |sorted| => CurrentMatch(sorted, k))
  }

  /** Row `k`: the tracker after the first pass, replayed again over the current matches up to `k`. */
  function RowAt(t: Tracker, sorted: seq<Match>, k: nat, doubles: bool, players: seq<Player>): Row
    requires k < |sorted|
  {
    Row(sorted[k].createdAt, Replay(t, Currents(sorted)[..k + 1], doubles, players).totals)
  }

  function ChartRows(t: Tracker, sorted: seq<Match>, doubles: bool, players: seq<Player>): seq<Row>
  {
    seq(|sorted|, k requires 0 <= k < |sorted| => RowAt(t, sorted, k, doubles, players))
  }

  /** The key of the final sort of the rows by time, oldest first. */
  function RowOldestFirst(): Row -> real
  {
    (r: Row) => -(r.createdAt as real)
  }

  function NameOf(t: Tracker, e: string): string
  {
    if e in t.names then t.names[e] else ""
  }

  /** The lines for the first `n` tracked entrants: those with a positive total, coloured by position. */
  function LinesOf(t: Tracker, n: nat): seq<Line>
    requires n <= |t.order|
  {
    if n == 0 then []
    else
      var e := t.order[n - 1];
      LinesOf(t, n - 1) + (if ValueOr0(t.totals, e) > 0 then [Line(e, NameOf(t, e), PALETTE[(n - 1) % |PALETTE|])] else [])
  }

  /** The tracker the first pass starts from. */
  function StartTracker(players: seq<Player>, format: string): Tracker
  {
    if format == SINGLES then PlayerTracker(players, players) else EMPTY
  }

  /**
   * The effect with the team tracker in scope of the row loop: nothing
   * without matches, players or matches of the format; otherwise the lines
   * from the first pass and the rows, sorted by time.
   */
  function Chart(matches: seq<Match>, players: seq<Player>, format: string): ChartUpdate
  {
    var sorted := Chronological(matches, format);
    if matches == [] || players == [] || sorted == [] then NoUpdate
    else
      var doubles := format == DOUBLES;
      var t := Replay(StartTracker(players, format), sorted, doubles, players);
      Update(LinesOf(t, |t.order|), Success(SortDesc(ChartRows(t, sorted, doubles, players), RowOldestFirst())))
  }

  /** The effect as written: in doubles the row loop reads `teamTracker` outside its block and raises. */
  function ChartAsWritten(matches: seq<Match>, players: seq<Player>, format: string): ChartUpdate
  {
    var c := Chart(matches, players, format);
    if c.Update? && format == DOUBLES then Update(c.lines, Failure(TRACKER_ERROR)) else c
  }

  // ---------------------------------------------------------------------
  // The effect body, loop by loop.
  // ---------------------------------------------------------------------

  /** The effect as written. */
  method PrepareChartAsWritten(matches: seq<Match>, players: seq<Player>, format: string) returns (r: ChartUpdate)
    ensures r == ChartAsWritten(matches, players, format)
  {
    var sorted := Chronological(matches, format);
    if matches == [] || players == [] || sorted == [] {
      return NoUpdate;
    }
    var doubles := format == DOUBLES;
    var t0 := StartTracker(players, format);
    if format == SINGLES {
      t0 := TrackPlayers(players);
      PlayerTrackerSpec(players, players);
    }
    ReplayEffect(t0, sorted, doubles, players);
    var t := FirstPass(t0, sorted, doubles, players);
    var lines := BuildLines(t);
    if doubles {
      return Update(lines, Failure(TRACKER_ERROR));
    }
    var rows := BuildRows(t, sorted, doubles, players);
    r := Update(lines, Success(SortDesc(rows, RowOldestFirst())));
  }

  /** The effect with the team tracker in scope of the row loop. */
  method PrepareChart(matches: seq<Match>, players: seq<Player>, format: string) returns (r: ChartUpdate)
    ensures r == Chart(matches, players, format)
  {
    var sorted := Chronological(matches, format);
    if matches == [] || players == [] || sorted == [] {
      return NoUpdate;
    }
    var doubles := format == DOUBLES;
    var t0 := StartTracker(players, format);
    if format == SINGLES {
      t0 := TrackPlayers(players);
      PlayerTrackerSpec(players, players);
    }
    ReplayEffect(t0, sorted, doubles, players);
    var t := FirstPass(t0, sorted, doubles, players);
    var lines := BuildLines(t);
    var rows := BuildRows(t, sorted, doubles, players);
    r := Update(lines, Success(SortDesc(rows, RowOldestFirst())));
  }

  /** Tracks every player id from 0. */
  method TrackPlayers(players: seq<Player>) returns (t: Tracker)
    ensures t == PlayerTracker(players, players)
  {
    t := EMPTY;
    for i := 0 to |players|
      invariant t == PlayerTracker(players[..i], players)
    {
      assert players[..i + 1] == players[..i] + [players[i]];
      PlayerTrackerSnoc(players[..i], players[i], players);
      t := EnterMethod(t, players[i].id, MemberName(players, players[i].id));
    }
    assert players[..|players|] == players;
  }

  /** Tracks `id` at 0 under `name` unless it is already tracked. */
  method EnterMethod(t: Tracker, id: string, name: string) returns (r: Tracker)
    ensures r == Enter(t, id, name)
  {
    r := t;
    if id !in r.totals {
      r := Tracker(r.order + [id], r.names[id := name], r.totals[id := 0]);
    }
  }

  /** Tracking one more player enters that player's id. */
  lemma PlayerTrackerSnoc(ps: seq<Player>, p: Player, players: seq<Player>)
    ensures PlayerTracker(ps + [p], players) == Enter(PlayerTracker(ps, players), p.id, MemberName(players, p.id))
  {
    assert (ps + [p])[..|ps|] == ps;
  }

  /** Adds a singles match's points to every tracked player. */
  method BumpPlayersMethod(t: Tracker, pts: map<string, int>) returns (r: Tracker)
    requires Tracks(t)
    ensures r == BumpPlayers(t, pts)
  {
    var totals := t.totals;
    for j := 0 to |t.order|
      invariant totals == Bumped(t, pts, t.order[..j])
    {
      var e := t.order[j];
      OrderStep(t, j);
      BumpedSnoc(t, pts, t.order[..j], e);
      if e in pts && pts[e] != 0 {
        totals := totals[e := totals[e] + pts[e]];
      }
    }
    assert t.order[..|t.order|] == t.order;
    BumpedAll(t, pts);
    r := t.(totals := totals);
  }

  /** The `j`-th tracked entrant comes after the earlier ones and is not among them. */
  lemma OrderStep(t: Tracker, j: nat)
    requires Tracks(t) && j < |t.order|
    ensures t.order[..j + 1] == t.order[..j] + [t.order[j]]
    ensures t.order[j] in t.totals && t.order[j] !in t.order[..j]
  {
    forall h | 0 <= h < j
      ensures t.order[h] != t.order[j]
    {
    }
  }

  /** The totals with the entrants of `done` credited with their points. */
  ghost function Bumped(t: Tracker, pts: map<string, int>, done: seq<string>): map<string, int>
  {
    map e | e in t.totals :: t.totals[e] + (if e in done then ValueOr0(pts, e) else 0)
  }

  lemma BumpedSnoc(t: Tracker, pts: map<string, int>, done: seq<string>, e: string)
    requires e in t.totals && e !in done
    ensures var b := Bumped(t, pts, done);
      && e in b
      && Bumped(t, pts, done + [e]) == (if e in pts && pts[e] != 0 then b[e := b[e] + pts[e]] else b)
  {
  }

  lemma BumpedAll(t: Tracker, pts: map<string, int>)
    requires Tracks(t)
    ensures Bumped(t, pts, t.order) == BumpPlayers(t, pts).totals
  {
  }

  /** Tracks and credits each team of a doubles match in turn. */
  method BumpTeamsMethod(t: Tracker, teams: seq<seq<string>>, pts: map<string, int>, players: seq<Player>) returns (r: Tracker)
    ensures r == BumpTeams(t, teams, pts, players)
  {
    r := t;
    for j := 0 to |teams|
      invariant r == BumpTeams(t, teams[..j], pts, players)
    {
      BumpTeamsStep(t, teams, j, pts, players);
      r := CreditTeam(r, TeamId(teams[j]), TeamName(players, teams[j]), pts);
    }
    assert teams[..|teams|] == teams;
  }

  /** The body of the loop over one doubles match's teams: track the team on first sight, then add its points. */
  method CreditTeam(r0: Tracker, id: string, name: string, pts: map<string, int>) returns (r: Tracker)
    ensures r == Add(Enter(r0, id, name), id, ValueOr0(pts, id))
  {
    r := r0;
    if id !in r.totals {
      r := Tracker(r.order + [id], r.names[id := name], r.totals[id := 0]);
    }
    if id in pts && pts[id] != 0 {
      r := r.(totals := r.totals[id := r.totals[id] + pts[id]]);
    } else {
      assert r.totals[id := r.totals[id] + 0] == r.totals;
    }
  }

  /** Crediting one more team enters its id and adds its points. */
  lemma BumpTeamsStep(t: Tracker, teams: seq<seq<string>>, j: nat, pts: map<string, int>, players: seq<Player>)
    requires j < |teams|
    ensures BumpTeams(t, teams[..j + 1], pts, players) ==
      Add(Enter(BumpTeams(t, teams[..j], pts, players), TeamId(teams[j]), TeamName(players, teams[j])),
          TeamId(teams[j]), ValueOr0(pts, TeamId(teams[j])))
  {
    var ts := teams[..j + 1];
    assert ts != [] && ts[..|ts| - 1] == teams[..j] && ts[|ts| - 1] == teams[j];
  }

  method BumpMatch(t: Tracker, m: Match, doubles: bool, players: seq<Player>) returns (r: Tracker)
    requires Tracks(t)
    ensures r == Bump(t, m, doubles, players)
  {
    if doubles {
      r := BumpTeamsMethod(t, m.teams, m.pointsEarned.points, players);
    } else {
      r := BumpPlayersMethod(t, m.pointsEarned.points);
    }
  }

  /** The first pass over the sorted matches. */
  method FirstPass(t: Tracker, sorted: seq<Match>, doubles: bool, players: seq<Player>) returns (r: Tracker)
    requires Tracks(t)
    ensures r == Replay(t, sorted, doubles, players)
  {
    r := t;
    for i := 0 to |sorted|
      invariant r == Replay(t, sorted[..i], doubles, players)
    {
      assert sorted[..i + 1][..i] == sorted[..i];
      ReplayEffect(t, sorted[..i], doubles, players);
      r := BumpMatch(r, sorted[i], doubles, players);
    }
    assert sorted[..|sorted|] == sorted;
  }

  /** The line list. */
  method BuildLines(t: Tracker) returns (lines: seq<Line>)
    ensures lines == LinesOf(t, |t.order|)
  {
    lines := [];
    for i := 0 to |t.order|
      invariant lines == LinesOf(t, i)
    {
      var e := t.order[i];
      if e in t.totals && t.totals[e] > 0 {
        lines := lines + [Line(e, NameOf(t, e), PALETTE[i % |PALETTE|])];
      }
    }
  }

  /** The row loop: each match's current match is replayed again over the first-pass totals. */
  method BuildRows(t: Tracker, sorted: seq<Match>, doubles: bool, players: seq<Player>) returns (rows: seq<Row>)
    requires Tracks(t)
    ensures rows == ChartRows(t, sorted, doubles, players)
  {
    var cum := t;
    rows := [];
    ghost var cs := Currents(sorted);
    for k := 0 to |sorted|
      invariant cum == Replay(t, cs[..k], doubles, players)
      invariant RowsUpTo(rows, t, sorted, k, doubles, players)
    {
      assert MatchIdIs(sorted[k].id)(sorted[k]);
      var cur := Find(sorted, MatchIdIs(sorted[k].id)).value;
      assert cur == cs[k];
      ReplayTracks(t, cs[..k], doubles, players);
      ReplayStep(t, cs, k, doubles, players);
      cum := BumpMatch(cum, cur, doubles, players);
      RowsSnoc(rows, t, sorted, k, doubles, players);
      rows := rows + [Row(sorted[k].createdAt, cum.totals)];
    }
  }

  /** `rows` holds the first `k` rows of the chart. */
  ghost predicate RowsUpTo(rows: seq<Row>, t: Tracker, sorted: seq<Match>, k: nat, doubles: bool, players: seq<Player>)
  {
    k <= |sorted| && |rows| == k && forall j :: 0 <= j < k ==> rows[j] == RowAt(t, sorted, j, doubles, players)
  }

  /** One more row, and the last one completes the chart. */
  lemma RowsSnoc(rows: seq<Row>, t: Tracker, sorted: seq<Match>, k: nat, doubles: bool, players: seq<Player>)
    requires k < |sorted| && RowsUpTo(rows, t, sorted, k, doubles, players)
    ensures RowsUpTo(rows + [RowAt(t, sorted, k, doubles, players)], t, sorted, k + 1, doubles, players)
    ensures k + 1 == |sorted| ==> rows + [RowAt(t, sorted, k, doubles, players)] == ChartRows(t, sorted, doubles, players)
  {
  }

  /** Replaying one more match is one more bump. */
  lemma ReplayStep(t: Tracker, ms: seq<Match>, k: nat, doubles: bool, players: seq<Player>)
    requires k < |ms|
    ensures Replay(t, ms[..k + 1], doubles, players) == Bump(Replay(t, ms[..k], doubles, players), ms[k], doubles, players)
  {
    assert ms[..k + 1][..k] == ms[..k];
  }

  /** Replaying keeps the tracker well formed. */
  lemma ReplayTracks(t: Tracker, ms: seq<Match>, doubles: bool, players: seq<Player>)
    requires Tracks(t)
    ensures Tracks(Replay(t, ms, doubles, players))
  {
    ReplayEffect(t, ms, doubles, players);
  }

  // ---------------------------------------------------------------------
  // What the tracker holds.
  // ---------------------------------------------------------------------

  lemma EnterTracks(t: Tracker, id: string, name: string)
    requires Tracks(t)
    ensures Tracks(Enter(t, id, name))
  {
    if id !in t.totals {
      DistinctSnoc(t.order, id);
    }
  }

  /** Adding points keeps the tracker well formed. */
  lemma AddTracks(t: Tracker, id: string, pts: int)
    requires Tracks(t) && id in t.totals
    ensures Tracks(Add(t, id, pts))
  {
  }

  /** A team id that no team of the list has gains nothing. */
  lemma {:induction false} TeamGainAbsent(teams: seq<seq<string>>, e: string, pts: map<string, int>)
    requires e !in TeamIds(teams)
    ensures TeamGain(teams, e, pts) == 0
  {
    if teams != [] {
      assert TeamIds(teams[..|teams| - 1]) <= TeamIds(teams) by {
        forall x | x in TeamIds(teams[..|teams| - 1])
          ensures x in TeamIds(teams)
        {
          var team :| team in teams[..|teams| - 1] && TeamId(team) == x;
          assert team in teams;
        }
      }
      TeamGainAbsent(teams[..|teams| - 1], e, pts);
      assert TeamId(teams[|teams| - 1]) in TeamIds(teams);
    }
  }

  lemma TeamIdsSnoc(teams: seq<seq<string>>)
    requires teams != []
    ensures TeamIds(teams) == TeamIds(teams[..|teams| - 1]) + {TeamId(teams[|teams| - 1])}
  {
    assert teams == teams[..|teams| - 1] + [teams[|teams| - 1]];
  }

  /** `r` is `t` with the teams of `teams` tracked and credited. */
  ghost predicate Credited(t: Tracker, r: Tracker, teams: seq<seq<string>>, pts: map<string, int>)
  {
    && r.totals.Keys == t.totals.Keys + TeamIds(teams)
    && forall e :: e in r.totals ==> r.totals[e] == ValueOr0(t.totals, e) + TeamGain(teams, e, pts)
  }

  /** Tracking and crediting one more team. */
  lemma CreditedSnoc(t: Tracker, r0: Tracker, init: seq<seq<string>>, team: seq<string>, pts: map<string, int>, name: string)
    requires Credited(t, r0, init, pts)
    ensures Credited(t, Add(Enter(r0, TeamId(team), name), TeamId(team), ValueOr0(pts, TeamId(team))), init + [team], pts)
  {
    var teams := init + [team];
    var id := TeamId(team);
    TeamIdsSnoc(teams);
    assert teams[..|teams| - 1] == init;
    var r := Add(Enter(r0, id, name), id, ValueOr0(pts, id));
    EnterAddKeys(r0, id, name, ValueOr0(pts, id));
    UnionAssoc(t.totals.Keys, TeamIds(init), {id});
    forall e | e in r.totals
      ensures r.totals[e] == ValueOr0(t.totals, e) + TeamGain(teams, e, pts)
    {
      CreditedAt(t, r0, init, team, pts, name, e);
    }
  }

  /** Entering and crediting an id adds exactly that id. */
  lemma EnterAddKeys(r0: Tracker, id: string, name: string, pts: int)
    ensures Add(Enter(r0, id, name), id, pts).totals.Keys == r0.totals.Keys + {id}
  {
  }

  /** Set union regroups freely. */
  lemma UnionAssoc(a: set<string>, b: set<string>, c: set<string>)
    ensures (a + b) + c == a + (b + c)
  {
  }

  /** The total of one entrant after one more team is tracked and credited. */
  lemma CreditedAt(t: Tracker, r0: Tracker, init: seq<seq<string>>, team: seq<string>, pts: map<string, int>, name: string, e: string)
    requires Credited(t, r0, init, pts)
    requires e in r0.totals || e == TeamId(team)
    ensures var r := Add(Enter(r0, TeamId(team), name), TeamId(team), ValueOr0(pts, TeamId(team)));
      r.totals[e] == ValueOr0(t.totals, e) + TeamGain(init + [team], e, pts)
  {
    TeamGainSnoc(init, team, e, pts);
    if e !in r0.totals {
      TeamGainAbsent(init, e, pts);
    }
  }

  lemma TeamGainSnoc(init: seq<seq<string>>, team: seq<string>, e: string, pts: map<string, int>)
    ensures TeamGain(init + [team], e, pts) == TeamGain(init, e, pts) + (if TeamId(team) == e then ValueOr0(pts, e) else 0)
  {
    assert (init + [team])[..|init|] == init;
  }

  /** A doubles match tracks its team ids and adds each team's points to it. */
  lemma {:induction false} BumpTeamsEffect(t: Tracker, teams: seq<seq<string>>, pts: map<string, int>, players: seq<Player>)
    requires Tracks(t)
    ensures Tracks(BumpTeams(t, teams, pts, players))
    ensures Credited(t, BumpTeams(t, teams, pts, players), teams, pts)
  {
    if teams != [] {
      var init, last := teams[..|teams| - 1], teams[|teams| - 1];
      assert teams == init + [last];
      var r0 := BumpTeams(t, init, pts, players);
      var id, name := TeamId(last), TeamName(players, last);
      BumpTeamsEffect(t, init, pts, players);
      EnterTracks(r0, id, name);
      var u := Enter(r0, id, name);
      AddTracks(u, id, ValueOr0(pts, id));
      assert BumpTeams(t, teams, pts, players) == Add(u, id, ValueOr0(pts, id));
      CreditedSnoc(t, r0, init, last, pts, name);
    } else {
      assert TeamIds(teams) == {};
    }
  }

  /** One match of either format. */
  lemma BumpEffect(t: Tracker, m: Match, doubles: bool, players: seq<Player>)
    requires Tracks(t)
    ensures var r := Bump(t, m, doubles, players);
      && Tracks(r)
      && r.totals.Keys == t.totals.Keys + (if doubles then TeamIds(m.teams) else {})
      && forall e :: e in r.totals ==> r.totals[e] == ValueOr0(t.totals, e) + Gain(m, e, doubles)
  {
    if doubles {
      BumpTeamsEffect(t, m.teams, m.pointsEarned.points, players);
    }
  }

  /** An entrant that no match of the run has gains nothing from it. */
  lemma {:induction false} TotalOfAbsent(ms: seq<Match>, e: string)
    requires e !in MatchTeamIds(ms, true)
    ensures TotalOf(ms, e, true) == 0
  {
    if ms != [] {
      TotalOfAbsent(ms[..|ms| - 1], e);
      TeamGainAbsent(ms[|ms| - 1].teams, e, ms[|ms| - 1].pointsEarned.points);
    }
  }

  /**
   * Replaying a run of matches keeps the tracker well formed, tracks the
   * teams met (and, in singles, no one new), and adds to each entrant what
   * the run earned it.
   */
  lemma {:induction false} ReplayEffect(t: Tracker, ms: seq<Match>, doubles: bool, players: seq<Player>)
    requires Tracks(t)
    ensures var r := Replay(t, ms, doubles, players);
      && Tracks(r)
      && r.totals.Keys == t.totals.Keys + MatchTeamIds(ms, doubles)
      && forall e :: e in r.totals ==> r.totals[e] == ValueOr0(t.totals, e) + TotalOf(ms, e, doubles)
  {
    if ms != [] {
      var init := ms[..|ms| - 1];
      ReplayEffect(t, init, doubles, players);
      ReplayStepOk(t, ms, Replay(t, init, doubles, players), doubles, players);
    }
  }

  /** One more match of the run keeps the tracker's totals equal to what the run earned. */
  lemma ReplayStepOk(t: Tracker, ms: seq<Match>, r0: Tracker, doubles: bool, players: seq<Player>)
    requires ms != [] && Tracks(r0)
    requires r0.totals.Keys == t.totals.Keys + MatchTeamIds(ms[..|ms| - 1], doubles)
    requires forall e :: e in r0.totals ==> r0.totals[e] == ValueOr0(t.totals, e) + TotalOf(ms[..|ms| - 1], e, doubles)
    ensures var r := Bump(r0, ms[|ms| - 1], doubles, players);
      && Tracks(r)
      && r.totals.Keys == t.totals.Keys + MatchTeamIds(ms, doubles)
      && forall e :: e in r.totals ==> r.totals[e] == ValueOr0(t.totals, e) + TotalOf(ms, e, doubles)
  {
    var init, last := ms[..|ms| - 1], ms[|ms| - 1];
    var r := Bump(r0, last, doubles, players);
    BumpEffect(r0, last, doubles, players);
    forall e | e in r.totals
      ensures r.totals[e] == ValueOr0(t.totals, e) + TotalOf(ms, e, doubles)
    {
      if e !in r0.totals {
        TotalOfAbsent(init, e);
      }
    }
  }

  /** The ids of a list of players. */
  function PlayerIds(ps: seq<Player>): set<string>
  {
    set p | p in ps :: p.id
  }

  /** The singles tracker holds every known player id once, at 0, in `players` order. */
  lemma {:induction false} PlayerTrackerSpec(ps: seq<Player>, players: seq<Player>)
    ensures Tracks(PlayerTracker(ps, players))
    ensures PlayerTracker(ps, players).totals.Keys == PlayerIds(ps)
    ensures forall e :: e in PlayerTracker(ps, players).totals ==>
      PlayerTracker(ps, players).totals[e] == 0 && PlayerTracker(ps, players).names[e] == MemberName(players, e)
  {
    if ps != [] {
      var init, last := ps[..|ps| - 1], ps[|ps| - 1];
      var t0 := PlayerTracker(init, players);
      PlayerTrackerSpec(init, players);
      EnterTracks(t0, last.id, MemberName(players, last.id));
      PlayerIdsSnoc(ps);
    } else {
      assert PlayerIds(ps) == {};
    }
  }

  lemma PlayerIdsSnoc(ps: seq<Player>)
    requires ps != []
    ensures PlayerIds(ps) == PlayerIds(ps[..|ps| - 1]) + {ps[|ps| - 1].id}
  {
    assert ps == ps[..|ps| - 1] + [ps[|ps| - 1]];
  }

  // ---------------------------------------------------------------------
  // Properties of the chart.
  // ---------------------------------------------------------------------

  /** Rows come from the matches of the selected format, each once, oldest first. */
  lemma ChronologicalSpec(matches: seq<Match>, format: string)
    ensures var sorted := Chronological(matches, format);
      && multiset(sorted) == multiset(Filter(matches, HasFormat(format)))
      && (forall m :: m in sorted <==> m in matches && m.format == format)
      && (forall i, j :: 0 <= i < j < |sorted| ==> sorted[i].createdAt <= sorted[j].createdAt)
  {
    var sorted := Chronological(matches, format);
    SortDescProps(Filter(matches, HasFormat(format)), OldestFirst());
    FilterMembers(matches, HasFormat(format));
    forall m
      ensures m in sorted <==> m in matches && m.format == format
    {
      assert m in sorted <==> m in multiset(Filter(matches, HasFormat(format)));
    }
    forall i, j | 0 <= i < j < |sorted|
      ensures sorted[i].createdAt <= sorted[j].createdAt
    {
      assert OldestFirst()(sorted[i]) >= OldestFirst()(sorted[j]);
    }
  }

  /** A line is drawn exactly for each entrant with a positive total, coloured by its position. */
  lemma {:induction false} LinesSpec(t: Tracker, n: nat)
    requires n <= |t.order|
    ensures forall l :: l in LinesOf(t, n) ==>
      exists i :: 0 <= i < n && l == Line(t.order[i], NameOf(t, t.order[i]), PALETTE[i % 10]) && ValueOr0(t.totals, t.order[i]) > 0
    ensures forall i :: 0 <= i < n && ValueOr0(t.totals, t.order[i]) > 0 ==>
      Line(t.order[i], NameOf(t, t.order[i]), PALETTE[i % 10]) in LinesOf(t, n)
  {
    if n > 0 {
      LinesSpec(t, n - 1);
    }
  }

  /**
   * Row `k` holds a value for exactly the tracked entrants: for each, its
   * first-pass total plus what the current matches of rows 0..k earned it,
   * so the totals are counted twice.
   */
  lemma RowValues(t0: Tracker, sorted: seq<Match>, k: nat, doubles: bool, players: seq<Player>, e: string)
    requires Tracks(t0) && k < |sorted|
    ensures var t := Replay(t0, sorted, doubles, players);
      var row := RowAt(t, sorted, k, doubles, players);
      && row.createdAt == sorted[k].createdAt
      && row.values.Keys == t.totals.Keys
      && (e in t.totals ==>
           row.values[e] == ValueOr0(t0.totals, e) + TotalOf(sorted, e, doubles) + TotalOf(Currents(sorted)[..k + 1], e, doubles))
  {
    var t := Replay(t0, sorted, doubles, players);
    var cs := Currents(sorted)[..k + 1];
    var u := Replay(t, cs, doubles, players);
    assert RowAt(t, sorted, k, doubles, players) == Row(sorted[k].createdAt, u.totals);
    ReplayEffect(t0, sorted, doubles, players);
    ReplayEffect(t, cs, doubles, players);
    CurrentsIn(sorted, k + 1);
    MatchTeamIdsSub(cs, sorted, doubles);
    UnionSub(t.totals.Keys, MatchTeamIds(cs, doubles));
  }

  /** Adding a subset changes nothing. */
  lemma UnionSub(a: set<string>, b: set<string>)
    requires b <= a
    ensures a + b == a
  {
  }

  /** What a run earns grows by one match at a time. */
  lemma TotalOfSnoc(ms: seq<Match>, n: nat, e: string, doubles: bool)
    requires n < |ms|
    ensures TotalOf(ms[..n + 1], e, doubles) == TotalOf(ms[..n], e, doubles) + Gain(ms[n], e, doubles)
  {
    assert ms[..n + 1][..n] == ms[..n];
  }

  /** Every current match is one of the sorted matches. */
  lemma CurrentsIn(sorted: seq<Match>, n: nat)
    requires n <= |sorted|
    ensures forall m :: m in Currents(sorted)[..n] ==> m in sorted
  {
    forall m | m in Currents(sorted)[..n]
      ensures m in sorted
    {
      var j :| 0 <= j < n && Currents(sorted)[..n][j] == m;
      assert m == CurrentMatch(sorted, j);
    }
  }

  /** The team ids of a sub-collection of matches are among those of the whole. */
  lemma {:induction false} MatchTeamIdsSub(cs: seq<Match>, ms: seq<Match>, doubles: bool)
    requires forall m :: m in cs ==> m in ms
    ensures MatchTeamIds(cs, doubles) <= MatchTeamIds(ms, doubles)
  {
    if cs != [] && doubles {
      MatchTeamIdsSub(cs[..|cs| - 1], ms, doubles);
      MatchTeamIdsHas(ms, cs[|cs| - 1]);
    }
  }

  lemma {:induction false} MatchTeamIdsHas(ms: seq<Match>, m: Match)
    requires m in ms
    ensures TeamIds(m.teams) <= MatchTeamIds(ms, true)
  {
    if m != ms[|ms| - 1] {
      assert m in ms[..|ms| - 1] by {
        assert ms == ms[..|ms| - 1] + [ms[|ms| - 1]];
      }
      MatchTeamIdsHas(ms[..|ms| - 1], m);
    }
  }

  /** With distinct match ids each row's current match is its own match. */
  lemma CurrentsDistinct(sorted: seq<Match>)
    requires forall i, j :: 0 <= i < j < |sorted| ==> sorted[i].id != sorted[j].id
    ensures Currents(sorted) == sorted
  {
    forall k | 0 <= k < |sorted|
      ensures Currents(sorted)[k] == sorted[k]
    {
      assert MatchIdIs(sorted[k].id)(sorted[k]);
      var i := FindIndex(sorted, MatchIdIs(sorted[k].id));
      assert sorted[i].id == sorted[k].id;
    }
  }

  /** With distinct match ids the last row shows each entrant's first-pass total twice over. */
  lemma LastRowDoubles(t0: Tracker, sorted: seq<Match>, doubles: bool, players: seq<Player>, e: string)
    requires Tracks(t0) && sorted != []
    requires forall i, j :: 0 <= i < j < |sorted| ==> sorted[i].id != sorted[j].id
    requires e in Replay(t0, sorted, doubles, players).totals
    ensures var t := Replay(t0, sorted, doubles, players);
      var row := RowAt(t, sorted, |sorted| - 1, doubles, players);
      e in row.values && row.values[e] == ValueOr0(t0.totals, e) + 2 * TotalOf(sorted, e, doubles)
  {
    RowValues(t0, sorted, |sorted| - 1, doubles, players, e);
    CurrentsDistinct(sorted);
    assert Currents(sorted)[..|sorted|] == sorted;
  }

  /** A team list with non-negative points gives non-negative gains. */
  lemma {:induction false} TeamGainNonNeg(teams: seq<seq<string>>, e: string, pts: map<string, int>)
    requires forall k :: k in pts ==> pts[k] >= 0
    ensures TeamGain(teams, e, pts) >= 0
  {
    if teams != [] {
      TeamGainNonNeg(teams[..|teams| - 1], e, pts);
    }
  }

  /** A match with non-negative points gives every entrant a non-negative gain. */
  lemma GainNonNeg(m: Match, e: string, doubles: bool)
    requires forall k :: k in m.pointsEarned.points ==> m.pointsEarned.points[k] >= 0
    ensures Gain(m, e, doubles) >= 0
  {
    TeamGainNonNeg(m.teams, e, m.pointsEarned.points);
  }

  /** With non-negative points no entrant's value ever drops from one row to the next. */
  lemma RowsNonDecreasing(t0: Tracker, sorted: seq<Match>, k: nat, doubles: bool, players: seq<Player>, e: string)
    requires Tracks(t0) && k + 1 < |sorted|
    requires forall m, id :: m in sorted && id in m.pointsEarned.points ==> m.pointsEarned.points[id] >= 0
    requires e in Replay(t0, sorted, doubles, players).totals
    ensures var t := Replay(t0, sorted, doubles, players);
      var row, next := RowAt(t, sorted, k, doubles, players), RowAt(t, sorted, k + 1, doubles, players);
      e in row.values && e in next.values && row.values[e] <= next.values[e]
  {
    RowValues(t0, sorted, k, doubles, players, e);
    RowValues(t0, sorted, k + 1, doubles, players, e);
    var cs := Currents(sorted);
    TotalOfSnoc(cs, k + 1, e, doubles);
    CurrentsIn(sorted, k + 2);
    assert cs[k + 1] in cs[..k + 2];
    GainNonNeg(cs[k + 1], e, doubles);
  }

  /** The final sort by time leaves the rows as they are, since they are built oldest first. */
  lemma RowsAlreadySorted(t: Tracker, sorted: seq<Match>, doubles: bool, players: seq<Player>)
    requires forall i, j :: 0 <= i < j < |sorted| ==> sorted[i].createdAt <= sorted[j].createdAt
    ensures SortDesc(ChartRows(t, sorted, doubles, players), RowOldestFirst()) == ChartRows(t, sorted, doubles, players)
  {
    var rows := ChartRows(t, sorted, doubles, players);
    forall i, j | 0 <= i < j < |rows|
      ensures RowOldestFirst()(rows[i]) >= RowOldestFirst()(rows[j])
    {
      assert rows[i].createdAt == sorted[i].createdAt && rows[j].createdAt == sorted[j].createdAt;
    }
    SortDescSorted(rows, RowOldestFirst());
  }

  /**
   * The input that shows the defect: one doubles match is enough for the
   * effect as written to raise after setting the lines, where the intended
   * effect produces its row.
   */
  lemma DoublesRowsRaise()
    ensures var m := Match("m1", DOUBLES, ["a", "b", "c", "d"], [["a", "b"], ["c", "d"]], map[], 0,
                           PointsEarned(WinnerId("a-b"), map["a-b" := 19, "c-d" := 6], 2));
      var players := [Player("a", "Ann", 0.0, 0, 0, 0, 0)];
      && ChartAsWritten([m], players, DOUBLES).Update?
      && ChartAsWritten([m], players, DOUBLES).rows == Failure(TRACKER_ERROR)
      && Chart([m], players, DOUBLES).rows.Success?
      && |Chart([m], players, DOUBLES).rows.value| == 1
  {
    var m := Match("m1", DOUBLES, ["a", "b", "c", "d"], [["a", "b"], ["c", "d"]], map[], 0,
                   PointsEarned(WinnerId("a-b"), map["a-b" := 19, "c-d" := 6], 2));
    var players := [Player("a", "Ann", 0.0, 0, 0, 0, 0)];
    assert Chronological([m], DOUBLES) == [m] by {
      assert [m][..0] == [];
      assert Filter([m], HasFormat(DOUBLES)) == [m];
      assert SortDesc([m], OldestFirst()) == [m];
    }
    var t := Replay(StartTracker(players, DOUBLES), [m], true, players);
    var rows := ChartRows(t, [m], true, players);
    assert |rows| == 1;
    SortDescProps(rows, RowOldestFirst());
  }
}
