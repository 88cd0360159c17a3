/**
 * The scoring engine: the points a finished match awards to each side, and
 * one player's statistics aggregated over a list of stored matches.
 */
module ScoringSystem {
  import opened Wrappers
  import opened MatchData
  import Sorting

  /** Points for each game won, each set won and the match won. */
  const GAME_WIN: int := 1
  const SET_WIN: int := 5
  const MATCH_WIN: int := 10

  /** The fields of a submitted match that the engine reads. */
  datatype MatchInput = MatchInput(format: string, players: seq<string>, teams: seq<seq<string>>, sets: map<nat, GameSet>)

  predicate KnownFormat(format: string)
  {
    format == SINGLES || format == DOUBLES
  }

  /** A match whose sides can be read: two players in singles, two teams in doubles. */
  predicate Readable(m: MatchInput)
  {
    (m.format == SINGLES ==> |m.players| >= 2) && (m.format == DOUBLES ==> |m.teams| >= 2)
  }

  /** The two keys the points are kept under: the two players, or the two team ids. */
  function Sides(m: MatchInput): (string, string)
    requires Readable(m) && KnownFormat(m.format)
  {
    if m.format == SINGLES then (m.players[0], m.players[1])
    else (TeamId(m.teams[0]), TeamId(m.teams[1]))
  }

  /** The games a set credits to `e` (`set.games[e] || 0`). */
  function GamesIn(e: string): GameSet -> int
  {
    (s: GameSet) => ValueOr0(s.games, e)
  }

  /** 1 for a set whose winner is `e`, else 0. */
  function WonBy(e: string): GameSet -> int
  {
    (s: GameSet) => if s.winner == Some(e) then 1 else 0
  }

  /** A side wins between none and all of the sets. */
  lemma {:induction false} WonByBounds(vs: seq<GameSet>, e: string)
    ensures 0 <= Total(vs, WonBy(e)) <= |vs|
    decreases |vs|
  {
    if vs != [] {
      WonByBounds(vs[..|vs| - 1], e);
    }
  }

  /** All games `e` won over the sets of a match. */
  function GamesOfSide(sets: map<nat, GameSet>, e: string): int
  {
    Total(SetList(sets), GamesIn(e))
  }

  /** The number of sets of a match whose winner is `e`. */
  function SetsWonBy(sets: map<nat, GameSet>, e: string): int
  {
    Total(SetList(sets), WonBy(e))
  }

  /**
   * The `forEach` over the sets of `calculateMatchPoints`: starting from zero
   * points for both sides, each set adds its games to each side and 5 to the
   * side that won it, whose set count goes up by one.
   */
  method ScoreSets(vs: seq<GameSet>, a: string, b: string) returns (points: map<string, int>, aSets: int, bSets: int)
    ensures points.Keys == {a, b}
    ensures aSets == Total(vs, WonBy(a))
    ensures bSets == if a == b then 0 else Total(vs, WonBy(b))
    ensures a != b ==> points[a] == GAME_WIN * Total(vs, GamesIn(a)) + SET_WIN * aSets
    ensures a != b ==> points[b] == GAME_WIN * Total(vs, GamesIn(b)) + SET_WIN * bSets
    ensures a == b ==> points[a] == 2 * GAME_WIN * Total(vs, GamesIn(a)) + SET_WIN * aSets
  {
    points := map[a := 0, b := 0];
    aSets, bSets := 0, 0;
    for i := 0 to |vs|
      invariant points.Keys == {a, b}
      invariant aSets == Total(vs[..i], WonBy(a))
      invariant bSets == if a == b then 0 else Total(vs[..i], WonBy(b))
      invariant a != b ==> points[a] == GAME_WIN * Total(vs[..i], GamesIn(a)) + SET_WIN * aSets
      invariant a != b ==> points[b] == GAME_WIN * Total(vs[..i], GamesIn(b)) + SET_WIN * bSets
      invariant a == b ==> points[a] == 2 * GAME_WIN * Total(vs[..i], GamesIn(a)) + SET_WIN * aSets
    {
      var s := vs[i];
      ghost var before := points[a];
      TotalNext(vs, i, WonBy(a));
      TotalNext(vs, i, WonBy(b));
      TotalNext(vs, i, GamesIn(a));
      TotalNext(vs, i, GamesIn(b));
      assert GamesIn(a)(s) == ValueOr0(s.games, a) && GamesIn(b)(s) == ValueOr0(s.games, b);
      assert WonBy(a)(s) == (if s.winner == Some(a) then 1 else 0);
      assert WonBy(b)(s) == (if s.winner == Some(b) then 1 else 0);
      points := points[a := points[a] + ValueOr0(s.games, a) * GAME_WIN];
      points := points[b := points[b] + ValueOr0(s.games, b) * GAME_WIN];
      if s.winner == Some(a) {
        points := points[a := points[a] + SET_WIN];
        aSets := aSets + 1;
      } else if s.winner == Some(b) {
        points := points[b := points[b] + SET_WIN];
        bSets := bSets + 1;
      }
      assert a == b ==> points[a] == before + 2 * GAME_WIN * ValueOr0(s.games, a) + (if s.winner == Some(a) then SET_WIN else 0);
    }
    assert vs[..|vs|] == vs;
  }

  /**
   * Whatever number a new set is stored under, it adds exactly its own games
   * and its own win to a side's totals: the scores do not depend on the order
   * of the sets.
   */
  lemma AddSetTotals(sets: map<nat, GameSet>, k: nat, x: GameSet, e: string)
    requires k !in sets
    ensures GamesOfSide(sets[k := x], e) == GamesOfSide(sets, e) + ValueOr0(x.games, e)
    ensures SetsWonBy(sets[k := x], e) == SetsWonBy(sets, e) + (if x.winner == Some(e) then 1 else 0)
  {
    var i := SetListInsert(sets, k, x);
    TotalInsert(SetList(sets), i, x, GamesIn(e));
    TotalInsert(SetList(sets), i, x, WonBy(e));
  }

  /**
   * The points record `calculateMatchPoints` returns for `m`: `totalSets` is
   * the number of sets; an unknown format scores nobody; otherwise both sides
   * are keyed, the side with strictly more sets is the winner and each side
   * has a point per game, 5 per set won and 10 for the match. When both keys
   * coincide the one entry receives both sides' increments.
   */
  ghost predicate Scores(m: MatchInput, r: PointsEarned)
    requires Readable(m)
  {
    && r.totalSets == |m.sets.Keys|
    && (!KnownFormat(m.format) ==> r.points == map[] && r.winner == NoWinner)
    && (KnownFormat(m.format) ==> SidesScore(SetList(m.sets), Sides(m).0, Sides(m).1, r))
  }

  /** The record for sides `a` and `b` of a match of a known format with the sets `vs`. */
  ghost predicate SidesScore(vs: seq<GameSet>, a: string, b: string, r: PointsEarned)
  {
    var wa := Total(vs, WonBy(a));
    var wb := if a == b then 0 else Total(vs, WonBy(b));
    && r.points.Keys == {a, b}
    && r.winner == (if wa > wb then WinnerId(a) else if wb > wa then WinnerId(b) else NoWinner)
    && (a != b ==>
          && r.points[a] == GAME_WIN * Total(vs, GamesIn(a)) + SET_WIN * wa + (if r.winner == WinnerId(a) then MATCH_WIN else 0)
          && r.points[b] == GAME_WIN * Total(vs, GamesIn(b)) + SET_WIN * wb + (if r.winner == WinnerId(b) then MATCH_WIN else 0))
    && (a == b ==>
          r.points[a] == 2 * GAME_WIN * Total(vs, GamesIn(a)) + SET_WIN * wa + (if wa > 0 then MATCH_WIN else 0))
  }

  /** `Scores` pins the record down completely: at most one record satisfies it. */
  lemma ScoresUnique(m: MatchInput, r1: PointsEarned, r2: PointsEarned)
    requires Readable(m) && Scores(m, r1) && Scores(m, r2)
    ensures r1 == r2
  {
    if KnownFormat(m.format) {
      var a, b := Sides(m).0, Sides(m).1;
      assert r1.points.Keys == r2.points.Keys;
      assert forall k :: k in r1.points ==> r1.points[k] == r2.points[k];
    }
  }

  /** A match with no sets scores 0 for both sides, has no winner and counts 0 sets. */
  lemma NoSetsScoresZero(m: MatchInput, r: PointsEarned)
    requires Readable(m) && KnownFormat(m.format) && m.sets == map[] && Scores(m, r)
    ensures r.totalSets == 0 && r.winner == NoWinner
    ensures r.points == map[Sides(m).0 := 0, Sides(m).1 := 0]
  {
    assert SetList(m.sets) == [];
  }

  /**
   * `calculateMatchPoints`: each side gets a point per game, 5 per set it won
   * and 10 if it won strictly more sets than the other side, who is then the
   * winner; equal set counts leave `winner` null. Doubles are scored by team id.
   * An unknown format scores nobody.
   */
  method CalculateMatchPoints(m: MatchInput) returns (r: PointsEarned)
    requires Readable(m)
    ensures Scores(m, r)
  {
    var points: map<string, int> := map[];
    var winner := NoWinner;
    var totalSets := |m.sets.Keys|;
    if KnownFormat(m.format) {
      var a := Sides(m).0;
      var b := Sides(m).1;
      var aSets, bSets;
      var vs := SetList(m.sets);
      points, aSets, bSets := ScoreSets(vs, a, b);
      WonByBounds(vs, a);
      if aSets > bSets {
        winner := WinnerId(a);
        points := points[a := points[a] + MATCH_WIN];
      } else if bSets > aSets {
        winner := WinnerId(b);
        points := points[b := points[b] + MATCH_WIN];
      } else {
        winner := NoWinner;
      }
    }
    r := PointsEarned(winner, points, totalSets);
  }

  /** The counters `calculatePlayerStats` returns. */
  datatype PlayerStats = PlayerStats(
    totalMatches: int, matchesWon: int, totalSets: int, setsWon: int,
    totalGames: int, gamesWon: real, totalPoints: real)

  const ZeroStats := PlayerStats(0, 0, 0, 0, 0, 0.0, 0.0)

  /** What `undefined.join('-')` throws when no team holds the player. */
  const NoTeamError := TypeError("Cannot read properties of undefined (reading 'join')")

  /** A player's share of a side's count: all of it in singles, half in doubles. */
  function Share(g: int, doubles: bool): real
  {
    if doubles then g as real / 2.0 else g as real
  }

  /** The counters after the sets `vs` of one match are credited to side `e`. */
  ghost function SetsCredit(st: PlayerStats, vs: seq<GameSet>, e: string, doubles: bool): PlayerStats
    decreases |vs|
  {
    if vs == [] then st
    else
      var st0 := SetsCredit(st, vs[..|vs| - 1], e, doubles);
      var s := vs[|vs| - 1];
      st0.(totalSets := st0.totalSets + 1,
           setsWon := st0.setsWon + WonBy(e)(s),
           totalGames := st0.totalGames + MapSum(s.games),
           gamesWon := st0.gamesWon + Share(ValueOr0(s.games, e), doubles))
  }

  /** The key `pid` is scored under in `m`: themself in singles, their team's id in doubles. */
  function PlayerSide(m: Match, pid: string): string
    requires m.format == DOUBLES ==> FindTeam(m.teams, pid).Some?
  {
    if m.format == DOUBLES then TeamId(FindTeam(m.teams, pid).value) else pid
  }

  /** The counters after one stored match is taken into account for `pid`. */
  ghost function MatchCredit(st: PlayerStats, m: Match, pid: string): Result<PlayerStats>
  {
    if pid !in m.players then Success(st)
    else if !KnownFormat(m.format) then Success(st.(totalMatches := st.totalMatches + 1))
    else if m.format == DOUBLES && FindTeam(m.teams, pid).None? then Failure(NoTeamError)
    else Success(SideCredit(st.(totalMatches := st.totalMatches + 1), m, PlayerSide(m, pid), m.format == DOUBLES))
  }

  /** The counters after a match is credited to the player's side `t`: the win, the sets, the points. */
  ghost function SideCredit(st: PlayerStats, m: Match, t: string, doubles: bool): PlayerStats
  {
    var won := if m.pointsEarned.winner == WinnerId(t) then 1 else 0;
    var st1 := st.(matchesWon := st.matchesWon + won);
    var st2 := SetsCredit(st1, SetList(m.sets), t, doubles);
    st2.(totalPoints := st2.totalPoints + Share(ValueOr0(m.pointsEarned.points, t), doubles))
  }

  /** The statistics of `pid` over `ms`, or the error the first unreadable match throws. */
  ghost function StatsOf(ms: seq<Match>, pid: string): Result<PlayerStats>
    decreases |ms|
  {
    if ms == [] then Success(ZeroStats)
    else
      match StatsOf(ms[..|ms| - 1], pid)
      case Failure(err) => Failure(err)
      case Success(st) => MatchCredit(st, ms[|ms| - 1], pid)
  }

  /** The inner `forEach` over the sets of one match. */
  method CreditSets(st: PlayerStats, vs: seq<GameSet>, e: string, doubles: bool) returns (r: PlayerStats)
    ensures r == SetsCredit(st, vs, e, doubles)
  {
    r := st;
    for i := 0 to |vs|
      invariant r == SetsCredit(st, vs[..i], e, doubles)
    {
      var s := vs[i];
      assert vs[..i + 1][..i] == vs[..i];
      r := r.(totalSets := r.totalSets + 1);
      if s.winner == Some(e) {
        r := r.(setsWon := r.setsWon + 1);
      }
      var g := SumGames(s.games);
      r := r.(totalGames := r.totalGames + g);
      r := r.(gamesWon := r.gamesWon + Share(ValueOr0(s.games, e), doubles));
    }
    assert vs[..|vs|] == vs;
  }

  /** Once a prefix of the matches throws, the whole computation throws the same error. */
  lemma {:induction false} StatsFailurePersists(ms: seq<Match>, n: nat, pid: string)
    requires n <= |ms| && StatsOf(ms[..n], pid).Failure?
    ensures StatsOf(ms, pid) == StatsOf(ms[..n], pid)
    decreases |ms| - n
  {
    if n < |ms| {
      assert ms[..n + 1][..n] == ms[..n];
      StatsFailurePersists(ms, n + 1, pid);
    } else {
      assert ms[..n] == ms;
    }
  }

  /** The body of the outer `forEach`: one match credited to `pid`. */
  method CreditMatch(st: PlayerStats, m: Match, pid: string) returns (r: Result<PlayerStats>)
    ensures r == MatchCredit(st, m, pid)
  {
    if pid !in m.players {
      return Success(st);
    }
    var acc := st.(totalMatches := st.totalMatches + 1);
    if m.format == SINGLES {
      acc := CreditSide(acc, m, pid, false);
    } else if m.format == DOUBLES {
      var team := FindTeam(m.teams, pid);
      if team.None? {
        return Failure(NoTeamError);
      }
      acc := CreditSide(acc, m, TeamId(team.value), true);
    }
    r := Success(acc);
  }

  /**
   * The body of either format's branch, for the side `t` the player is
   * credited through: the player itself in singles, their team id in doubles
   * (where games and points count half).
   */
  method CreditSide(st: PlayerStats, m: Match, t: string, doubles: bool) returns (r: PlayerStats)
    ensures r == SideCredit(st, m, t, doubles)
  {
    r := st;
    if m.pointsEarned.winner == WinnerId(t) {
      r := r.(matchesWon := r.matchesWon + 1);
    }
    r := CreditSets(r, SetList(m.sets), t, doubles);
    r := r.(totalPoints := r.totalPoints + Share(ValueOr0(m.pointsEarned.points, t), doubles));
  }

  /**
   * `calculatePlayerStats`: the counters of `pid` over the matches they took
   * part in. A doubles match listing `pid` among its players but in none of
   * its teams makes the source throw.
   */
  method CalculatePlayerStats(matches: seq<Match>, pid: string) returns (r: Result<PlayerStats>)
    ensures r == StatsOf(matches, pid)
  {
    var st := ZeroStats;
    for i := 0 to |matches|
      invariant StatsOf(matches[..i], pid) == Success(st)
    {
      assert matches[..i + 1][..i] == matches[..i];
      var next := CreditMatch(st, matches[i], pid);
      if next.Failure? {
        StatsFailurePersists(matches, i + 1, pid);
        return next;
      }
      st := next.value;
    }
    assert matches[..|matches|] == matches;
    r := Success(st);
  }

  /** The sum of every game count of every set in `vs`. */
  ghost function GamesPlayed(vs: seq<GameSet>): int
    decreases |vs|
  {
    if vs == [] then 0 else GamesPlayed(vs[..|vs| - 1]) + MapSum(vs[|vs| - 1].games)
  }

  /**
   * Crediting the sets of a match adds one set per set, the sets `e` won, all
   * games played, and `e`'s games (halved in doubles); nothing else changes.
   * The counts are those `calculateMatchPoints` scores the side by.
   */
  lemma {:induction false} SetsCreditEffect(st: PlayerStats, vs: seq<GameSet>, e: string, doubles: bool)
    ensures SetsCredit(st, vs, e, doubles) ==
      st.(totalSets := st.totalSets + |vs|,
          setsWon := st.setsWon + Total(vs, WonBy(e)),
          totalGames := st.totalGames + GamesPlayed(vs),
          gamesWon := st.gamesWon + Share(Total(vs, GamesIn(e)), doubles))
    decreases |vs|
  {
    if vs != [] {
      SetsCreditEffect(st, vs[..|vs| - 1], e, doubles);
    }
  }

  /** A set whose game counts are all non-negative. */
  predicate NonNegSet(s: GameSet)
  {
    forall g :: g in s.games ==> s.games[g] >= 0
  }

  /** A stored match whose game counts are all non-negative. */
  predicate NonNegGames(m: Match)
  {
    forall s :: s in m.sets.Values ==> NonNegSet(s)
  }

  /** With non-negative counts, `e`'s games are at most all the games played. */
  lemma {:induction false} GamesInBound(vs: seq<GameSet>, e: string)
    requires forall i :: 0 <= i < |vs| ==> NonNegSet(vs[i])
    ensures 0 <= Total(vs, GamesIn(e)) <= GamesPlayed(vs)
    decreases |vs|
  {
    if vs != [] {
      var last := vs[|vs| - 1];
      GamesInBound(vs[..|vs| - 1], e);
      MapSumBound(last.games, e);
    }
  }

  /** Whether `m` lists `pid` among its players. */
  function Participates(pid: string): Match -> bool
  {
    (m: Match) => pid in m.players
  }

  /** A doubles match listing `pid` as a player but in none of its teams. */
  predicate Unreadable(m: Match, pid: string)
  {
    pid in m.players && m.format == DOUBLES && FindTeam(m.teams, pid).None?
  }

  /**
   * The statistics fail exactly when some match is unreadable for `pid`, and
   * then with the error `undefined.join` throws.
   */
  lemma {:induction false} StatsFailureIff(ms: seq<Match>, pid: string)
    ensures StatsOf(ms, pid).Failure? <==> exists i :: 0 <= i < |ms| && Unreadable(ms[i], pid)
    ensures StatsOf(ms, pid).Failure? ==> StatsOf(ms, pid).error == NoTeamError
    decreases |ms|
  {
    if ms != [] {
      var init := ms[..|ms| - 1];
      StatsFailureIff(init, pid);
      if exists i :: 0 <= i < |init| && Unreadable(init[i], pid) {
        var i :| 0 <= i < |init| && Unreadable(init[i], pid);
        assert Unreadable(ms[i], pid);
      }
      if exists i :: 0 <= i < |ms| && Unreadable(ms[i], pid) {
        var i :| 0 <= i < |ms| && Unreadable(ms[i], pid);
        if i < |init| {
          assert Unreadable(init[i], pid);
        }
      }
    }
  }

  /** What one match adds to each counter, when it is readable. */
  lemma MatchCreditEffect(st: PlayerStats, m: Match, pid: string)
    requires pid in m.players && KnownFormat(m.format) && !Unreadable(m, pid)
    ensures MatchCredit(st, m, pid).Success?
    ensures var r := MatchCredit(st, m, pid).value;
      var t := PlayerSide(m, pid);
      var vs := SetList(m.sets);
      && r.totalMatches == st.totalMatches + 1
      && r.matchesWon == st.matchesWon + (if m.pointsEarned.winner == WinnerId(t) then 1 else 0)
      && r.totalSets == st.totalSets + |vs|
      && r.setsWon == st.setsWon + Total(vs, WonBy(t))
      && r.totalGames == st.totalGames + GamesPlayed(vs)
      && r.gamesWon == st.gamesWon + Share(Total(vs, GamesIn(t)), m.format == DOUBLES)
      && r.totalPoints == st.totalPoints + Share(ValueOr0(m.pointsEarned.points, t), m.format == DOUBLES)
  {
    var st0 := st.(totalMatches := st.totalMatches + 1);
    assert MatchCredit(st, m, pid) == Success(SideCredit(st0, m, PlayerSide(m, pid), m.format == DOUBLES));
    SideCreditEffect(st0, m, PlayerSide(m, pid), m.format == DOUBLES);
  }

  /** Crediting a side adds its win, its sets and the games it took, and leaves the match count alone. */
  lemma SideCreditEffect(st: PlayerStats, m: Match, t: string, doubles: bool)
    ensures var r := SideCredit(st, m, t, doubles);
      var vs := SetList(m.sets);
      && r.totalMatches == st.totalMatches
      && r.matchesWon == st.matchesWon + (if m.pointsEarned.winner == WinnerId(t) then 1 else 0)
      && r.totalSets == st.totalSets + |vs|
      && r.setsWon == st.setsWon + Total(vs, WonBy(t))
      && r.totalGames == st.totalGames + GamesPlayed(vs)
      && r.gamesWon == st.gamesWon + Share(Total(vs, GamesIn(t)), doubles)
      && r.totalPoints == st.totalPoints + Share(ValueOr0(m.pointsEarned.points, t), doubles)
  {
    var won := if m.pointsEarned.winner == WinnerId(t) then 1 else 0;
    var st1 := st.(matchesWon := st.matchesWon + won);
    var st2 := SetsCredit(st1, SetList(m.sets), t, doubles);
    assert SideCredit(st, m, t, doubles) == st2.(totalPoints := st2.totalPoints + Share(ValueOr0(m.pointsEarned.points, t), doubles));
    SetsCreditEffect(st1, SetList(m.sets), t, doubles);
    SetsCreditPoints(st1, SetList(m.sets), t, doubles);
  }

  /** Crediting sets leaves the points alone: a side's points come from the match record only. */
  lemma {:induction false} SetsCreditPoints(st: PlayerStats, vs: seq<GameSet>, e: string, doubles: bool)
    ensures SetsCredit(st, vs, e, doubles).totalPoints == st.totalPoints
    decreases |vs|
  {
    if vs != [] {
      SetsCreditPoints(st, vs[..|vs| - 1], e, doubles);
    }
  }

  /**
   * On success: one match counted per match `pid` plays in, wins at most
   * matches, sets won at most sets played, and no counter negative.
   */
  lemma {:induction false} StatsBounds(ms: seq<Match>, pid: string)
    requires StatsOf(ms, pid).Success?
    ensures StatsOf(ms, pid).value.totalMatches == |Sorting.Filter(ms, Participates(pid))|
    ensures 0 <= StatsOf(ms, pid).value.matchesWon <= StatsOf(ms, pid).value.totalMatches
    ensures 0 <= StatsOf(ms, pid).value.setsWon <= StatsOf(ms, pid).value.totalSets
    decreases |ms|
  {
    if ms != [] {
      var init := ms[..|ms| - 1];
      var m := ms[|ms| - 1];
      assert init + [m] == ms;
      StatsBounds(init, pid);
      Sorting.FilterSnoc(init, m, Participates(pid));
      var st := StatsOf(init, pid).value;
      if pid in m.players && KnownFormat(m.format) {
        MatchCreditEffect(st, m, pid);
        WonByBounds(SetList(m.sets), PlayerSide(m, pid));
      }
    }
  }

  /** With non-negative game counts, the games credited never exceed the games played. */
  lemma {:induction false} GamesWonBound(ms: seq<Match>, pid: string)
    requires forall m :: m in ms ==> NonNegGames(m)
    requires StatsOf(ms, pid).Success?
    ensures 0.0 <= StatsOf(ms, pid).value.gamesWon <= StatsOf(ms, pid).value.totalGames as real
    decreases |ms|
  {
    if ms != [] {
      var init := ms[..|ms| - 1];
      var m := ms[|ms| - 1];
      GamesWonBound(init, pid);
      var st := StatsOf(init, pid).value;
      if pid in m.players && KnownFormat(m.format) {
        var vs := SetList(m.sets);
        SetListValues(m.sets);
        assert NonNegGames(m) by { assert m in ms; }
        forall i | 0 <= i < |vs|
          ensures NonNegSet(vs[i])
        {
          assert vs[i] in m.sets.Values;
        }
        GamesInBound(vs, PlayerSide(m, pid));
        MatchCreditEffect(st, m, pid);
      }
    }
  }
}
