/**
 * The statistics page: the selected player's matches and counters, the
 * singles leaderboard, the doubles team leaderboard and the number of
 * distinct teams. The page recomputes these itself instead of reading the
 * counters stored on player records.
 */
module Statistics {
  import opened Wrappers
  import opened MatchData
  import opened Sorting
  import opened ScoringSystem

  const UNKNOWN_MEMBER := "Невідомий"
  const NAME_SEPARATOR := " і "
  const LEADERBOARD_SIZE := 10

  /** `playerMatches`: the matches listing the selected id; nothing when no id is selected. */
  function PlayerMatches(matches: seq<Match>, sel: string): (r: seq<Match>)
    ensures forall m :: m in r <==> sel != "" && m in matches && sel in m.players
    ensures |r| <= |matches|
  {
    FilterMembers(matches, Participates(sel));
    if sel == "" then [] else Filter(matches, Participates(sel))
  }

  /** The counters `calculateStats` returns. */
  datatype ViewStats = ViewStats(
    totalMatches: int, matchesWon: int, totalSets: int, setsWon: int,
    totalGames: int, gamesWon: real)

  /** `ids.some(id => team.includes(id))`. */
  function SomeShared(ids: seq<string>, team: seq<string>): (r: bool)
    ensures r <==> exists id :: id in ids && id in team
  {
    if ids == [] then false
    else ids[0] in team || SomeShared(ids[1..], team)
  }

  /**
   * Whether the page counts `m` as won by `sel`: in singles the winner is
   * `sel`; in doubles the winner is a member list sharing a member with the
   * player's team, so a team-id string never counts.
   */
  predicate CountsAsWin(m: Match, sel: string)
  {
    if m.format == SINGLES then m.pointsEarned.winner == WinnerId(sel)
    else if m.format == DOUBLES then
      FindTeam(m.teams, sel).Some? && m.pointsEarned.winner.WinnerArray?
      && SomeShared(m.pointsEarned.winner.ids, FindTeam(m.teams, sel).value)
    else false
  }

  function WinsFor(sel: string): Match -> bool
  {
    (m: Match) => CountsAsWin(m, sel)
  }

  /** The key a player's sets are read under: themself, their team's id, or none. */
  function StatsSide(m: Match, sel: string): Option<string>
  {
    if m.format == SINGLES then Some(sel)
    else if m.format == DOUBLES && FindTeam(m.teams, sel).Some? then Some(TeamId(FindTeam(m.teams, sel).value))
    else None
  }

  /**
   * The counters after the sets `vs` of one match: every set counts towards
   * `totalSets`; the rest only when the player has a side in the match.
   */
  ghost function ViewSetsCredit(st: ViewStats, vs: seq<GameSet>, side: Option<string>, doubles: bool): ViewStats
    decreases |vs|
  {
    if vs == [] then st
    else
      var st0 := ViewSetsCredit(st, vs[..|vs| - 1], side, doubles);
      var s := vs[|vs| - 1];
      var counted := st0.(totalSets := st0.totalSets + 1);
      match side
      case None => counted
      case Some(e) =>
        counted.(setsWon := counted.setsWon + WonBy(e)(s),
                 totalGames := counted.totalGames + MapSum(s.games),
                 gamesWon := counted.gamesWon + Share(ValueOr0(s.games, e), doubles))
  }

  /** The counters after one of the player's matches. */
  ghost function ViewMatchCredit(st: ViewStats, m: Match, sel: string): ViewStats
  {
    var won := st.(matchesWon := st.matchesWon + (if CountsAsWin(m, sel) then 1 else 0));
    ViewSetsCredit(won, SetList(m.sets), StatsSide(m, sel), m.format == DOUBLES)
  }

  /** The counters after the matches `ms`, in order. */
  ghost function ViewFold(st: ViewStats, ms: seq<Match>, sel: string): ViewStats
    decreases |ms|
  {
    if ms == [] then st else ViewMatchCredit(ViewFold(st, ms[..|ms| - 1], sel), ms[|ms| - 1], sel)
  }

  /** What `calculateStats` computes over the player's matches `pm`. */
  ghost function ViewStatsOf(pm: seq<Match>, sel: string): ViewStats
  {
    ViewFold(ViewStats(|pm|, 0, 0, 0, 0, 0.0), pm, sel)
  }

  /** The number of sets over all matches of `ms`. */
  function SetCount(ms: seq<Match>): nat
    decreases |ms|
  {
    if ms == [] then 0 else SetCount(ms[..|ms| - 1]) + |ms[|ms| - 1].sets.Keys|
  }

  /** The inner `forEach` over the sets of one match. */
  method CreditViewSets(st: ViewStats, vs: seq<GameSet>, side: Option<string>, doubles: bool) returns (r: ViewStats)
    ensures r == ViewSetsCredit(st, vs, side, doubles)
  {
    r := st;
    for i := 0 to |vs|
      invariant r == ViewSetsCredit(st, vs[..i], side, doubles)
    {
      assert vs[..i + 1][..i] == vs[..i];
      var s := vs[i];
      r := r.(totalSets := r.totalSets + 1);
      if side.Some? {
        var e := side.value;
        if s.winner == Some(e) {
          r := r.(setsWon := r.setsWon + 1);
        }
        var totalGamesInSet := SumGames(s.games);
        r := r.(totalGames := r.totalGames + totalGamesInSet);
        r := r.(gamesWon := r.gamesWon + Share(ValueOr0(s.games, e), doubles));
      }
    }
    assert vs[..|vs|] == vs;
  }

  /** The body of the outer `forEach`: one of the player's matches. */
  method CreditViewMatch(st: ViewStats, m: Match, sel: string) returns (r: ViewStats)
    ensures r == ViewMatchCredit(st, m, sel)
  {
    r := st;
    if CountsAsWin(m, sel) {
      r := r.(matchesWon := r.matchesWon + 1);
    }
    r := CreditViewSets(r, SetList(m.sets), StatsSide(m, sel), m.format == DOUBLES);
  }

  /** The outer `forEach` over the player's matches. */
  method CreditViewMatches(st: ViewStats, pm: seq<Match>, sel: string) returns (r: ViewStats)
    ensures r == ViewFold(st, pm, sel)
  {
    r := st;
    for i := 0 to |pm|
      invariant r == ViewFold(st, pm[..i], sel)
    {
      assert pm[..i + 1][..i] == pm[..i];
      r := CreditViewMatch(r, pm[i], sel);
    }
    assert pm[..|pm|] == pm;
  }

  /**
   * `calculateStats`: nothing when the selected id is no player's id,
   * otherwise the counters over the selected player's matches.
   */
  method CalculateStats(players: seq<Player>, matches: seq<Match>, sel: string) returns (r: Option<ViewStats>)
    ensures r.None? <==> forall i :: 0 <= i < |players| ==> players[i].id != sel
    ensures r.Some? ==> r.value == ViewStatsOf(PlayerMatches(matches, sel), sel)
  {
    var player := Find(players, (p: Player) => p.id == sel);
    if player.None? {
      return None;
    }
    var pm := PlayerMatches(matches, sel);
    var stats := CreditViewMatches(ViewStats(|pm|, 0, 0, 0, 0, 0.0), pm, sel);
    r := Some(stats);
  }

  /** The sets of one match add one to `totalSets` each and at most one won set each. */
  lemma {:induction false} ViewSetsCreditEffect(st: ViewStats, vs: seq<GameSet>, side: Option<string>, doubles: bool)
    ensures var r := ViewSetsCredit(st, vs, side, doubles);
      && r.totalMatches == st.totalMatches && r.matchesWon == st.matchesWon
      && r.totalSets == st.totalSets + |vs|
      && st.setsWon <= r.setsWon <= st.setsWon + |vs|
    decreases |vs|
  {
    if vs != [] {
      ViewSetsCreditEffect(st, vs[..|vs| - 1], side, doubles);
    }
  }

  lemma ViewMatchCreditEffect(st: ViewStats, m: Match, sel: string)
    ensures var r := ViewMatchCredit(st, m, sel);
      && r.totalMatches == st.totalMatches
      && r.matchesWon == st.matchesWon + (if CountsAsWin(m, sel) then 1 else 0)
      && r.totalSets == st.totalSets + |m.sets.Keys|
      && st.setsWon <= r.setsWon <= st.setsWon + |m.sets.Keys|
  {
    var won := st.(matchesWon := st.matchesWon + (if CountsAsWin(m, sel) then 1 else 0));
    ViewSetsCreditEffect(won, SetList(m.sets), StatsSide(m, sel), m.format == DOUBLES);
  }

  /**
   * Over matches `ms`: `totalMatches` stays as set, `matchesWon` grows by the
   * matches counted as won, `totalSets` by every set, and `setsWon` by at
   * most as much.
   */
  lemma {:induction false} ViewFoldEffect(st: ViewStats, ms: seq<Match>, sel: string)
    ensures var r := ViewFold(st, ms, sel);
      && r.totalMatches == st.totalMatches
      && r.matchesWon == st.matchesWon + |Filter(ms, WinsFor(sel))|
      && r.totalSets == st.totalSets + SetCount(ms)
      && st.setsWon <= r.setsWon <= st.setsWon + SetCount(ms)
    decreases |ms|
  {
    if ms != [] {
      var init, m := ms[..|ms| - 1], ms[|ms| - 1];
      ViewFoldEffect(st, init, sel);
      ViewMatchCreditEffect(ViewFold(st, init, sel), m, sel);
    }
  }

  /**
   * The page's counters: `totalMatches` is the number of the player's
   * matches, of which `matchesWon` are those counted as won; `totalSets`
   * counts every set of those matches, doubles matches without a team for
   * the player included; `setsWon` is at most `totalSets`.
   */
  lemma ViewStatsBounds(matches: seq<Match>, sel: string)
    ensures var pm := PlayerMatches(matches, sel);
      var r := ViewStatsOf(pm, sel);
      && r.totalMatches == |pm|
      && r.matchesWon == |Filter(pm, WinsFor(sel))|
      && 0 <= r.matchesWon <= r.totalMatches
      && r.totalSets == SetCount(pm)
      && 0 <= r.setsWon <= r.totalSets
  {
    var pm := PlayerMatches(matches, sel);
    ViewFoldEffect(ViewStats(|pm|, 0, 0, 0, 0, 0.0), pm, sel);
    FilterMembers(pm, WinsFor(sel));
  }

  /**
   * Where every doubles match stores a team-id string as its winner, as the
   * scoring engine writes it, only singles wins are counted.
   */
  lemma StringWinnersNeverCount(matches: seq<Match>, sel: string)
    requires forall m :: m in matches && m.format == DOUBLES ==> m.pointsEarned.winner.WinnerId?
    ensures ViewStatsOf(PlayerMatches(matches, sel), sel).matchesWon
         == |Filter(PlayerMatches(matches, sel), (m: Match) => m.format == SINGLES && m.pointsEarned.winner == WinnerId(sel))|
  {
    var pm := PlayerMatches(matches, sel);
    ViewStatsBounds(matches, sel);
    FilterAgree(pm, WinsFor(sel), (m: Match) => m.format == SINGLES && m.pointsEarned.winner == WinnerId(sel));
  }

  function TotalPoints(): Player -> real
  {
    (p: Player) => p.totalPoints
  }

  /** Whether a player appears in some singles match. */
  function HasSinglesMatch(matches: seq<Match>): Player -> bool
  {
    (p: Player) => |Filter(matches, (m: Match) => m.format == SINGLES && p.id in m.players)| > 0
  }

  /** The singles leaderboard: players with a singles match, most points first, at most ten. */
  function Leaderboard1v1(players: seq<Player>, matches: seq<Match>): seq<Player>
  {
    SlicePrefix(SortDesc(Filter(players, HasSinglesMatch(matches)), TotalPoints()), LEADERBOARD_SIZE)
  }

  /**
   * The singles leaderboard holds at most ten players, each a stored player
   * with a singles match, most points first, and no eligible player left out
   * has more points than one shown.
   */
  lemma Leaderboard1v1Spec(players: seq<Player>, matches: seq<Match>)
    ensures var r := Leaderboard1v1(players, matches);
      var eligible := Filter(players, HasSinglesMatch(matches));
      && |r| == (if |eligible| < LEADERBOARD_SIZE then |eligible| else LEADERBOARD_SIZE)
      && (forall p :: p in r ==> p in players && exists m :: m in matches && m.format == SINGLES && p.id in m.players)
      && SortedDesc(r, TotalPoints())
      && (forall p, q :: p in r && q in eligible && q !in r ==> p.totalPoints >= q.totalPoints)
  {
    var eligible := Filter(players, HasSinglesMatch(matches));
    var r := SlicePrefix(SortDesc(eligible, TotalPoints()), LEADERBOARD_SIZE);
    assert Leaderboard1v1(players, matches) == r;
    TopSpec(eligible, LEADERBOARD_SIZE, TotalPoints());
    TopLeftOut(eligible, LEADERBOARD_SIZE, TotalPoints());
    forall p | p in r
      ensures p in players && exists m :: m in matches && m.format == SINGLES && p.id in m.players
    {
      EligibleWitness(players, matches, p);
    }
    forall p, q | p in r && q in eligible && q !in r
      ensures p.totalPoints >= q.totalPoints
    {
      assert TotalPoints()(p) >= TotalPoints()(q);
    }
  }

  /** An eligible player is a stored player with a singles match. */
  lemma EligibleWitness(players: seq<Player>, matches: seq<Match>, p: Player)
    requires p in Filter(players, HasSinglesMatch(matches))
    ensures p in players && exists m :: m in matches && m.format == SINGLES && p.id in m.players
  {
    FilterMembers(players, HasSinglesMatch(matches));
    var f := (m: Match) => m.format == SINGLES && p.id in m.players;
    FilterMembers(matches, f);
    assert Filter(matches, f)[0] in Filter(matches, f);
  }

  /** One appearance of a team in a doubles match, with that match's winner. */
  datatype Appearance = Appearance(team: seq<string>, winner: Winner)

  /** The appearances of the teams `teams` of one match whose winner is `w`. */
  function TeamAppearances(teams: seq<seq<string>>, w: Winner): (r: seq<Appearance>)
    ensures |r| == |teams| && forall i :: 0 <= i < |teams| ==> r[i] == Appearance(teams[i], w)
  {
    seq(|teams|, i requires 0 <= i < |teams| => Appearance(teams[i], w))
  }

  /** Every team appearance of the doubles matches of `ms`, in order. */
  function Appearances(ms: seq<Match>): seq<Appearance>
    decreases |ms|
  {
    if ms == [] then []
    else
      var m := ms[|ms| - 1];
      Appearances(ms[..|ms| - 1]) + (if m.format == DOUBLES then TeamAppearances(m.teams, m.pointsEarned.winner) else [])
  }

  /** A team's row of the team leaderboard. */
  datatype TeamEntry = TeamEntry(id: string, name: string, matches: int, wins: int, members: seq<string>)

  /** A member's name, or "Невідомий" when no player has the id or the name is empty. */
  function MemberName(players: seq<Player>, id: string): string
  {
    match Find(players, (p: Player) => p.id == id)
    case Some(p) => if p.name != "" then p.name else UNKNOWN_MEMBER
    case None => UNKNOWN_MEMBER
  }

  function MemberNames(players: seq<Player>, team: seq<string>): (r: seq<string>)
    ensures |r| == |team|
  {
    if team == [] then [] else [MemberName(players, team[0])] + MemberNames(players, team[1..])
  }

  /** Whether an appearance counts as a win: a member-list winner sharing a member with the team. */
  predicate AppearanceWins(a: Appearance)
  {
    a.winner.WinnerArray? && SomeShared(a.winner.ids, a.team)
  }

  function IdIs(id: string): TeamEntry -> bool
  {
    (e: TeamEntry) => e.id == id
  }

  /** One appearance counted: the team's row is created on first sight, then its matches and wins go up. */
  function Bump(entries: seq<TeamEntry>, a: Appearance, players: seq<Player>): seq<TeamEntry>
  {
    var id := TeamId(a.team);
    var i := FindIndex(entries, IdIs(id));
    var grown := if i < 0 then entries + [TeamEntry(id, Join(MemberNames(players, a.team), NAME_SEPARATOR), 0, 0, a.team)] else entries;
    var j := if i < 0 then |entries| else i;
    grown[j := grown[j].(matches := grown[j].matches + 1, wins := grown[j].wins + (if AppearanceWins(a) then 1 else 0))]
  }

  /** The `teams` dictionary after the appearances `apps`, in insertion order. */
  function Tally(apps: seq<Appearance>, players: seq<Player>): seq<TeamEntry>
    decreases |apps|
  {
    if apps == [] then [] else Bump(Tally(apps[..|apps| - 1], players), apps[|apps| - 1], players)
  }

  function AppearanceOf(id: string): Appearance -> bool
  {
    (a: Appearance) => TeamId(a.team) == id
  }

  function Winning(): Appearance -> bool
  {
    (a: Appearance) => AppearanceWins(a)
  }

  /** The winning appearances of the team `id`. */
  function WinOf(id: string): Appearance -> bool
  {
    Both(AppearanceOf(id), Winning())
  }

  /** The ids of the rows. */
  function EntryIds(entries: seq<TeamEntry>): (r: seq<string>)
    ensures |r| == |entries| && forall i :: 0 <= i < |entries| ==> r[i] == entries[i].id
  {
    seq(|entries|, i requires 0 <= i < |entries| => entries[i].id)
  }

  /** The joined ids of the appearances. */
  function AppearanceIds(apps: seq<Appearance>): (r: seq<string>)
    ensures |r| == |apps| && forall i :: 0 <= i < |apps| ==> r[i] == TeamId(apps[i].team)
  {
    seq(|apps|, i requires 0 <= i < |apps| => TeamId(apps[i].team))
  }

  /** What the rows keep: one per id, each counting that id's appearances and wins. */
  ghost predicate TallyOk(entries: seq<TeamEntry>, apps: seq<Appearance>)
  {
    && Distinct(EntryIds(entries))
    && (forall i :: 0 <= i < |entries| ==> entries[i].matches == |Filter(apps, AppearanceOf(entries[i].id))|)
    && (forall i :: 0 <= i < |entries| ==> entries[i].wins == |Filter(apps, WinOf(entries[i].id))|)
    && (forall id :: id in EntryIds(entries) <==> id in AppearanceIds(apps))
  }

  /** One more appearance keeps the rows right. */
  lemma BumpOk(entries: seq<TeamEntry>, apps: seq<Appearance>, a: Appearance, players: seq<Player>)
    requires TallyOk(entries, apps)
    ensures TallyOk(Bump(entries, a, players), apps + [a])
  {
    if FindIndex(entries, IdIs(TeamId(a.team))) < 0 {
      BumpNewOk(entries, apps, a, players);
    } else {
      BumpOldOk(entries, apps, a, players);
    }
  }

  /** The team ids of one more appearance end in that appearance's team id. */
  lemma IdsSnoc(apps: seq<Appearance>, a: Appearance)
    ensures AppearanceIds(apps + [a]) == AppearanceIds(apps) + [TeamId(a.team)]
  {
  }

  /** A row counted right before the appearance `a` is counted right after it once bumped when `a` is its team's. */
  lemma RowStep(e: TeamEntry, e': TeamEntry, apps: seq<Appearance>, a: Appearance)
    requires e.matches == |Filter(apps, AppearanceOf(e.id))| && e.wins == |Filter(apps, WinOf(e.id))|
    requires e'.id == e.id
    requires e'.matches == e.matches + (if e.id == TeamId(a.team) then 1 else 0)
    requires e'.wins == e.wins + (if e.id == TeamId(a.team) && AppearanceWins(a) then 1 else 0)
    ensures e'.matches == |Filter(apps + [a], AppearanceOf(e'.id))| && e'.wins == |Filter(apps + [a], WinOf(e'.id))|
  {
    var id := e.id;
    FilterSnoc(apps, a, AppearanceOf(id));
    FilterSnoc(apps, a, WinOf(id));
    assert AppearanceOf(id)(a) == (id == TeamId(a.team));
    assert WinOf(id)(a) == (id == TeamId(a.team) && AppearanceWins(a));
  }

  /** A team seen for the first time gets a new last row counting this one appearance. */
  lemma BumpNewOk(entries: seq<TeamEntry>, apps: seq<Appearance>, a: Appearance, players: seq<Player>)
    requires TallyOk(entries, apps) && FindIndex(entries, IdIs(TeamId(a.team))) < 0
    ensures TallyOk(Bump(entries, a, players), apps + [a])
  {
    var id := TeamId(a.team);
    var r := Bump(entries, a, players);
    var apps' := apps + [a];
    NotFound(entries, id);
    NoAppearances(entries, apps, id);
    var e0 := TeamEntry(id, Join(MemberNames(players, a.team), NAME_SEPARATOR), 0, 0, a.team);
    var e := e0.(matches := 1, wins := if AppearanceWins(a) then 1 else 0);
    assert r == entries + [e];
    assert EntryIds(r) == EntryIds(entries) + [id];
    DistinctSnoc(EntryIds(entries), id);
    IdsSnoc(apps, a);
    forall k | 0 <= k < |r|
      ensures r[k].matches == |Filter(apps', AppearanceOf(r[k].id))|
      ensures r[k].wins == |Filter(apps', WinOf(r[k].id))|
    {
      if k < |entries| {
        assert r[k] == entries[k] && EntryIds(entries)[k] != id;
        RowStep(entries[k], r[k], apps, a);
      } else {
        RowStep(e0, r[k], apps, a);
      }
    }
  }

  /** No row has an id the search for it did not find. */
  lemma NotFound(entries: seq<TeamEntry>, id: string)
    requires FindIndex(entries, IdIs(id)) < 0
    ensures id !in EntryIds(entries)
  {
    forall k | 0 <= k < |entries|
      ensures EntryIds(entries)[k] != id
    {
      assert !IdIs(id)(entries[k]);
    }
  }

  /** A team without a row has not appeared yet. */
  lemma NoAppearances(entries: seq<TeamEntry>, apps: seq<Appearance>, id: string)
    requires TallyOk(entries, apps) && id !in EntryIds(entries)
    ensures Filter(apps, AppearanceOf(id)) == [] && Filter(apps, WinOf(id)) == []
  {
    forall b | b in apps
      ensures !AppearanceOf(id)(b) && !WinOf(id)(b)
    {
      var k :| 0 <= k < |apps| && apps[k] == b;
      assert AppearanceIds(apps)[k] in EntryIds(entries);
    }
    FilterNone(apps, AppearanceOf(id));
    FilterNone(apps, WinOf(id));
  }

  /** A team seen before has its own row counted once more; the other rows stay. */
  lemma BumpOldOk(entries: seq<TeamEntry>, apps: seq<Appearance>, a: Appearance, players: seq<Player>)
    requires TallyOk(entries, apps) && FindIndex(entries, IdIs(TeamId(a.team))) >= 0
    ensures TallyOk(Bump(entries, a, players), apps + [a])
  {
    var id := TeamId(a.team);
    var i := FindIndex(entries, IdIs(id));
    var r := Bump(entries, a, players);
    assert EntryIds(r) == EntryIds(entries);
    var apps' := apps + [a];
    IdsSnoc(apps, a);
    forall k | 0 <= k < |r|
      ensures r[k].matches == |Filter(apps', AppearanceOf(r[k].id))|
      ensures r[k].wins == |Filter(apps', WinOf(r[k].id))|
    {
      if k != i {
        assert r[k] == entries[k];
        assert EntryIds(entries)[k] != EntryIds(entries)[i];
      }
      RowStep(entries[k], r[k], apps, a);
    }
  }

  /** The rows after any appearances keep one row per id with its appearance and win counts. */
  lemma {:induction false} TallySpec(apps: seq<Appearance>, players: seq<Player>)
    ensures TallyOk(Tally(apps, players), apps)
    decreases |apps|
  {
    if apps != [] {
      var init := apps[..|apps| - 1];
      TallySpec(init, players);
      BumpOk(Tally(init, players), init, apps[|apps| - 1], players);
      assert init + [apps[|apps| - 1]] == apps;
    }
  }

  /** One more appearance is one more `Bump`. */
  lemma TallySnoc(apps: seq<Appearance>, a: Appearance, players: seq<Player>)
    ensures Tally(apps + [a], players) == Bump(Tally(apps, players), a, players)
  {
    assert (apps + [a])[..|apps|] == apps;
  }

  /** The body of the inner `forEach`: the row of one team created if new, then counted. */
  method CountTeam(entries: seq<TeamEntry>, a: Appearance, players: seq<Player>) returns (r: seq<TeamEntry>)
    ensures r == Bump(entries, a, players)
  {
    r := entries;
    var teamId := TeamId(a.team);
    var k := FindIndex(r, IdIs(teamId));
    if k < 0 {
      r := r + [TeamEntry(teamId, Join(MemberNames(players, a.team), NAME_SEPARATOR), 0, 0, a.team)];
      k := |r| - 1;
    }
    var won := if AppearanceWins(a) then 1 else 0;
    r := r[k := r[k].(matches := r[k].matches + 1, wins := r[k].wins + won)];
  }

  /** The inner `forEach` over the teams of one doubles match whose winner is `w`. */
  method CountTeams(entries: seq<TeamEntry>, teams: seq<seq<string>>, w: Winner, players: seq<Player>, ghost before: seq<Appearance>)
    returns (r: seq<TeamEntry>)
    requires entries == Tally(before, players)
    ensures r == Tally(before + TeamAppearances(teams, w), players)
  {
    r := entries;
    assert before + TeamAppearances(teams[..0], w) == before;
    for j := 0 to |teams|
      invariant r == Tally(before + TeamAppearances(teams[..j], w), players)
    {
      var team := teams[j];
      ghost var sofar := before + TeamAppearances(teams[..j], w);
      AppearancesStep(before, teams, j, w);
      TallySnoc(sofar, Appearance(team, w), players);
      r := CountTeam(r, Appearance(team, w), players);
    }
    assert teams[..|teams|] == teams;
  }

  /** One more team of a match is one more appearance. */
  lemma AppearancesStep(before: seq<Appearance>, teams: seq<seq<string>>, j: nat, w: Winner)
    requires j < |teams|
    ensures before + TeamAppearances(teams[..j + 1], w) == before + TeamAppearances(teams[..j], w) + [Appearance(teams[j], w)]
  {
    assert TeamAppearances(teams[..j + 1], w) == TeamAppearances(teams[..j], w) + [Appearance(teams[j], w)];
  }

  /** `teams` filled by the two nested `forEach` loops over the doubles matches. */
  method BuildTeams(matches: seq<Match>, players: seq<Player>) returns (entries: seq<TeamEntry>)
    ensures entries == Tally(Appearances(matches), players)
  {
    entries := [];
    for i := 0 to |matches|
      invariant entries == Tally(Appearances(matches[..i]), players)
    {
      var m := matches[i];
      assert matches[..i + 1][..i] == matches[..i];
      ghost var before := Appearances(matches[..i]);
      assert Appearances(matches[..i + 1])
          == before + (if m.format == DOUBLES then TeamAppearances(m.teams, m.pointsEarned.winner) else []);
      if m.format == DOUBLES {
        entries := CountTeams(entries, m.teams, m.pointsEarned.winner, players, before);
      } else {
        assert before + [] == before;
      }
    }
    assert matches[..|matches|] == matches;
  }

  function Wins(): TeamEntry -> real
  {
    (e: TeamEntry) => e.wins as real
  }

  /** The team leaderboard: the rows, most wins first, at most ten. */
  method TeamLeaderboard(matches: seq<Match>, players: seq<Player>) returns (r: seq<TeamEntry>)
    ensures r == SlicePrefix(SortDesc(Tally(Appearances(matches), players), Wins()), LEADERBOARD_SIZE)
  {
    var teams := BuildTeams(matches, players);
    r := SlicePrefix(SortDesc(teams, Wins()), LEADERBOARD_SIZE);
  }

  /**
   * Each shown team is a distinct joined id of some doubles team, its
   * `matches` is the number of that team's appearances, and its wins are
   * between 0 and that; at most ten are shown, most wins first, and no team
   * left out has more wins than one shown.
   */
  lemma TeamLeaderboardSpec(matches: seq<Match>, players: seq<Player>)
    ensures var apps := Appearances(matches);
      var all := Tally(apps, players);
      var r := SlicePrefix(SortDesc(all, Wins()), LEADERBOARD_SIZE);
      && |r| == (if |all| < LEADERBOARD_SIZE then |all| else LEADERBOARD_SIZE)
      && (forall e :: e in r ==> e in all && e.id in AppearanceIds(apps))
      && (forall e :: e in r ==> e.matches == |Filter(apps, AppearanceOf(e.id))| && 0 <= e.wins <= e.matches)
      && SortedDesc(r, Wins())
      && (forall e, f :: e in r && f in all && f !in r ==> e.wins >= f.wins)
  {
    var apps := Appearances(matches);
    var all := Tally(apps, players);
    var r := SlicePrefix(SortDesc(all, Wins()), LEADERBOARD_SIZE);
    TallyEntries(apps, players);
    TopSpec(all, LEADERBOARD_SIZE, Wins());
    TopLeftOut(all, LEADERBOARD_SIZE, Wins());
    forall e, f | e in r && f in all && f !in r
      ensures e.wins >= f.wins
    {
      assert Wins()(e) >= Wins()(f);
    }
  }

  /** Every row is a joined id of some appearance, with that id's appearance count and at most as many wins. */
  lemma TallyEntries(apps: seq<Appearance>, players: seq<Player>)
    ensures var all := Tally(apps, players);
      forall e :: e in all ==>
        && e.id in AppearanceIds(apps)
        && e.matches == |Filter(apps, AppearanceOf(e.id))|
        && 0 <= e.wins <= e.matches
  {
    var all := Tally(apps, players);
    TallySpec(apps, players);
    forall e | e in all
      ensures e.id in AppearanceIds(apps)
      ensures e.matches == |Filter(apps, AppearanceOf(e.id))| && 0 <= e.wins <= e.matches
    {
      var i :| 0 <= i < |all| && all[i] == e;
      assert EntryIds(all)[i] == e.id;
      FilterFilter(apps, AppearanceOf(e.id), Winning());
      FilterMembers(Filter(apps, AppearanceOf(e.id)), Winning());
    }
  }

  /** The distinct joined ids of the teams of the doubles matches. */
  function UniqueTeamCount(matches: seq<Match>): nat
  {
    |ToSet(AppearanceIds(Appearances(matches)))|
  }

  /** The count of distinct teams is the number of rows the team leaderboard starts from. */
  lemma UniqueTeamsAreRows(matches: seq<Match>, players: seq<Player>)
    ensures UniqueTeamCount(matches) == |Tally(Appearances(matches), players)|
  {
    var apps := Appearances(matches);
    var all := Tally(apps, players);
    TallySpec(apps, players);
    assert ToSet(EntryIds(all)) == ToSet(AppearanceIds(apps));
    ToSetSize(EntryIds(all));
  }
}
