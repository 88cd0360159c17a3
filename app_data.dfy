/**
 * The in-memory data store behind every page: the match queries, the local
 * (offline) branch of adding a match with its player-counter update, and the
 * record a newly added player starts from.
 */
module AppData {
  import opened Wrappers
  import opened MatchData
  import opened Sorting
  import opened ScoringSystem

  /** The sort key of every match query: the creation timestamp. */
  function CreatedAt(): Match -> real
  {
    (m: Match) => m.createdAt as real
  }

  /**
   * The filters of `getAllMatches`. An empty string or `None` is a filter
   * that was not supplied; `dateTo` is already the inclusive end of its day.
   */
  datatype MatchFilters = MatchFilters(player: string, format: string, dateFrom: Option<int>, dateTo: Option<int>)

  const NoFilters := MatchFilters("", "", None, None)

  function HasPlayer(id: string): Match -> bool
  {
    (m: Match) => id in m.players
  }

  function HasFormat(format: string): Match -> bool
  {
    (m: Match) => m.format == format
  }

  function NotBefore(t: int): Match -> bool
  {
    (m: Match) => m.createdAt >= t
  }

  function NotAfter(t: int): Match -> bool
  {
    (m: Match) => m.createdAt <= t
  }

  /** `getAllMatches`: each supplied filter narrows a copy, which is then sorted newest first. */
  function GetAllMatches(matches: seq<Match>, f: MatchFilters): seq<Match>
  {
    SortDesc(FilteredMatches(matches, f), CreatedAt())
  }

  /** A match passes every filter that was supplied. */
  predicate Selected(f: MatchFilters, m: Match)
  {
    && (f.player != "" ==> f.player in m.players)
    && (f.format != "" ==> m.format == f.format)
    && (f.dateFrom.Some? ==> m.createdAt >= f.dateFrom.value)
    && (f.dateTo.Some? ==> m.createdAt <= f.dateTo.value)
  }

  function SelectedBy(f: MatchFilters): Match -> bool
  {
    (m: Match) => Selected(f, m)
  }

  /** A filter applied only when `on` is the filter by "off, or passes". */
  lemma OptionalFilter<T>(s: seq<T>, on: bool, p: T -> bool, q: T -> bool)
    requires forall x :: q(x) == (!on || p(x))
    ensures (if on then Filter(s, p) else s) == Filter(s, q)
  {
    if on {
      FilterAgree(s, p, q);
    } else {
      FilterAll(s, q);
    }
  }

  function PlayerStep(f: MatchFilters): Match -> bool
  {
    (m: Match) => f.player == "" || f.player in m.players
  }

  function FormatStep(f: MatchFilters): Match -> bool
  {
    (m: Match) => f.format == "" || m.format == f.format
  }

  function FromStep(f: MatchFilters): Match -> bool
  {
    (m: Match) => f.dateFrom.None? || m.createdAt >= f.dateFrom.value
  }

  function ToStep(f: MatchFilters): Match -> bool
  {
    (m: Match) => f.dateTo.None? || m.createdAt <= f.dateTo.value
  }

  lemma PlayerFilterStep(s: seq<Match>, f: MatchFilters)
    ensures (if f.player != "" then Filter(s, HasPlayer(f.player)) else s) == Filter(s, PlayerStep(f))
  {
    OptionalFilter(s, f.player != "", HasPlayer(f.player), PlayerStep(f));
  }

  lemma FormatFilterStep(s: seq<Match>, f: MatchFilters)
    ensures (if f.format != "" then Filter(s, HasFormat(f.format)) else s) == Filter(s, FormatStep(f))
  {
    OptionalFilter(s, f.format != "", HasFormat(f.format), FormatStep(f));
  }

  lemma FromFilterStep(s: seq<Match>, f: MatchFilters)
    ensures (if f.dateFrom.Some? then Filter(s, NotBefore(f.dateFrom.value)) else s) == Filter(s, FromStep(f))
  {
    OptionalFilter(s, f.dateFrom.Some?, NotBefore(if f.dateFrom.Some? then f.dateFrom.value else 0), FromStep(f));
  }

  lemma ToFilterStep(s: seq<Match>, f: MatchFilters)
    ensures (if f.dateTo.Some? then Filter(s, NotAfter(f.dateTo.value)) else s) == Filter(s, ToStep(f))
  {
    OptionalFilter(s, f.dateTo.Some?, NotAfter(if f.dateTo.Some? then f.dateTo.value else 0), ToStep(f));
  }

  /** The unsorted result of `getAllMatches`. */
  function FilteredMatches(matches: seq<Match>, f: MatchFilters): seq<Match>
  {
    var byPlayer := if f.player != "" then Filter(matches, HasPlayer(f.player)) else matches;
    var byFormat := if f.format != "" then Filter(byPlayer, HasFormat(f.format)) else byPlayer;
    var byFrom := if f.dateFrom.Some? then Filter(byFormat, NotBefore(f.dateFrom.value)) else byFormat;
    if f.dateTo.Some? then Filter(byFrom, NotAfter(f.dateTo.value)) else byFrom
  }

  /** The three filters before the last one, as one filter. */
  function FirstThree(f: MatchFilters): Match -> bool
  {
    Both(Both(PlayerStep(f), FormatStep(f)), FromStep(f))
  }

  lemma FirstThreeChain(matches: seq<Match>, f: MatchFilters)
    ensures
      var byPlayer := if f.player != "" then Filter(matches, HasPlayer(f.player)) else matches;
      var byFormat := if f.format != "" then Filter(byPlayer, HasFormat(f.format)) else byPlayer;
      (if f.dateFrom.Some? then Filter(byFormat, NotBefore(f.dateFrom.value)) else byFormat)
        == Filter(matches, FirstThree(f))
  {
    var pf := Both(PlayerStep(f), FormatStep(f));
    var byPlayer := if f.player != "" then Filter(matches, HasPlayer(f.player)) else matches;
    PlayerFilterStep(matches, f);
    var byFormat := if f.format != "" then Filter(byPlayer, HasFormat(f.format)) else byPlayer;
    FormatFilterStep(byPlayer, f);
    FilterFilter(matches, PlayerStep(f), FormatStep(f));
    assert byFormat == Filter(matches, pf);
    FromFilterStep(byFormat, f);
    FilterFilter(matches, pf, FromStep(f));
  }

  lemma AllFourSelect(matches: seq<Match>, f: MatchFilters)
    ensures Filter(matches, Both(FirstThree(f), ToStep(f))) == Filter(matches, SelectedBy(f))
  {
    var all := Both(FirstThree(f), ToStep(f));
    forall x | x in matches
      ensures all(x) == SelectedBy(f)(x)
    {
    }
    FilterAgree(matches, all, SelectedBy(f));
  }

  /** Before sorting, the chain of optional filters is one filter by `Selected`. */
  lemma FilterChain(matches: seq<Match>, f: MatchFilters)
    ensures FilteredMatches(matches, f) == Filter(matches, SelectedBy(f))
  {
    FirstThreeChain(matches, f);
    ToFilterStep(Filter(matches, FirstThree(f)), f);
    FilterFilter(matches, FirstThree(f), ToStep(f));
    AllFourSelect(matches, f);
  }

  /**
   * `getAllMatches` returns exactly the stored matches that pass every
   * supplied filter, as many times as they are stored, newest first, with
   * matches created at the same time in stored order.
   */
  lemma GetAllMatchesSpec(matches: seq<Match>, f: MatchFilters)
    ensures multiset(GetAllMatches(matches, f)) == multiset(Filter(matches, SelectedBy(f)))
    ensures forall m :: m in GetAllMatches(matches, f) <==> m in matches && Selected(f, m)
    ensures SortedDesc(GetAllMatches(matches, f), CreatedAt())
    ensures forall k :: SameKey(GetAllMatches(matches, f), CreatedAt(), k) == SameKey(Filter(matches, SelectedBy(f)), CreatedAt(), k)
  {
    var fs := Filter(matches, SelectedBy(f));
    FilterChain(matches, f);
    assert GetAllMatches(matches, f) == SortDesc(fs, CreatedAt());
    SortDescProps(fs, CreatedAt());
    SelectedMembers(matches, f);
  }

  /** The sorted selection holds the stored matches that pass every filter, and only those. */
  lemma SelectedMembers(matches: seq<Match>, f: MatchFilters)
    ensures forall m :: m in SortDesc(Filter(matches, SelectedBy(f)), CreatedAt()) <==> m in matches && Selected(f, m)
  {
    SortDescMembers(Filter(matches, SelectedBy(f)), CreatedAt());
    FilterMembers(matches, SelectedBy(f));
  }

  /** With no filter supplied every stored match comes back, reordered newest first. */
  lemma NoFiltersKeepsAll(matches: seq<Match>)
    ensures multiset(GetAllMatches(matches, NoFilters)) == multiset(matches)
    ensures |GetAllMatches(matches, NoFilters)| == |matches|
  {
    GetAllMatchesSpec(matches, NoFilters);
    FilterAll(matches, SelectedBy(NoFilters));
    SortDescProps(matches, CreatedAt());
  }

  /**
   * `slice(0, limit)` of the newest-first order: at most `limit` matches,
   * which with the ones left out make up the stored matches, newest first,
   * and none older than a match left out.
   */
  lemma RecentMatchesSpec(matches: seq<Match>, limit: int)
    requires limit >= 0
    ensures var r := SlicePrefix(SortDesc(matches, CreatedAt()), limit);
      var rest := SortDesc(matches, CreatedAt())[|r|..];
      && |r| == (if limit < |matches| then limit else |matches|)
      && multiset(r) + multiset(rest) == multiset(matches)
      && SortedDesc(r, CreatedAt())
      && forall m, n :: m in r && n in rest ==> m.createdAt >= n.createdAt
  {
    TopSpec(matches, limit, CreatedAt());
  }

  /** Tests a record's id. */
  function MatchIdIs(id: string): Match -> bool
  {
    (m: Match) => m.id == id
  }

  function PlayerIdIs(id: string): Player -> bool
  {
    (p: Player) => p.id == id
  }

  /** The record a counter update leaves for a player credited with `points`, one match, and a win if `won`. */
  function Credit(p: Player, points: real, won: bool): Player
  {
    p.(totalPoints := p.totalPoints + points,
       matchesPlayed := p.matchesPlayed + 1,
       matchesWon := p.matchesWon + (if won then 1 else 0))
  }

  /** `hay.includes(needle)` on strings: whether `needle` occurs in `hay` at some position. */
  function Contains(hay: string, needle: string): bool
    decreases |hay|
  {
    needle <= hay || (hay != [] && Contains(hay[1..], needle))
  }

  /** `needle` sits in `hay` starting at offset `i`. */
  predicate OccursAt(hay: string, needle: string, i: int)
  {
    0 <= i <= |hay| - |needle| && hay[i..i + |needle|] == needle
  }

  /** An occurrence in the tail is one position further in the whole string. */
  lemma OccursShift(hay: string, needle: string, i: int)
    requires hay != [] && 0 <= i
    ensures OccursAt(hay[1..], needle, i) <==> OccursAt(hay, needle, i + 1)
  {
    if i <= |hay| - 1 - |needle| {
      assert hay[1..][i..i + |needle|] == hay[i + 1..i + 1 + |needle|];
    }
  }

  /** `Contains` is the substring test: `needle` sits in `hay` at some offset. */
  lemma {:induction false} ContainsAt(hay: string, needle: string)
    ensures Contains(hay, needle) <==> exists i :: OccursAt(hay, needle, i)
    decreases |hay|
  {
    if needle <= hay {
      assert OccursAt(hay, needle, 0);
    } else if hay != [] {
      ContainsAt(hay[1..], needle);
      if exists i :: OccursAt(hay[1..], needle, i) {
        var i :| OccursAt(hay[1..], needle, i);
        OccursShift(hay, needle, i);
      }
      if exists i :: OccursAt(hay, needle, i) {
        var i :| OccursAt(hay, needle, i);
        if i != 0 {
          OccursShift(hay, needle, i - 1);
        }
      }
    }
  }

  /** What `null.includes(...)` throws. */
  const NullIncludesError := TypeError("Cannot read properties of null (reading 'includes')")

  /** `pointsData.winner.includes(playerId)` on each shape the winner can take. */
  function WinnerIncludes(w: Winner, pid: string): Result<bool>
  {
    match w
    case NoWinner => Failure(NullIncludesError)
    case WinnerId(s) => Success(Contains(s, pid))
    case WinnerArray(ids) => Success(pid in ids)
  }

  /** The singles update: the first record of each of the two players is credited. */
  function SinglesCredit(ps: seq<Player>, p1: string, p2: string, pts: PointsEarned): seq<Player>
  {
    var p1Won := pts.winner == WinnerId(p1);
    var i1 := FindIndex(ps, PlayerIdIs(p1));
    var i2 := FindIndex(ps, PlayerIdIs(p2));
    var after1 := if i1 >= 0 then ps[i1 := Credit(ps[i1], ValueOr0(pts.points, p1) as real, p1Won)] else ps;
    if i2 >= 0 then after1[i2 := Credit(after1[i2], ValueOr0(pts.points, p2) as real, !p1Won)] else after1
  }

  /** One step of the doubles `forEach`: credit the first record of `pid`, if any. */
  function DoublesStep(ps: seq<Player>, pid: string, teams: seq<seq<string>>, pts: PointsEarned): Result<seq<Player>>
  {
    var i := FindIndex(ps, PlayerIdIs(pid));
    if i < 0 then Success(ps)
    else
      match FindTeam(teams, pid)
      case None => Failure(NoTeamError)
      case Some(team) =>
        match WinnerIncludes(pts.winner, pid)
        case Failure(e) => Failure(e)
        case Success(won) => Success(ps[i := Credit(ps[i], ValueOr0(pts.points, TeamId(team)) as real / 2.0, won)])
  }

  /** The doubles update over the listed players, in order; the first error stops it. */
  function DoublesCredit(ps: seq<Player>, ids: seq<string>, teams: seq<seq<string>>, pts: PointsEarned): Result<seq<Player>>
    decreases |ids|
  {
    if ids == [] then Success(ps)
    else
      match DoublesCredit(ps, ids[..|ids| - 1], teams, pts)
      case Failure(e) => Failure(e)
      case Success(qs) => DoublesStep(qs, ids[|ids| - 1], teams, pts)
  }

  /** `updateLocalPlayerStats` as a function of the player list. */
  function CreditPlayers(ps: seq<Player>, data: MatchInput, pts: PointsEarned): Result<seq<Player>>
    requires Readable(data)
  {
    if data.format == SINGLES then Success(SinglesCredit(ps, data.players[0], data.players[1], pts))
    else if data.format == DOUBLES then DoublesCredit(ps, data.players, data.teams, pts)
    else Success(ps)
  }

  /** The same player ids, position by position. */
  predicate SameIds(ps: seq<Player>, qs: seq<Player>)
  {
    |ps| == |qs| && forall j :: 0 <= j < |ps| ==> qs[j].id == ps[j].id
  }

  /** Lists with the same ids find a given id at the same index. */
  lemma {:induction false} FindIndexSameIds(ps: seq<Player>, qs: seq<Player>, id: string)
    requires SameIds(ps, qs)
    ensures FindIndex(qs, PlayerIdIs(id)) == FindIndex(ps, PlayerIdIs(id))
  {
    var i, k := FindIndex(ps, PlayerIdIs(id)), FindIndex(qs, PlayerIdIs(id));
    if i >= 0 {
      assert PlayerIdIs(id)(qs[i]);
    }
    if k >= 0 {
      assert PlayerIdIs(id)(ps[k]);
    }
  }

  /** Only the three counters of a record move; its id, name and other counters stay. */
  predicate SameExceptCounters(p: Player, q: Player)
  {
    q == p.(totalPoints := q.totalPoints, matchesPlayed := q.matchesPlayed, matchesWon := q.matchesWon)
  }

  /** Index `j` holds the first record with its own id. */
  predicate FirstOfId(ps: seq<Player>, j: int)
    requires 0 <= j < |ps|
  {
    FindIndex(ps, PlayerIdIs(ps[j].id)) == j
  }

  /**
   * The singles update keeps the list's length and ids, changes only the
   * first record of each of the two players, and only in its counters: each
   * found player gets a match and their points; player 1 gets the win exactly
   * when they are the winner, otherwise player 2 gets it, also when the
   * winner is `null`.
   */
  lemma SinglesCreditSpec(ps: seq<Player>, p1: string, p2: string, pts: PointsEarned)
    requires p1 != p2
    ensures var qs := SinglesCredit(ps, p1, p2, pts);
      && SameIds(ps, qs)
      && (forall j :: 0 <= j < |ps| ==> SameExceptCounters(ps[j], qs[j]))
      && (forall j :: 0 <= j < |ps| && !(FirstOfId(ps, j) && ps[j].id in {p1, p2}) ==> qs[j] == ps[j])
      && (forall j :: 0 <= j < |ps| && FirstOfId(ps, j) && ps[j].id == p1 ==>
            qs[j] == Credit(ps[j], ValueOr0(pts.points, p1) as real, pts.winner == WinnerId(p1)))
      && (forall j :: 0 <= j < |ps| && FirstOfId(ps, j) && ps[j].id == p2 ==>
            qs[j] == Credit(ps[j], ValueOr0(pts.points, p2) as real, pts.winner != WinnerId(p1)))
  {
    var qs := SinglesCredit(ps, p1, p2, pts);
    assert |qs| == |ps|;
    forall j | 0 <= j < |ps|
      ensures qs[j].id == ps[j].id && SameExceptCounters(ps[j], qs[j])
    {
      SinglesCreditAt(ps, p1, p2, pts, j);
    }
    forall j | 0 <= j < |ps| && !(FirstOfId(ps, j) && ps[j].id in {p1, p2})
      ensures qs[j] == ps[j]
    {
      SinglesCreditAt(ps, p1, p2, pts, j);
    }
    forall j | 0 <= j < |ps| && FirstOfId(ps, j) && ps[j].id == p1
      ensures qs[j] == Credit(ps[j], ValueOr0(pts.points, p1) as real, pts.winner == WinnerId(p1))
    {
      SinglesCreditAt(ps, p1, p2, pts, j);
    }
    forall j | 0 <= j < |ps| && FirstOfId(ps, j) && ps[j].id == p2
      ensures qs[j] == Credit(ps[j], ValueOr0(pts.points, p2) as real, pts.winner != WinnerId(p1))
    {
      SinglesCreditAt(ps, p1, p2, pts, j);
    }
  }

  /** What the singles update does to the record at index `j`. */
  predicate SinglesCreditedAt(ps: seq<Player>, qs: seq<Player>, j: int, p1: string, p2: string, pts: PointsEarned)
    requires 0 <= j < |ps| == |qs|
  {
    && qs[j].id == ps[j].id
    && SameExceptCounters(ps[j], qs[j])
    && (!(FirstOfId(ps, j) && ps[j].id in {p1, p2}) ==> qs[j] == ps[j])
    && (FirstOfId(ps, j) && ps[j].id == p1 ==>
          qs[j] == Credit(ps[j], ValueOr0(pts.points, p1) as real, pts.winner == WinnerId(p1)))
    && (FirstOfId(ps, j) && ps[j].id == p2 ==>
          qs[j] == Credit(ps[j], ValueOr0(pts.points, p2) as real, pts.winner != WinnerId(p1)))
  }

  /** The singles update at one index: the two found records are distinct and each is credited once. */
  lemma SinglesCreditAt(ps: seq<Player>, p1: string, p2: string, pts: PointsEarned, j: int)
    requires p1 != p2 && 0 <= j < |ps|
    ensures |SinglesCredit(ps, p1, p2, pts)| == |ps|
    ensures SinglesCreditedAt(ps, SinglesCredit(ps, p1, p2, pts), j, p1, p2, pts)
  {
    var i1 := FindIndex(ps, PlayerIdIs(p1));
    var i2 := FindIndex(ps, PlayerIdIs(p2));
    var p1Won := pts.winner == WinnerId(p1);
    var after1 := if i1 >= 0 then ps[i1 := Credit(ps[i1], ValueOr0(pts.points, p1) as real, p1Won)] else ps;
    var qs := if i2 >= 0 then after1[i2 := Credit(after1[i2], ValueOr0(pts.points, p2) as real, !p1Won)] else after1;
    assert qs == SinglesCredit(ps, p1, p2, pts);
    if i1 >= 0 && i2 >= 0 {
      assert ps[i1].id == p1 && ps[i2].id == p2;
      assert i1 != i2;
    }
    if j == i1 {
      assert PlayerIdIs(p1)(ps[j]);
      assert qs[j] == Credit(ps[j], ValueOr0(pts.points, p1) as real, p1Won);
    } else if j == i2 {
      assert PlayerIdIs(p2)(ps[j]);
      assert qs[j] == Credit(ps[j], ValueOr0(pts.points, p2) as real, !p1Won);
    } else {
      assert qs[j] == ps[j];
    }
  }

  /** A tie stored as a `null` winner: the singles update hands the win to player 2. */
  lemma NullWinnerCreditsSecond(ps: seq<Player>, p1: string, p2: string, pts: PointsEarned, j: int)
    requires p1 != p2 && pts.winner == NoWinner
    requires 0 <= j < |ps| && FirstOfId(ps, j) && ps[j].id == p2
    ensures SinglesCredit(ps, p1, p2, pts)[j].matchesWon == ps[j].matchesWon + 1
  {
    SinglesCreditSpec(ps, p1, p2, pts);
  }

  /** What one credited doubles player receives, when their team is found and the winner is not `null`. */
  predicate DoublesCredited(p: Player, q: Player, teams: seq<seq<string>>, pts: PointsEarned)
  {
    && FindTeam(teams, p.id).Some?
    && WinnerIncludes(pts.winner, p.id).Success?
    && q == Credit(p, ValueOr0(pts.points, TeamId(FindTeam(teams, p.id).value)) as real / 2.0,
                   WinnerIncludes(pts.winner, p.id).value)
  }

  /** A step keeps length and ids, and touches at most the first record of `pid`. */
  lemma DoublesStepSpec(ps: seq<Player>, pid: string, teams: seq<seq<string>>, pts: PointsEarned)
    requires DoublesStep(ps, pid, teams, pts).Success?
    ensures var qs := DoublesStep(ps, pid, teams, pts).value;
      && SameIds(ps, qs)
      && (forall j :: 0 <= j < |ps| && !(ps[j].id == pid && FirstOfId(ps, j)) ==> qs[j] == ps[j])
      && (forall j :: 0 <= j < |ps| && ps[j].id == pid && FirstOfId(ps, j) ==> DoublesCredited(ps[j], qs[j], teams, pts))
  {
  }

  /**
   * The doubles update, when it does not throw: the list keeps its length and
   * ids; the first record of each listed player (listed once) gets a match,
   * half the team's points and a win when `winner.includes(id)` holds; every
   * other record is unchanged.
   */
  lemma {:induction false} DoublesCreditSpec(ps: seq<Player>, ids: seq<string>, teams: seq<seq<string>>, pts: PointsEarned)
    requires Distinct(ids)
    requires DoublesCredit(ps, ids, teams, pts).Success?
    ensures var qs := DoublesCredit(ps, ids, teams, pts).value;
      && SameIds(ps, qs)
      && (forall j :: 0 <= j < |ps| && !(ps[j].id in ids && FirstOfId(ps, j)) ==> qs[j] == ps[j])
      && (forall j :: 0 <= j < |ps| && ps[j].id in ids && FirstOfId(ps, j) ==> DoublesCredited(ps[j], qs[j], teams, pts))
    decreases |ids|
  {
    if ids != [] {
      var init, last := ids[..|ids| - 1], ids[|ids| - 1];
      assert Distinct(init);
      DoublesCreditSpec(ps, init, teams, pts);
      var mid := DoublesCredit(ps, init, teams, pts).value;
      var qs := DoublesCredit(ps, ids, teams, pts).value;
      DoublesStepSpec(mid, last, teams, pts);
      forall j | 0 <= j < |ps|
        ensures FirstOfId(mid, j) == FirstOfId(ps, j)
      {
        FindIndexSameIds(ps, mid, ps[j].id);
      }
      assert last !in init;
    }
  }

  /** The store of the offline mode: the match list and the player list. */
  class Store {
    var matches: seq<Match>
    var players: seq<Player>

    /** A store holding the lists it was loaded with. */
    constructor (matches0: seq<Match>, players0: seq<Player>)
      ensures matches == matches0 && players == players0
    {
      matches := matches0;
      players := players0;
    }

    /**
     * `getRecentMatches(limit)`: sorts the stored list itself newest first and
     * returns its first `limit` entries.
     */
    method GetRecentMatches(limit: int) returns (r: seq<Match>)
      modifies this
      ensures matches == SortDesc(old(matches), CreatedAt())
      ensures players == old(players)
      ensures r == SlicePrefix(matches, limit)
    {
      matches := SortDesc(matches, CreatedAt());
      r := SlicePrefix(matches, limit);
    }

    /** `getMatchById`: the first stored match with the id, or nothing. */
    function GetMatchById(id: string): (r: Option<Match>)
      reads this
      ensures r.Some? ==> r.value in matches && r.value.id == id
      ensures r.Some? ==> exists i :: 0 <= i < |matches| && matches[i] == r.value &&
                            forall k :: 0 <= k < i ==> matches[k].id != id
      ensures r.None? <==> forall m :: m in matches ==> m.id != id
    {
      Find(matches, MatchIdIs(id))
    }

    /** `getPlayerById`: the first stored player with the id, or nothing. */
    function GetPlayerById(id: string): (r: Option<Player>)
      reads this
      ensures r.Some? ==> r.value in players && r.value.id == id
      ensures r.Some? ==> exists i :: 0 <= i < |players| && players[i] == r.value &&
                            forall k :: 0 <= k < i ==> players[k].id != id
      ensures r.None? <==> forall p :: p in players ==> p.id != id
    {
      Find(players, PlayerIdIs(id))
    }

    /**
     * `updateLocalPlayerStats`: the player list after the match, or the error
     * the update throws, in which case the list is left as it was.
     */
    method UpdateLocalPlayerStats(data: MatchInput, pts: PointsEarned) returns (r: Result<()>)
      requires Readable(data)
      modifies this
      ensures matches == old(matches)
      ensures CreditPlayers(old(players), data, pts).Success? ==>
                r.Success? && players == CreditPlayers(old(players), data, pts).value
      ensures CreditPlayers(old(players), data, pts).Failure? ==>
                r == Failure(CreditPlayers(old(players), data, pts).error) && players == old(players)
    {
      if data.format == SINGLES {
        var p1, p2 := data.players[0], data.players[1];
        var p1Won := pts.winner == WinnerId(p1);
        var updated := players;
        var i1 := FindIndex(updated, PlayerIdIs(p1));
        var i2 := FindIndex(updated, PlayerIdIs(p2));
        if i1 >= 0 {
          updated := updated[i1 := Credit(updated[i1], ValueOr0(pts.points, p1) as real, p1Won)];
        }
        if i2 >= 0 {
          updated := updated[i2 := Credit(updated[i2], ValueOr0(pts.points, p2) as real, !p1Won)];
        }
        players := updated;
      } else if data.format == DOUBLES {
        var updated := CreditDoubles(players, data.players, data.teams, pts);
        if updated.Failure? {
          return Failure(updated.error);
        }
        players := updated.value;
      }
      r := Success(());
    }

    /**
     * `addMatch`, offline branch: the match is scored, given the id `m<n+1>`
     * for `n` stored matches and the time `now`, and appended; then its
     * players' counters are updated. When the update throws, the match stays
     * appended, the players are left as they were and the error is rethrown.
     */
    method AddMatch(data: MatchInput, now: int) returns (r: Result<Match>)
      requires Readable(data)
      modifies this
      ensures |matches| == |old(matches)| + 1
      ensures var stored := Match("m" + DecimalString(|old(matches)| + 1), data.format, data.players, data.teams,
                                  data.sets, now, matches[|matches| - 1].pointsEarned);
        && matches == old(matches) + [stored]
        && Scores(data, stored.pointsEarned)
        && (r.Success? ==> r.value == stored && CreditPlayers(old(players), data, stored.pointsEarned) == Success(players))
        && (r.Failure? ==>
              && players == old(players) && data.format == DOUBLES
              && CreditPlayers(old(players), data, stored.pointsEarned) == Failure(r.error))
      ensures Numbered(old(matches)) ==> Numbered(matches)
    {
      var pts := CalculateMatchPoints(data);
      var newMatch := Match("m" + DecimalString(|matches| + 1), data.format, data.players, data.teams, data.sets, now, pts);
      matches := matches + [newMatch];
      NumberedSnoc(old(matches), newMatch);
      var update := UpdateLocalPlayerStats(data, pts);
      if update.Failure? {
        return Failure(update.error);
      }
      r := Success(newMatch);
    }
  }

  /** Matches numbered as the offline store numbers them: the `i`-th stored is `m<i+1>`. */
  predicate Numbered(ms: seq<Match>)
  {
    forall i :: 0 <= i < |ms| ==> ms[i].id == "m" + DecimalString(i + 1)
  }

  /** Appending the match numbered after the last keeps the store numbered. */
  lemma NumberedSnoc(ms: seq<Match>, m: Match)
    requires m.id == "m" + DecimalString(|ms| + 1)
    ensures Numbered(ms) ==> Numbered(ms + [m])
  {
  }

  /** A numbered store holds distinct match ids, as `find` by id needs. */
  lemma NumberedDistinct(ms: seq<Match>)
    requires Numbered(ms)
    ensures forall i, j :: 0 <= i < j < |ms| ==> ms[i].id != ms[j].id
  {
    forall i, j | 0 <= i < j < |ms|
      ensures ms[i].id != ms[j].id
    {
      if ms[i].id == ms[j].id {
        assert DecimalString(i + 1) == ms[i].id[1..];
        assert DecimalString(j + 1) == ms[j].id[1..];
        DecimalStringInjective(i + 1, j + 1);
      }
    }
  }

  /**
   * The doubles `forEach` of `updateLocalPlayerStats` on the copied list:
   * each listed player's first record is credited; a player without a team,
   * or a `null` winner, throws.
   */
  method CreditDoubles(ps: seq<Player>, ids: seq<string>, teams: seq<seq<string>>, pts: PointsEarned)
    returns (r: Result<seq<Player>>)
    ensures r == DoublesCredit(ps, ids, teams, pts)
  {
    var updated := ps;
    for i := 0 to |ids|
      invariant DoublesCredit(ps, ids[..i], teams, pts) == Success(updated)
    {
      var pid := ids[i];
      assert ids[..i + 1][..i] == ids[..i];
      var index := FindIndex(updated, PlayerIdIs(pid));
      if index >= 0 {
        var team := FindTeam(teams, pid);
        if team.None? {
          DoublesFailurePersists(ps, ids, i + 1, teams, pts);
          return Failure(NoTeamError);
        }
        var teamId := TeamId(team.value);
        var isWinner := WinnerIncludes(pts.winner, pid);
        if isWinner.Failure? {
          DoublesFailurePersists(ps, ids, i + 1, teams, pts);
          return Failure(isWinner.error);
        }
        updated := updated[index := Credit(updated[index], ValueOr0(pts.points, teamId) as real / 2.0, isWinner.value)];
      }
    }
    assert ids[..|ids|] == ids;
    r := Success(updated);
  }

  /** An error in a prefix of the doubles players ends the whole update with it. */
  lemma {:induction false} DoublesFailurePersists(ps: seq<Player>, ids: seq<string>, n: nat, teams: seq<seq<string>>, pts: PointsEarned)
    requires n <= |ids| && DoublesCredit(ps, ids[..n], teams, pts).Failure?
    ensures DoublesCredit(ps, ids, teams, pts) == DoublesCredit(ps, ids[..n], teams, pts)
    decreases |ids| - n
  {
    if n < |ids| {
      assert ids[..n + 1][..n] == ids[..n];
      DoublesFailurePersists(ps, ids, n + 1, teams, pts);
    } else {
      assert ids[..n] == ids;
    }
  }

  /**
   * `addPlayer`: the new record with all counters at 0 (`setsWon` and
   * `gamesWon` included); the id is the one the database assigns.
   */
  function NewPlayer(id: string, name: string): Player
  {
    Player(id, name, 0.0, 0, 0, 0, 0)
  }

  /** A player in none of the matches has all statistics at 0. */
  lemma {:induction false} NoMatchesNoStats(ms: seq<Match>, pid: string)
    requires forall m :: m in ms ==> pid !in m.players
    ensures StatsOf(ms, pid) == Success(ZeroStats)
    decreases |ms|
  {
    if ms != [] {
      NoMatchesNoStats(ms[..|ms| - 1], pid);
      assert ms[|ms| - 1] in ms;
    }
  }

  /**
   * A new player's counters are the statistics the scoring engine computes
   * for someone who has played none of the stored matches.
   */
  lemma NewPlayerHasNoHistory(id: string, name: string, ms: seq<Match>)
    requires forall m :: m in ms ==> id !in m.players
    ensures StatsOf(ms, id).Success?
    ensures var p := NewPlayer(id, name);
      var st := StatsOf(ms, id).value;
      && p.totalPoints == st.totalPoints && p.matchesPlayed == st.totalMatches && p.matchesWon == st.matchesWon
      && p.setsWon == st.setsWon && p.gamesWon as real == st.gamesWon
  {
    NoMatchesNoStats(ms, id);
  }
}
