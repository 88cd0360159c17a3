/**
 * The data behind a player's points-over-time line chart: the matches the
 * player took part in, oldest first, each with the points it earned them
 * and the running total up to it.
 */
module ProgressChart {
  import opened MatchData
  import opened Sorting
  import opened AppData

  /** One point of the chart; `createdAt` stands for the day label drawn from it. */
  datatype ProgressPoint = ProgressPoint(createdAt: int, points: real, cumulativePoints: real)

  /** The key under which the descending stable sort puts the oldest match first. */
  function OldestFirst(): Match -> real
  {
    (m: Match) => -(m.createdAt as real)
  }

  /**
   * What one match earned the player: their own points in singles, half of
   * their team's points in doubles, and nothing when they are on no team or
   * the format is unknown.
   */
  function MatchPoints(m: Match, pid: string): real
  {
    if m.format == SINGLES then ValueOr0(m.pointsEarned.points, pid) as real
    else if m.format == DOUBLES then
      match FindTeam(m.teams, pid)
      case Some(team) => ValueOr0(m.pointsEarned.points, TeamId(team)) as real / 2.0
      case None => 0.0
    else 0.0
  }

  /** The matches the player took part in, oldest first (ties keep their stored order). */
  function Attended(matches: seq<Match>, pid: string): seq<Match>
  {
    Filter(SortDesc(matches, OldestFirst()), HasPlayer(pid))
  }

  /** The points a run of matches earned the player. */
  function PointsSum(ms: seq<Match>, pid: string): real
  {
    if ms == [] then 0.0 else PointsSum(ms[..|ms| - 1], pid) + MatchPoints(ms[|ms| - 1], pid)
  }

  /** The `k`-th point of the chart for the attended matches `ps`. */
  function PointAt(ps: seq<Match>, k: nat, pid: string): ProgressPoint
    requires k < |ps|
  {
    ProgressPoint(ps[k].createdAt, MatchPoints(ps[k], pid), PointsSum(ps[..k + 1], pid))
  }

  /**
   * `prepareData`: nothing without matches or a player; otherwise one point
   * per attended match, oldest first, carrying what that match earned and
   * the total earned up to and including it.
   */
  method PrepareData(matches: seq<Match>, pid: string) returns (r: seq<ProgressPoint>)
    ensures matches == [] || pid == "" ==> r == []
    ensures matches != [] && pid != "" ==>
      var ps := Attended(matches, pid);
      |r| == |ps| && forall k :: 0 <= k < |r| ==> r[k] == PointAt(ps, k, pid)
  {
    if matches == [] || pid == "" {
      return [];
    }
    r := ChartOf(SortDesc(matches, OldestFirst()), pid);
  }

  /** The loop of `prepareData` over the sorted matches, skipping those the player missed. */
  method ChartOf(sorted: seq<Match>, pid: string) returns (r: seq<ProgressPoint>)
    ensures Charts(r, Filter(sorted, HasPlayer(pid)), pid)
  {
    r := [];
    var cumulative := 0.0;
    ghost var ps: seq<Match> := [];
    var i := 0;
    while i < |sorted|
      invariant 0 <= i <= |sorted|
      invariant ps == Filter(sorted[..i], HasPlayer(pid))
      invariant Charts(r, ps, pid) && cumulative == PointsSum(ps, pid)
    {
      var m := sorted[i];
      assert sorted[..i + 1] == sorted[..i] + [m];
      FilterSnoc(sorted[..i], m, HasPlayer(pid));
      if pid in m.players {
        var earned := MatchPoints(m, pid);
        ChartsSnoc(r, ps, m, pid);
        cumulative := cumulative + earned;
        r := r + [ProgressPoint(m.createdAt, earned, cumulative)];
        ps := ps + [m];
      }
      i := i + 1;
    }
    assert sorted[..i] == sorted;
  }

  /** `r` is the chart of the attended matches `ps`. */
  ghost predicate Charts(r: seq<ProgressPoint>, ps: seq<Match>, pid: string)
  {
    |r| == |ps| && forall k :: 0 <= k < |r| ==> r[k] == PointAt(ps, k, pid)
  }

  /** One more attended match adds one point carrying the new total. */
  lemma ChartsSnoc(r: seq<ProgressPoint>, ps: seq<Match>, m: Match, pid: string)
    requires Charts(r, ps, pid)
    ensures PointsSum(ps + [m], pid) == PointsSum(ps, pid) + MatchPoints(m, pid)
    ensures Charts(r + [ProgressPoint(m.createdAt, MatchPoints(m, pid), PointsSum(ps, pid) + MatchPoints(m, pid))], ps + [m], pid)
  {
    PointsSnoc(ps, m, pid);
    assert (ps + [m])[..|ps| + 1] == ps + [m];
  }

  /** Extending the attended matches by one keeps the earlier points and adds one with the new total. */
  lemma PointsSnoc(ps: seq<Match>, m: Match, pid: string)
    ensures PointsSum(ps + [m], pid) == PointsSum(ps, pid) + MatchPoints(m, pid)
    ensures forall k :: 0 <= k < |ps| ==> PointAt(ps + [m], k, pid) == PointAt(ps, k, pid)
  {
    assert (ps + [m])[..|ps|] == ps;
    forall k | 0 <= k < |ps|
      ensures PointAt(ps + [m], k, pid) == PointAt(ps, k, pid)
    {
      assert (ps + [m])[..k + 1] == ps[..k + 1];
    }
  }

  /** Each point's total is the previous point's total plus what its own match earned. */
  lemma RunningTotal(ps: seq<Match>, pid: string, k: nat)
    requires 0 < k < |ps|
    ensures PointAt(ps, 0, pid).cumulativePoints == PointAt(ps, 0, pid).points
    ensures PointAt(ps, k, pid).cumulativePoints == PointAt(ps, k - 1, pid).cumulativePoints + PointAt(ps, k, pid).points
  {
    assert ps[..1][..0] == [];
    assert PointsSum(ps[..1], pid) == PointsSum([], pid) + MatchPoints(ps[0], pid);
    assert ps[..k + 1][..k] == ps[..k];
  }

  /**
   * The chart covers exactly the matches the player took part in, each
   * once, in order of creation.
   */
  lemma AttendedSpec(matches: seq<Match>, pid: string)
    ensures var ps := Attended(matches, pid);
      && multiset(ps) == multiset(Filter(matches, HasPlayer(pid)))
      && (forall m :: m in ps <==> m in matches && pid in m.players)
      && (forall i, j :: 0 <= i < j < |ps| ==> ps[i].createdAt <= ps[j].createdAt)
  {
    var sorted := SortDesc(matches, OldestFirst());
    SortDescProps(matches, OldestFirst());
    AttendedCounts(matches, sorted, pid);
    AttendedMembers(matches, sorted, pid);
    AttendedOrder(sorted, pid);
  }

  /** Filtering a permutation keeps each match as often as filtering the original. */
  lemma AttendedCounts(matches: seq<Match>, sorted: seq<Match>, pid: string)
    requires multiset(sorted) == multiset(matches)
    ensures multiset(Filter(sorted, HasPlayer(pid))) == multiset(Filter(matches, HasPlayer(pid)))
  {
    forall m
      ensures multiset(Filter(sorted, HasPlayer(pid)))[m] == multiset(Filter(matches, HasPlayer(pid)))[m]
    {
      FilterCount(sorted, HasPlayer(pid), m);
      FilterCount(matches, HasPlayer(pid), m);
    }
  }

  /** The attended matches are the stored matches the player took part in. */
  lemma AttendedMembers(matches: seq<Match>, sorted: seq<Match>, pid: string)
    requires multiset(sorted) == multiset(matches)
    ensures forall m :: m in Filter(sorted, HasPlayer(pid)) <==> m in matches && pid in m.players
  {
    FilterMembers(sorted, HasPlayer(pid));
    forall m
      ensures m in sorted <==> m in matches
    {
      assert m in sorted <==> m in multiset(sorted);
      assert m in matches <==> m in multiset(matches);
    }
  }

  /** Filtering the oldest-first order keeps it oldest first. */
  lemma AttendedOrder(sorted: seq<Match>, pid: string)
    requires SortedDesc(sorted, OldestFirst())
    ensures var ps := Filter(sorted, HasPlayer(pid));
      forall i, j :: 0 <= i < j < |ps| ==> ps[i].createdAt <= ps[j].createdAt
  {
    var ps := Filter(sorted, HasPlayer(pid));
    FilterSorted(sorted, HasPlayer(pid), OldestFirst());
    forall i, j | 0 <= i < j < |ps|
      ensures ps[i].createdAt <= ps[j].createdAt
    {
      assert OldestFirst()(ps[i]) >= OldestFirst()(ps[j]);
    }
  }
}
