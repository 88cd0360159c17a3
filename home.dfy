/**
 * The home page's ranking: the five players with the most points.
 */
module Home {
  import opened MatchData
  import opened Sorting
  import opened Statistics

  const TOP_SIZE := 5

  /** `[...players].sort(byTotalPointsDesc).slice(0, 5)`. */
  function TopPlayers(players: seq<Player>): seq<Player>
  {
    SlicePrefix(SortDesc(players, TotalPoints()), TOP_SIZE)
  }

  /**
   * The ranking holds `min(5, |players|)` players, each taken from `players`
   * at most as often as it occurs there, ordered by points from most to
   * fewest with ties in their stored order, and no player left out has more
   * points than one shown.
   */
  lemma TopPlayersSpec(players: seq<Player>)
    ensures var top := TopPlayers(players);
      && |top| == (if |players| < TOP_SIZE then |players| else TOP_SIZE)
      && multiset(top) <= multiset(players)
      && (forall i, j :: 0 <= i < j < |top| ==> top[i].totalPoints >= top[j].totalPoints)
      && (forall k :: SameKey(top, TotalPoints(), k) <= SameKey(players, TotalPoints(), k))
      && (forall p, q :: p in top && q in players && q !in top ==> p.totalPoints >= q.totalPoints)
  {
    var top := TopPlayers(players);
    TopSpec(players, TOP_SIZE, TotalPoints());
    TopLeftOut(players, TOP_SIZE, TotalPoints());
    forall i, j | 0 <= i < j < |top|
      ensures top[i].totalPoints >= top[j].totalPoints
    {
      assert TotalPoints()(top[i]) >= TotalPoints()(top[j]);
    }
    forall p, q | p in top && q in players && q !in top
      ensures p.totalPoints >= q.totalPoints
    {
      assert TotalPoints()(p) >= TotalPoints()(q);
    }
  }
}
