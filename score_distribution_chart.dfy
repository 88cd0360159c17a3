/**
 * The data behind a player's won/lost pie chart: how many of the matches
 * they took part in they won and how many they lost.
 */
module DistributionChart {
  import opened Wrappers
  import opened MatchData
  import opened Sorting
  import opened AppData
  import opened Statistics

  const WON_LABEL := "Виграні матчі"
  const LOST_LABEL := "Програні матчі"

  /** What calling `.some` on a string winner raises. */
  const SOME_ERROR := TypeError("match.pointsEarned.winner.some is not a function")

  /** One slice of the pie. */
  datatype Slice = Slice(name: string, value: int)

  /**
   * The outcome of one match for the player as the chart code reads it:
   * `Some(true)` won, `Some(false)` lost, `None` not counted. A doubles
   * match with a truthy winner calls `.some` on it, which only an array has.
   */
  function OutcomeAsWritten(m: Match, pid: string): Result<Option<bool>>
  {
    if pid !in m.players then Success(None)
    else if m.format == SINGLES then Success(Some(m.pointsEarned.winner == WinnerId(pid)))
    else if m.format == DOUBLES then
      match FindTeam(m.teams, pid)
      case None => Success(None)
      case Some(team) =>
        if !m.pointsEarned.winner.Truthy() then Success(None)
        else match m.pointsEarned.winner
          case WinnerArray(ids) => Success(Some(SomeShared(ids, team)))
          case _ => Failure(SOME_ERROR)
    else Success(None)
  }

  /**
   * The intended outcome: as above, except that a doubles winner stored as a
   * team id (what the scoring engine writes) is a win for the team with that id.
   */
  function Outcome(m: Match, pid: string): Option<bool>
  {
    if pid !in m.players then None
    else if m.format == SINGLES then Some(m.pointsEarned.winner == WinnerId(pid))
    else if m.format == DOUBLES then
      match FindTeam(m.teams, pid)
      case None => None
      case Some(team) =>
        if !m.pointsEarned.winner.Truthy() then None
        else match m.pointsEarned.winner
          case WinnerId(id) => Some(id == TeamId(team))
          case WinnerArray(ids) => Some(SomeShared(ids, team))
          case NoWinner => None
    else None
  }

  /** The chart code raises on this match. */
  predicate Throws(m: Match, pid: string)
  {
    OutcomeAsWritten(m, pid).Failure?
  }

  function WonBy(pid: string): Match -> bool
  {
    (m: Match) => Outcome(m, pid) == Some(true)
  }

  function LostBy(pid: string): Match -> bool
  {
    (m: Match) => Outcome(m, pid) == Some(false)
  }

  /** The two slices for a list of matches. */
  function Slices(ms: seq<Match>, pid: string): seq<Slice>
  {
    [Slice(WON_LABEL, |Filter(ms, WonBy(pid))|), Slice(LOST_LABEL, |Filter(ms, LostBy(pid))|)]
  }

  /** Where the code does not raise it reads every match as intended. */
  lemma AsWrittenAgrees(m: Match, pid: string)
    ensures Throws(m, pid) || OutcomeAsWritten(m, pid) == Success(Outcome(m, pid))
    ensures Throws(m, pid) <==>
      && pid in m.players && m.format == DOUBLES && FindTeam(m.teams, pid).Some?
      && m.pointsEarned.winner.WinnerId? && m.pointsEarned.winner.id != ""
  {
  }

  /**
   * `prepareData` as written: nothing without matches or a player; raises
   * as soon as it meets a doubles match it cannot read; otherwise the won
   * and lost counts.
   */
  method PrepareDataAsWritten(matches: seq<Match>, pid: string) returns (r: Result<seq<Slice>>)
    ensures matches == [] || pid == "" ==> r == Success([])
    ensures matches != [] && pid != "" ==>
      if exists i :: 0 <= i < |matches| && Throws(matches[i], pid) then r == Failure(SOME_ERROR)
      else r == Success(Slices(matches, pid))
  {
    if matches == [] || pid == "" {
      return Success([]);
    }
    var won, lost := 0, 0;
    var i := 0;
    while i < |matches|
      invariant 0 <= i <= |matches|
      invariant forall j :: 0 <= j < i ==> !Throws(matches[j], pid)
      invariant won == |Filter(matches[..i], WonBy(pid))| && lost == |Filter(matches[..i], LostBy(pid))|
    {
      var m := matches[i];
      AsWrittenAgrees(m, pid);
      var o := OutcomeAsWritten(m, pid);
      if o.Failure? {
        assert Throws(matches[i], pid);
        return Failure(o.error);
      }
      CountStep(matches, i, pid);
      if o.value == Some(true) {
        won := won + 1;
      } else if o.value == Some(false) {
        lost := lost + 1;
      }
      i := i + 1;
    }
    assert matches[..i] == matches;
    r := Success([Slice(WON_LABEL, won), Slice(LOST_LABEL, lost)]);
  }

  /** `prepareData` with doubles winners read as intended: the won and lost counts. */
  method PrepareData(matches: seq<Match>, pid: string) returns (r: seq<Slice>)
    ensures r == if matches == [] || pid == "" then [] else Slices(matches, pid)
  {
    if matches == [] || pid == "" {
      return [];
    }
    var won, lost := 0, 0;
    var i := 0;
    while i < |matches|
      invariant 0 <= i <= |matches|
      invariant won == |Filter(matches[..i], WonBy(pid))| && lost == |Filter(matches[..i], LostBy(pid))|
    {
      var m := matches[i];
      var o := Outcome(m, pid);
      CountStep(matches, i, pid);
      if o == Some(true) {
        won := won + 1;
      } else if o == Some(false) {
        lost := lost + 1;
      }
      i := i + 1;
    }
    assert matches[..i] == matches;
    r := [Slice(WON_LABEL, won), Slice(LOST_LABEL, lost)];
  }

  /** One more match adds one to the won or the lost count, as its outcome says. */
  lemma CountStep(ms: seq<Match>, i: nat, pid: string)
    requires i < |ms|
    ensures |Filter(ms[..i + 1], WonBy(pid))| == |Filter(ms[..i], WonBy(pid))| + (if Outcome(ms[i], pid) == Some(true) then 1 else 0)
    ensures |Filter(ms[..i + 1], LostBy(pid))| == |Filter(ms[..i], LostBy(pid))| + (if Outcome(ms[i], pid) == Some(false) then 1 else 0)
  {
    assert ms[..i + 1] == ms[..i] + [ms[i]];
    FilterSnoc(ms[..i], ms[i], WonBy(pid));
    FilterSnoc(ms[..i], ms[i], LostBy(pid));
  }

  /**
   * No match is counted twice or without the player: won and lost together
   * never exceed the matches they took part in, and equal them when all of
   * those are singles.
   */
  lemma {:induction false} SlicesBound(ms: seq<Match>, pid: string)
    ensures |Filter(ms, WonBy(pid))| + |Filter(ms, LostBy(pid))| <= |Filter(ms, HasPlayer(pid))|
    ensures (forall m :: m in ms && pid in m.players ==> m.format == SINGLES) ==>
      |Filter(ms, WonBy(pid))| + |Filter(ms, LostBy(pid))| == |Filter(ms, HasPlayer(pid))|
  {
    if ms != [] {
      var init, last := ms[..|ms| - 1], ms[|ms| - 1];
      SlicesBound(init, pid);
      assert ms == init + [last];
      FilterSnoc(init, last, WonBy(pid));
      FilterSnoc(init, last, LostBy(pid));
      FilterSnoc(init, last, HasPlayer(pid));
    }
  }

  /**
   * The input that shows the defect: a doubles match won by team "a-b", the
   * way the scoring engine records it, makes the chart code raise, while it
   * is a win for player "a".
   */
  lemma StringWinnerThrows()
    ensures var m := Match("m1", DOUBLES, ["a", "b", "c", "d"], [["a", "b"], ["c", "d"]], map[], 0,
                           PointsEarned(WinnerId("a-b"), map["a-b" := 19, "c-d" := 6], 2));
      && Throws(m, "a")
      && Outcome(m, "a") == Some(true)
      && Outcome(m, "c") == Some(false)
  {
    var m := Match("m1", DOUBLES, ["a", "b", "c", "d"], [["a", "b"], ["c", "d"]], map[], 0,
                   PointsEarned(WinnerId("a-b"), map["a-b" := 19, "c-d" := 6], 2));
    assert FindTeam(m.teams, "a") == Some(["a", "b"]);
    assert FindTeam(m.teams, "c") == Some(["c", "d"]) by {
      assert m.teams[1..] == [["c", "d"]];
    }
    assert TeamId(["a", "b"]) == "a-b" by {
      assert ["a", "b"][1..] == ["b"];
    }
    assert TeamId(["c", "d"]) == "c-d" by {
      assert ["c", "d"][1..] == ["d"];
    }
  }
}
