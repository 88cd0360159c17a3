# Tennis tracker — a Dafny model of its scoring, statistics and forms

The tennis tracker records singles ("1v1") and doubles ("2v2") matches
between club players. It keeps a ranking by points and draws statistics and
charts for each player and team. This project models its core in Dafny and
proves properties of that model. It covers:

- **ScoringSystem** (`scoring_system.dfy`): the scoring engine.
  - A finished match earns each side 1 point per game won, 5 per set won
    and 10 for winning strictly more sets; doubles sides are scored under
    their team id, the members joined with "-".
  - One player's statistics are aggregated over the stored matches. A
    doubles match without a team for the player raises a `TypeError`.
- **AppData** (`app_data.dfy`): the offline store of the data context.
  - The match queries: newest first, filtered by player, format and date
    range.
  - Lookups by id.
  - `addMatch` in its local branch: score, number `m<n+1>`, append, then
    credit the players. A raising doubles update leaves the match appended
    and the players as they were.
  - The player-counter update it performs.
  - The zero counters of a new player.
- **MatchEntry** (`match_form.dfy`): the match-entry form as a class.
  - Its steps and validation.
  - Player and team selection.
  - Adding, removing and renumbering sets.
  - Score entry, with the set winner derived automatically.
  - The resets when the format changes.
  - The winner announced on the confirmation step.
- **Statistics** (`statistics.dfy`): the statistics page.
  - The selected player's matches and counters.
  - The singles leaderboard and the team leaderboard, top ten each.
  - The count of distinct teams.
- **ProgressChart, DistributionChart, CombinedChart** (`player_progress_chart.dfy`,
  `score_distribution_chart.dfy`, `combined_progress_chart.dfy`): the data
  preparation of the three charts.
- **Home** (`home.dfy`): the top five players of the home page.
- **PlayerEntry** (`player_form.dfy`): the player form.
- **Avatar** (`player_avatar.dfy`): the avatar gradient (a string hash) and
  the initials.

Shared datatypes live in `match_data.dfy`:

- matches, sets, players and the winner shapes the data can hold;
- `Object.values` order over set numbers;
- team ids.

Also shared:

- `sorting.dfy`: `Array.prototype.filter`, `find` and a stable sort by a
  numeric key;
- `wrappers.dfy`: `Option`, and a `Result` that carries the JavaScript
  error a piece of code raises.

Some modelling conventions:

- Stateful code is imperative Dafny. The form and the store are classes
  whose methods update their fields. Every `forEach`/`for` loop is a method
  with a loop, proved equal to a recursive specification function. The
  properties are lemmas about that function.
- Sorting with the comparator `b.k - a.k` is a stable descending sort on
  `k`; ascending order sorts on `-k`.
- Objects used as dictionaries keep their keys in insertion order, which
  the model keeps as an explicit list where the code depends on it (the
  chart trackers, the team leaderboard).

Behaviour modelled as the code does it:

- The combined progress chart adds each entrant's points twice. The first
  pass over the matches accumulates the totals, and the row loop then keeps
  adding to those same totals. `CombinedChart.RowValues` and
  `CombinedChart.LastRowDoubles` state this.
- The statistics page only counts a doubles win when the stored winner is a
  member list. The scoring engine stores a team-id string, so such wins are
  never counted (`Statistics.StringWinnersNeverCount`).
- `updateLocalPlayerStats` in singles credits the win to player 2 whenever
  player 1 did not win, including on a tie (`AppData.NullWinnerCreditsSecond`).
- In doubles it calls `includes` on the winner. On a `null` winner that
  raises, and on a team-id string it is a substring test.

## Model

| member | source | states |
|---|---|---|
| ScoringSystem.CalculateMatchPoints | src/utils/scoringSystem.js:17-106 | the record satisfies `Scores`: `totalSets` is the number of sets; the two sides (players, or team ids in doubles) each get 1 per game and 5 per set won; the side with strictly more sets is the winner and gets 10 more; equal set counts leave the winner `null`; an unknown format scores nobody |
| ScoringSystem.ScoresUnique | src/utils/scoringSystem.js:17-106 | the scoring relation determines the record completely |
| ScoringSystem.NoSetsScoresZero | src/utils/scoringSystem.js:18-31 | a match without sets gives both sides 0 points, no winner and 0 sets |
| ScoringSystem.ScoreSets | src/utils/scoringSystem.js:37-50 | the per-set loop: exactly the two sides are keyed, each with its games plus 5 per set won, and the set counts are the sets each side won; when both keys coincide the one entry receives both increments |
| ScoringSystem.WonByBounds | src/utils/scoringSystem.js:34-50 | a side wins between 0 and all of the sets |
| ScoringSystem.AddSetTotals | src/utils/scoringSystem.js:37-50 | one more set adds exactly its games and its won set to a side's totals |
| ScoringSystem.CalculatePlayerStats | src/utils/scoringSystem.js:114-182 | the result is the fold `StatsOf` over the matches, or the error of the first unreadable one |
| ScoringSystem.CreditMatch | src/utils/scoringSystem.js:125-178 | one match's contribution: skipped without the player; counted as a match and otherwise ignored in an unknown format; an error in doubles without a team; otherwise a win if the winner is the player or their team id, the sets and games, and all or half of the side's points |
| ScoringSystem.SideCreditEffect | src/utils/scoringSystem.js:132-176 | crediting a side adds its win, its sets, all games played, its games and its points (both halved in doubles), and leaves the match count alone |
| ScoringSystem.CreditSets | src/utils/scoringSystem.js:140-148 | the inner set loop equals `SetsCredit` |
| ScoringSystem.SetsCreditPoints | src/utils/scoringSystem.js:140-148 | crediting the sets of a match leaves the points total alone |
| ScoringSystem.SetsCreditEffect | src/utils/scoringSystem.js:140-148 | the sets add one to `totalSets` each, the sets won, all games played and the side's games (half in doubles) |
| ScoringSystem.StatsFailurePersists | src/utils/scoringSystem.js:156-157 | once a prefix of the matches raises, the whole aggregation raises the same error |
| ScoringSystem.StatsFailureIff | src/utils/scoringSystem.js:154-157 | the aggregation raises exactly when some match lists the player in doubles without a team holding them, and then with the `join` `TypeError` |
| ScoringSystem.MatchCreditEffect | src/utils/scoringSystem.js:125-178 | for a readable match of a known format the counters grow by one match, a win exactly when the winner is the player's side, one per set, all games played, the side's games, and the side's points from the match record (half in doubles) |
| ScoringSystem.StatsBounds | src/utils/scoringSystem.js:114-182 | `totalMatches` is the number of matches listing the player, with 0 <= `matchesWon` <= `totalMatches` and 0 <= `setsWon` <= `totalSets` |
| ScoringSystem.GamesWonBound | src/utils/scoringSystem.js:146-147 | with non-negative game counts, 0 <= `gamesWon` <= `totalGames` |
| ScoringSystem.GamesInBound | src/utils/scoringSystem.js:146-147 | a side's games never exceed all games played in the sets |
| MatchData.FindTeam | src/utils/scoringSystem.js:156 | `teams.find(t => t.includes(id))`: the result holds the id, and nothing is found exactly when no team holds it |
| MatchData.ToSetSize | src/components/forms/MatchForm.jsx:47-48 | `new Set(ids).size` is at most the length, and equals it exactly when no id repeats |
| MatchData.SetListInsert | src/components/forms/MatchForm.jsx:199-205 | a set stored under a new number appears once in `Object.values`, the others keeping their order |
| MatchData.SetListAppend | src/components/forms/MatchForm.jsx:181-205 | on densely numbered sets, the set stored under count+1 comes last in `Object.values` |
| MatchData.SetListRenumber | src/components/forms/MatchForm.jsx:216-222 | renumbering from 1 keeps the sets in the order they were listed |
| MatchData.Renumber | src/components/forms/MatchForm.jsx:216-222 | the renumbered sets are keyed exactly 1..n, set k being the k-th listed |
| MatchData.SumGames | src/utils/scoringSystem.js:146 | `Object.values(games).reduce(+, 0)` is the sum of the game counts |
| MatchData.MapSumBound | src/utils/scoringSystem.js:146-147 | with no negative counts one entry never exceeds the sum of all |
| MatchData.DecimalString | src/context/AppDataContext.jsx:380 | the number in the id is printed as at least one decimal digit |
| MatchData.DecimalStringValue | src/context/AppDataContext.jsx:380 | the printed digits denote the number itself |
| MatchData.DecimalStringInjective | src/context/AppDataContext.jsx:380 | different store sizes give different ids `m<n>` |
| Sorting.SortDescProps | src/pages/Home.jsx:72-74 | sorting with `b.k - a.k` yields a permutation, ordered by key from highest to lowest, that keeps equal keys in their original order |
| Sorting.TopSpec | src/context/AppDataContext.jsx:298-302 | `slice(0, n)` of the sorted list has min(n, length) elements, taken from the input, sorted, ties kept in order |
| Sorting.TopLeftOut | src/pages/Home.jsx:72-74 | no element left out by the slice has a higher key than one kept |
| Sorting.FilterMembers | src/pages/Statistics.jsx:57-59 | `filter(p)` keeps exactly the elements satisfying `p` |
| Sorting.FilterFilter | src/context/AppDataContext.jsx:305-333 | filtering twice equals filtering once by both conditions |
| Sorting.FilterSorted | src/components/charts/PlayerProgressChart.jsx:26-37 | filtering a sorted list keeps it sorted |
| Sorting.FilterCount | src/components/charts/PlayerProgressChart.jsx:34-37 | filtering keeps every occurrence of the elements it keeps and no other |
| AppData.GetAllMatchesSpec | src/context/AppDataContext.jsx:304-338 | `getAllMatches` returns, newest first with ties in stored order, exactly the stored matches that pass every given filter: player listed, same format, not before `dateFrom`, not after `dateTo` |
| AppData.FilterChain | src/context/AppDataContext.jsx:305-333 | the four optional filters applied in turn equal one filter by their conjunction |
| AppData.NoFiltersKeepsAll | src/context/AppDataContext.jsx:304-338 | without filters every stored match is returned |
| AppData.RecentMatchesSpec | src/context/AppDataContext.jsx:298-302 | `getRecentMatches(limit)` returns min(limit, n) matches, newest first; with the matches left out they make up the stored ones, and none is older than a match left out |
| AppData.Store.GetRecentMatches | src/context/AppDataContext.jsx:298-302 | the stored list itself becomes sorted newest first (the sort is in place), and the result is its first `limit` entries |
| AppData.Store.GetMatchById | src/context/AppDataContext.jsx:340-342 | the first stored match with the id, and none exactly when no match has it |
| AppData.Store.GetPlayerById | src/context/AppDataContext.jsx:348-350 | the first stored player with the id, and none exactly when no player has it |
| AppData.Store.UpdateLocalPlayerStats | src/context/AppDataContext.jsx:395-457 | the player list becomes `CreditPlayers` of the old list, or stays as it was when that update raises |
| AppData.Store.AddMatch | src/context/AppDataContext.jsx:352-393 | the scored match with id `m<n+1>` and time `now` is appended in every case; on success the players are credited by it; when the doubles update raises the match stays stored, the players are unchanged and the update's error is returned; a numbered store stays numbered |
| AppData.NumberedDistinct | src/context/AppDataContext.jsx:380 | a store whose `i`-th match is `m<i+1>` holds distinct ids |
| AppData.SinglesCreditSpec | src/context/AppDataContext.jsx:399-430 | ids and every other field are kept; only the first record of each of the two players changes: their points added, one more match, and a win for player 1 exactly when they won, for player 2 exactly when player 1 did not |
| AppData.NullWinnerCreditsSecond | src/context/AppDataContext.jsx:403-428 | with a `null` winner player 2 is still credited a win |
| AppData.DoublesStepSpec | src/context/AppDataContext.jsx:433-450 | one step credits at most the first record of the player: half the team's points, a match, a win when the winner includes them |
| AppData.DoublesCreditSpec | src/context/AppDataContext.jsx:431-452 | the doubles update keeps ids; the first record of each listed player is credited as one step does, every other record is unchanged |
| AppData.CreditDoubles | src/context/AppDataContext.jsx:433-452 | the `forEach` equals `DoublesCredit`, raising for a listed player without a team or on a `null` winner |
| AppData.DoublesFailurePersists | src/context/AppDataContext.jsx:433-452 | once the update raises on a prefix of the players it raises the same error |
| AppData.ContainsAt | src/context/AppDataContext.jsx:440 | `String.prototype.includes` holds exactly when the needle occurs at some index |
| AppData.FindIndexSameIds | src/context/AppDataContext.jsx:405-406 | `findIndex` by id depends only on the ids |
| AppData.NoMatchesNoStats | src/context/AppDataContext.jsx:458-467 | someone in no match has all-zero statistics |
| AppData.NewPlayerHasNoHistory | src/context/AppDataContext.jsx:458-467 | `addPlayer`'s zero counters equal the statistics the engine computes for a player with no matches |
| MatchEntry.Step0Iff | src/components/forms/MatchForm.jsx:33-54 | step 0 passes exactly when singles has two different players, doubles has four different players in the two teams, or the format is neither |
| MatchEntry.Step1Iff | src/components/forms/MatchForm.jsx:56-94 | step 1 passes exactly when there is at least one set and, in a known format, every set has different game counts for the two sides and a winner |
| MatchEntry.CheckSetsSpec | src/components/forms/MatchForm.jsx:61-92 | the set loop reports nothing exactly when every set is ready; a tied set gets `set_k` and a set without a winner `set_k_winner` |
| MatchEntry.SetCheckSpec | src/components/forms/MatchForm.jsx:62-91 | one set's check only adds keys, its tie key on equal games and its winner key on a falsy winner |
| MatchEntry.MatchForm.constructor | src/components/forms/MatchForm.jsx:8-17 | the empty form: singles, no players, two empty teams, no sets, step 0, today's date |
| MatchEntry.MatchForm.SelectSinglesFormat | src/components/forms/MatchForm.jsx:316-321 | choosing singles clears the players, and the format effect (lines 20-27) clears the teams |
| MatchEntry.MatchForm.SelectDoublesFormat | src/components/forms/MatchForm.jsx:333-338 | choosing doubles clears the teams and keeps the players |
| MatchEntry.MatchForm.ValidateStep | src/components/forms/MatchForm.jsx:30-99 | the errors become the step's errors and the result holds exactly when step 0 or 1 meets its requirement; other steps always pass |
| MatchEntry.MatchForm.NextStep | src/components/forms/MatchForm.jsx:102-106 | advances exactly when the current step validates; the selections and the date are kept |
| MatchEntry.MatchForm.PrevStep | src/components/forms/MatchForm.jsx:109-111 | goes back one step and changes nothing else |
| MatchEntry.MatchForm.Submit | src/components/forms/MatchForm.jsx:114-119 | the match data is handed on exactly when the current step validates; the step, selections and date are kept |
| MatchEntry.MatchForm.HandlePlayerSelect | src/components/forms/MatchForm.jsx:122-178 | singles toggles the player in the selection; doubles removes them from their team or adds them to the first team with room; sets, errors, step and date are kept |
| MatchEntry.SelectSingleKeepsRoster | src/components/forms/MatchForm.jsx:123-137 | the singles selection stays at most two different players; a selected player is removed, a new one appended while there is room |
| MatchEntry.SelectDoubleKeepsTeams | src/components/forms/MatchForm.jsx:138-177 | the teams stay at most two different players each with no player in both; a selected player leaves, a new one joins team 1, else team 2 if it has room |
| MatchEntry.RemoveFromRoster | src/components/forms/MatchForm.jsx:129 | removing a player keeps a roster and takes the player out |
| MatchEntry.FilterDistinct | src/components/forms/MatchForm.jsx:151-155 | filtering keeps a list free of repeats |
| MatchEntry.MatchForm.HandleAddSet | src/components/forms/MatchForm.jsx:181-207 | a new set numbered count+1 with both sides at 0 games and no winner, listed last |
| MatchEntry.AddSet | src/components/forms/MatchForm.jsx:181-207 | the sets keep their numbers and gain set count+1 with both sides at 0 games and no winner; they stay densely numbered and list it last |
| MatchEntry.MatchForm.HandleRemoveSet | src/components/forms/MatchForm.jsx:210-229 | the other sets renumbered 1..n in their order; removing set k drops the k-th listed set |
| MatchEntry.RemoveSet | src/components/forms/MatchForm.jsx:210-229 | the remaining sets renumbered 1..n-1 stay densely numbered and are listed in their old order without the k-th |
| MatchEntry.RenumberSets | src/components/forms/MatchForm.jsx:216-222 | the renumbering loop equals `Renumber` |
| MatchEntry.RemovedSets | src/components/forms/MatchForm.jsx:212-219 | on densely numbered sets, deleting set k removes exactly the k-th listed set |
| MatchEntry.DenseRemove | src/components/forms/MatchForm.jsx:212-219 | the same, for a set that exists |
| MatchEntry.MatchForm.HandleSetScoreChange | src/components/forms/MatchForm.jsx:232-296 | stores the side's games and derives the set's winner again in a known format; a reported tie of that set is cleared to `null` |
| MatchEntry.ScoreSet | src/components/forms/MatchForm.jsx:232-277 | only set k changes, to its scored form; the numbering stays dense |
| MatchEntry.AutoWinnerSpec | src/components/forms/MatchForm.jsx:245-277 | the derived winner is the side with strictly more games, `null` exactly on a tie |
| MatchEntry.MatchForm.ConfirmationWinner | src/components/forms/MatchForm.jsx:620-657 | empty exactly on equal set counts, an unknown format, or a nameless singles winner; otherwise the winner's name or team label |
| MatchEntry.SetsWonCountTotal | src/components/forms/MatchForm.jsx:630-635 | counting sets with `filter(...).length` agrees with the scoring engine's count |
| MatchEntry.ConfirmedSideAgrees | src/components/forms/MatchForm.jsx:627-657 | the confirmation step announces the winner the scoring engine then stores, `null` included, when the two sides differ |
| MatchEntry.Step0MakesReadable | src/components/forms/MatchForm.jsx:33-54 | a form that passed step 0 holds two players or two teams for the scoring engine |
| Statistics.PlayerMatches | src/pages/Statistics.jsx:57-59 | exactly the matches listing the selected id, and none without a selection |
| Statistics.SomeShared | src/pages/Statistics.jsx:89 | `ids.some(id => team.includes(id))` holds exactly when some id is in the team |
| Statistics.CalculateStats | src/pages/Statistics.jsx:53-139 | nothing exactly when the selected id is no player's; otherwise the counters over the player's matches |
| Statistics.CreditViewMatches | src/pages/Statistics.jsx:74-136 | the match loop equals the fold `ViewFold` |
| Statistics.CreditViewMatch | src/pages/Statistics.jsx:75-135 | one match's body equals `ViewMatchCredit` |
| Statistics.CreditViewSets | src/pages/Statistics.jsx:96-134 | the set loop equals `ViewSetsCredit` |
| Statistics.ViewSetsCreditEffect | src/pages/Statistics.jsx:96-134 | each set counts towards `totalSets`, and at most one set is won per set |
| Statistics.ViewMatchCreditEffect | src/pages/Statistics.jsx:75-135 | a match adds a win exactly when it counts as won, and all its sets |
| Statistics.ViewFoldEffect | src/pages/Statistics.jsx:74-136 | over the matches, wins grow by the matches counted as won and sets by every set |
| Statistics.ViewStatsBounds | src/pages/Statistics.jsx:62-139 | `totalMatches` is the number of the player's matches, with 0 <= `matchesWon` <= `totalMatches` and 0 <= `setsWon` <= `totalSets` |
| Statistics.StringWinnersNeverCount | src/pages/Statistics.jsx:80-93 | when doubles winners are team-id strings only singles wins are counted |
| Statistics.Leaderboard1v1Spec | src/pages/Statistics.jsx:331-339 | at most ten players, each with a singles match, most points first; no eligible player left out has more points than one shown |
| Statistics.TallySpec | src/pages/Statistics.jsx:396-427 | the rows hold one entry per team id seen, counting its appearances and its wins |
| Statistics.BumpOk | src/pages/Statistics.jsx:403-425 | one counted appearance keeps the rows right |
| Statistics.TallySnoc | src/pages/Statistics.jsx:398-427 | one more appearance is one more counting step |
| Statistics.CountTeam | src/pages/Statistics.jsx:402-425 | the inner body creates the row on first sight and counts it |
| Statistics.CountTeams | src/pages/Statistics.jsx:401-426 | the inner loop counts the teams of one match |
| Statistics.BuildTeams | src/pages/Statistics.jsx:396-427 | the nested loops build the rows of all doubles appearances |
| Statistics.TeamLeaderboard | src/pages/Statistics.jsx:396-432 | the rows sorted by wins, at most ten |
| Statistics.TeamLeaderboardSpec | src/pages/Statistics.jsx:396-432 | at most ten distinct teams, each with its appearance count and 0..that many wins, most wins first; no team left out has more wins than one shown |
| Statistics.TallyEntries | src/pages/Statistics.jsx:396-427 | every row is a team id of some appearance with its appearance count and at most as many wins |
| Statistics.UniqueTeamsAreRows | src/pages/Statistics.jsx:288-295 | the distinct-team count equals the number of team rows |
| ProgressChart.PrepareData | src/components/charts/PlayerProgressChart.jsx:22-72 | nothing without matches or a player; otherwise one point per attended match, oldest first, holding that match's points and the running total up to it |
| ProgressChart.ChartOf | src/components/charts/PlayerProgressChart.jsx:30-71 | the loop charts exactly the matches listing the player |
| ProgressChart.ChartsSnoc | src/components/charts/PlayerProgressChart.jsx:61-68 | one more attended match adds one point carrying the new total |
| ProgressChart.PointsSnoc | src/components/charts/PlayerProgressChart.jsx:61-68 | earlier points are unchanged by a later match |
| ProgressChart.RunningTotal | src/components/charts/PlayerProgressChart.jsx:31-68 | the first point's total is its points; each later total is the previous one plus its points |
| ProgressChart.AttendedSpec | src/components/charts/PlayerProgressChart.jsx:26-37 | the charted matches are exactly the player's matches, each once, in order of creation |
| DistributionChart.PrepareData | src/components/charts/ScoreDistributionChart.jsx:20-61 | (corrected) nothing without matches or a player; otherwise the won and lost counts, a doubles team-id winner read as a win for that team |
| DistributionChart.PrepareDataAsWritten | src/components/charts/ScoreDistributionChart.jsx:20-61 | as written: raises `winner.some is not a function` when some match is a doubles match with a string winner, otherwise the won and lost counts |
| DistributionChart.SlicesBound | src/components/charts/ScoreDistributionChart.jsx:27-55 | won plus lost never exceed the matches listing the player, and equal them when all of those are singles |
| DistributionChart.StringWinnerThrows | src/components/charts/ScoreDistributionChart.jsx:44-47 | a doubles match won by team "a-b" raises as written, while it is a win for "a" and a loss for "c" |
| CombinedChart.PrepareChart | src/components/charts/CombinedProgressChart.jsx:36-207 | (corrected) the effect equals `Chart`: no update without matches, players or matches of the format; otherwise the lines of the first pass and the rows |
| CombinedChart.PrepareChartAsWritten | src/components/charts/CombinedProgressChart.jsx:36-207 | as written: the same, except that doubles raise in the row loop after the lines are set |
| CombinedChart.DoublesRowsRaise | src/components/charts/CombinedProgressChart.jsx:98-191 | one doubles match is enough for the raise, where the corrected effect yields one row |
| CombinedChart.ChronologicalSpec | src/components/charts/CombinedProgressChart.jsx:42-44 | the rows come from exactly the matches of the format, each once, oldest first |
| CombinedChart.TrackPlayers | src/components/charts/CombinedProgressChart.jsx:69-75 | every player id tracked from 0 |
| CombinedChart.PlayerTrackerSpec | src/components/charts/CombinedProgressChart.jsx:69-75 | the singles tracker keys exactly the player ids, once each, at 0, named by the first player with the id or "Невідомий" |
| CombinedChart.BumpPlayersMethod | src/components/charts/CombinedProgressChart.jsx:79-83 | a singles match adds each tracked player's points; other ids are ignored |
| CombinedChart.BumpTeamsMethod | src/components/charts/CombinedProgressChart.jsx:103-121 | a doubles match tracks each new team at 0 and adds its points |
| CombinedChart.BumpTeamsEffect | src/components/charts/CombinedProgressChart.jsx:102-122 | a doubles match tracks its team ids and adds to each its points once per team listed with that id |
| CombinedChart.BumpMatch | src/components/charts/CombinedProgressChart.jsx:78-122 | one match of either format |
| CombinedChart.BumpEffect | src/components/charts/CombinedProgressChart.jsx:78-122 | one match keeps the tracker well formed and adds each entrant's gain |
| CombinedChart.FirstPass | src/components/charts/CombinedProgressChart.jsx:78-122 | the first pass equals `Replay` over the sorted matches |
| CombinedChart.ReplayEffect | src/components/charts/CombinedProgressChart.jsx:78-122 | after a run of matches, the tracked keys are the starting ones plus the teams met, and each total is its start plus what the run earned it |
| CombinedChart.TeamGainAbsent | src/components/charts/CombinedProgressChart.jsx:117-120 | a team id of no listed team gains nothing |
| CombinedChart.BuildLines | src/components/charts/CombinedProgressChart.jsx:87-133 | the line loop equals `LinesOf` |
| CombinedChart.LinesSpec | src/components/charts/CombinedProgressChart.jsx:87-133 | a line is drawn exactly for each tracked entrant with a positive total, coloured by its position modulo 10 |
| CombinedChart.BuildRows | src/components/charts/CombinedProgressChart.jsx:141-195 | the row loop equals `ChartRows` |
| CombinedChart.RowValues | src/components/charts/CombinedProgressChart.jsx:141-195 | row k has the k-th match's time and a value for exactly the tracked entrants: the first-pass total plus the gains of the current matches of rows 0..k |
| CombinedChart.LastRowDoubles | src/components/charts/CombinedProgressChart.jsx:78-163 | with distinct match ids the last row shows each entrant's total counted twice |
| CombinedChart.CurrentsDistinct | src/components/charts/CombinedProgressChart.jsx:148 | with distinct match ids each row's `find` returns its own match |
| CombinedChart.RowsNonDecreasing | src/components/charts/CombinedProgressChart.jsx:141-195 | with non-negative points no entrant's value drops from one row to the next |
| CombinedChart.RowsAlreadySorted | src/components/charts/CombinedProgressChart.jsx:197-204 | the final sort by time leaves the rows as built |
| Home.TopPlayersSpec | src/pages/Home.jsx:72-74 | min(5, n) players, taken from the list, most points first with ties in stored order; no player left out has more points than one shown |
| PlayerEntry.InitialPlayer | src/components/forms/PlayerForm.jsx:6-11 | name, email and phone exist; the initial values override, and the three default to "" |
| PlayerEntry.PlayerForm.constructor | src/components/forms/PlayerForm.jsx:5-13 | the initial player and no errors |
| PlayerEntry.PlayerForm.ValidateForm | src/components/forms/PlayerForm.jsx:15-23 | the errors become the name error alone when the name is blank; the result holds exactly when there are no errors, exactly when the name has a non-blank character |
| PlayerEntry.PlayerForm.HandleSubmit | src/components/forms/PlayerForm.jsx:25-30 | the player is handed on exactly when the name has a non-blank character |
| PlayerEntry.PlayerForm.HandleChange | src/components/forms/PlayerForm.jsx:32-46 | sets the field; a reported error on it becomes `null`, other errors are kept |
| PlayerEntry.TrimEmpty | src/components/forms/PlayerForm.jsx:17 | `trim()` leaves nothing exactly when every character is white space |
| PlayerEntry.TrimStartEmpty | src/components/forms/PlayerForm.jsx:17 | trimming the start leaves nothing exactly on all-blank input, and otherwise starts with a non-blank character |
| PlayerEntry.TrimEndKeepsHead | src/components/forms/PlayerForm.jsx:17 | trimming the end keeps a non-blank first character |
| PlayerEntry.OnlyNameChecked | src/components/forms/PlayerForm.jsx:15-23 | only the name can carry an error |
| PlayerEntry.PaddedNamePasses | src/components/forms/PlayerForm.jsx:17 | a name with a visible character passes whatever blanks surround it |
| Avatar.GetGradient | src/components/common/PlayerAvatar.jsx:23-30 | the loop computes the string hash, with the shift wrapping to 32 bits, and picks palette entry |hash| mod 8 |
| Avatar.ToInt32 | src/components/common/PlayerAvatar.jsx:27 | the shift's 32-bit conversion: a value in [-2^31, 2^31) congruent to the input mod 2^32 |
| Avatar.GradientInPalette | src/components/common/PlayerAvatar.jsx:4-29 | every id gets one of the eight gradients; the empty id gets blue |
| Avatar.HashBound | src/components/common/PlayerAvatar.jsx:25-28 | the hash grows by at most 2^31 plus one character code per character |
| Avatar.GetInitials | src/components/common/PlayerAvatar.jsx:33-36 | the first min(2, length) characters, each upper-cased |
| Avatar.InitialsUpper | src/components/common/PlayerAvatar.jsx:33-36 | initials hold no lower-case Latin letter and are their own initials |

## Left out

- Firestore, the network, React rendering and hooks are not modelled. The
  online branch of `addMatch` and `addPlayer`'s database write are out, as
  is the loading of the data, its fallback to the sample data and the
  sample data itself. `addPlayer` is modelled by its record (`AppData.NewPlayer`).
- Dates are not modelled. `createdAt` is an integer timestamp. The
  `toLocaleDateString` day labels of the charts are represented by that
  timestamp. The date filters take timestamps: `dateTo` is already the end
  of its day.
- Percentages and all other display formatting are out.
- `getAllPlayers` returns the list unchanged and has no member.
- Email and phone are not fields of the stored player record. The player
  form keeps every field as a string.
- `parseInt(value, 10) || 0` in score entry is out: the value arrives as an
  integer.
- MatchEntry.MatchForm.constructor: `initialValues` of the match form are
  not modelled. The form starts empty, with the date passed in.
- AppData.Store.GetRecentMatches: the default `limit = 5` is left to the
  caller.
- ScoringSystem.CalculateMatchPoints: it requires two players in singles
  and two teams in doubles. A shorter list would read `undefined` in
  JavaScript and is not modelled. The same requirement is carried by
  `AppData.Store.AddMatch` and `AppData.Store.UpdateLocalPlayerStats`.
- MatchEntry.MatchForm.HandleSetScoreChange: requires the set to exist. The
  source reads its games and would raise otherwise, but the form only
  offers existing sets.
- A missing player index in the form (`players[i]` past the end) reads as
  the key "undefined" (`MatchEntry.At`), as it does when used as an object
  key.
- Player ids that look like integers would be listed first by
  `Object.keys`. The trackers and team rows assume ordinary string keys in
  insertion order.
- Stored records are assumed well formed: every match has `pointsEarned`,
  numeric game counts and list-typed players and teams. A `null` in a list
  of ids is not modelled. Neither is a player form field set to a
  non-string value (which would make `name.trim()` raise).
- CombinedChart.BumpPlayersMethod: the singles first pass walks the tracked
  ids rather than `Object.entries(points)`. Both add exactly the points of
  the tracked ids, so the totals agree; the order of additions is not
  modelled.
- Avatar.GetGradient: the hash is computed on unbounded integers. JavaScript
  computes `(h << 5) - h` in doubles, which are exact while |h| < 2^53.
  `Avatar.HashBound` keeps ids of up to a million characters within that
  bound; longer ids are not modelled.
- Avatar.GetGradient: characters are Unicode scalar values, not UTF-16 code
  units, so the codes of characters outside the Basic Multilingual Plane
  differ from `charCodeAt`.
- Avatar.GetInitials: `toUpperCase` is modelled on Basic Latin letters
  only. Other scripts' case mappings, including ones that change the
  length, are not modelled. `substring(0, 2)` counts Unicode scalar values
  rather than UTF-16 code units.
- The `members` field of a chart team entry (`CombinedChart.Tracker`) is
  not represented: nothing reads it.

## Findings

| source | as written | input that shows it | evidently intended | confidence | as-written member | corrected member |
|---|---|---|---|---|---|---|
| src/components/charts/ScoreDistributionChart.jsx:44-47 | a doubles match with a truthy winner calls `winner.some(...)`, but the scoring engine stores the doubles winner as a team-id string, so the chart raises `TypeError: winner.some is not a function` | a doubles match with teams [a,b] and [c,d] and winner "a-b", for player "a" | count the match as won when the stored team id is the player's team id, and as lost otherwise | not executed | DistributionChart.PrepareDataAsWritten (with DistributionChart.StringWinnerThrows) | DistributionChart.PrepareData |
| src/components/charts/CombinedProgressChart.jsx:98-191 | `teamTracker` is a `const` declared inside the `else if (format === "2v2")` block and read in the row loop outside it, so every doubles chart with a match raises `ReferenceError: teamTracker is not defined` after the lines are set | one doubles match with teams [a,b] and [c,d] and one player | the team tracker shared with the row loop, as `pointsTracker` is in singles | not executed | CombinedChart.PrepareChartAsWritten (with CombinedChart.DoublesRowsRaise) | CombinedChart.PrepareChart |
