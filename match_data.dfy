/**
 * The in-memory records shared by every part of the tennis tracker:
 * sets, matches, the points attached to a match and player records,
 * with the small helpers (team ids, "value or 0" lookups, the iteration
 * order of an object keyed by set numbers) the code leans on.
 */
module MatchData {
  import opened Wrappers

  /** The two match formats the code recognises; any other string is an unknown format. */
  const SINGLES: string := "1v1"
  const DOUBLES: string := "2v2"

  /**
   * The `winner` stored in `pointsEarned`. The scoring engine writes a player id
   * or a team id (a string); older records and the bundled sample data hold
   * the winning team's member list (an array); `null` when nobody won.
   */
  datatype Winner = NoWinner | WinnerId(id: string) | WinnerArray(ids: seq<string>)
  {
    /** JavaScript truthiness: `null` and `""` are falsy, every array is truthy. */
    predicate Truthy()
    {
      match this
      case NoWinner => false
      case WinnerId(s) => s != ""
      case WinnerArray(_) => true
    }
  }

  /** One set: games per player id (singles) or team id (doubles), and the set winner or `null`. */
  datatype GameSet = GameSet(games: map<string, int>, winner: Option<string>)

  /** What the scoring engine attaches to a match. */
  datatype PointsEarned = PointsEarned(winner: Winner, points: map<string, int>, totalSets: nat)

  /** A stored match; `createdAt` is a timestamp in milliseconds. */
  datatype Match = Match(
    id: string,
    format: string,
    players: seq<string>,
    teams: seq<seq<string>>,
    sets: map<nat, GameSet>,
    createdAt: int,
    pointsEarned: PointsEarned)

  /** A stored player with the counters the app keeps on it. */
  datatype Player = Player(
    id: string,
    name: string,
    totalPoints: real,
    matchesPlayed: int,
    matchesWon: int,
    setsWon: int,
    gamesWon: int)

  /** `m[k] || 0` on a map of numbers: a missing key reads as 0. */
  function ValueOr0(m: map<string, int>, k: string): int
  {
    if k in m then m[k] else 0
  }

  /** No element occurs twice. */
  predicate Distinct<T(==)>(s: seq<T>)
  {
    forall i, j :: 0 <= i < j < |s| ==> s[i] != s[j]
  }

  /** `new Set(ids)`. */
  function ToSet(ids: seq<string>): (r: set<string>)
    ensures r == set x | x in ids
  {
    if ids == [] then {} else ToSet(ids[..|ids| - 1]) + {ids[|ids| - 1]}
  }

  /** A list has as many distinct elements as entries exactly when no entry repeats. */
  lemma {:induction false} ToSetSize(ids: seq<string>)
    ensures |ToSet(ids)| <= |ids|
    ensures |ToSet(ids)| == |ids| <==> Distinct(ids)
    decreases |ids|
  {
    if ids != [] {
      var init, last := ids[..|ids| - 1], ids[|ids| - 1];
      ToSetSize(init);
      assert ids == init + [last];
      ToSetSnoc(init, last);
      if last in init {
        RepeatSnoc(init, last);
      } else {
        DistinctSnoc(init, last);
      }
    }
  }

  /** One more entry adds one distinct element exactly when it is new. */
  lemma ToSetSnoc(init: seq<string>, last: string)
    ensures |ToSet(init + [last])| == |ToSet(init)| + (if last in init then 0 else 1)
  {
    var ids := init + [last];
    assert ids[..|ids| - 1] == init;
    assert ToSet(ids) == ToSet(init) + {last};
    if last in init {
      assert last in ToSet(init);
      assert ToSet(ids) == ToSet(init);
    } else {
      assert ToSet(init) * {last} == {};
    }
  }

  /** Appending an entry already present makes a repeat. */
  lemma RepeatSnoc(init: seq<string>, last: string)
    requires last in init
    ensures !Distinct(init + [last])
  {
    var ids := init + [last];
    var j :| 0 <= j < |init| && init[j] == last;
    assert ids[j] == ids[|ids| - 1];
  }

  /** Appending a new element keeps a list free of repeats exactly when it was. */
  lemma DistinctSnoc(init: seq<string>, last: string)
    requires last !in init
    ensures Distinct(init + [last]) <==> Distinct(init)
  {
    var ids := init + [last];
    if Distinct(init) {
      forall i, j | 0 <= i < j < |ids|
        ensures ids[i] != ids[j]
      {
        if j == |init| {
          assert ids[i] == init[i];
        }
      }
    }
    if Distinct(ids) {
      forall i, j | 0 <= i < j < |init|
        ensures init[i] != init[j]
      {
        assert ids[i] == init[i] && ids[j] == init[j];
      }
    }
  }

  /** `parts.join(sep)`. */
  function Join(parts: seq<string>, sep: string): string
  {
    if |parts| == 0 then ""
    else if |parts| == 1 then parts[0]
    else parts[0] + sep + Join(parts[1..], sep)
  }

  /** The team identifier of doubles: the members joined with "-", in stored order. */
  function TeamId(team: seq<string>): string
  {
    Join(team, "-")
  }

  /** `teams.find(team => team.includes(id))`: the first team holding `id`. */
  function FindTeam(teams: seq<seq<string>>, id: string): (r: Option<seq<string>>)
    ensures r.Some? ==> r.value in teams && id in r.value
    ensures r.None? <==> forall t :: t in teams ==> id !in t
  {
    if |teams| == 0 then None
    else if id in teams[0] then Some(teams[0])
    else FindTeam(teams[1..], id)
  }

  /** `k` is the least element of `s`. */
  predicate IsLeast(s: set<nat>, k: nat)
  {
    k in s && forall j :: j in s ==> k <= j
  }

  lemma {:induction false} MinExists(s: set<nat>)
    requires s != {}
    ensures exists k :: IsLeast(s, k)
    decreases |s|
  {
    var x :| x in s;
    var rest := s - {x};
    if rest == {} {
      assert s == {x};
      assert IsLeast(s, x);
    } else {
      MinExists(rest);
      var k :| IsLeast(rest, k);
      MinOfTwo(s, x, rest, k);
    }
  }

  /** The smaller of `x` and the least element of the rest is the least element of the whole. */
  lemma MinOfTwo(s: set<nat>, x: nat, rest: set<nat>, k: nat)
    requires x in s && rest == s - {x}
    requires IsLeast(rest, k)
    ensures IsLeast(s, if x < k then x else k)
  {
    forall j | j in s
      ensures (if x < k then x else k) <= j
    {
      if j != x {
        assert j in rest;
      }
    }
  }

  /** The least element of a non-empty set of set numbers. */
  function MinKey(s: set<nat>): (k: nat)
    requires s != {}
    ensures IsLeast(s, k)
  {
    MinExists(s);
    var k :| IsLeast(s, k);
    k
  }

  /** The elements of a finite set of set numbers in ascending order. */
  function Ascending(s: set<nat>): (ks: seq<nat>)
    ensures |ks| == |s|
    decreases |s|
  {
    if s == {} then [] else var k := MinKey(s); [k] + Ascending(s - {k})
  }

  lemma {:induction false} AscendingProps(s: set<nat>)
    ensures forall k :: k in Ascending(s) <==> k in s
    ensures forall i, j :: 0 <= i < j < |Ascending(s)| ==> Ascending(s)[i] < Ascending(s)[j]
    decreases |s|
  {
    if s != {} {
      var k := MinKey(s);
      AscendingProps(s - {k});
      var tail := Ascending(s - {k});
      assert Ascending(s) == [k] + tail;
      forall j | j in tail
        ensures k < j
      {
        assert j in s && j != k;
      }
      ConsIncreasing(k, tail);
    }
  }

  /** A number below every element of an increasing list extends it at the front. */
  lemma ConsIncreasing(k: nat, tail: seq<nat>)
    requires forall i, j :: 0 <= i < j < |tail| ==> tail[i] < tail[j]
    requires forall j :: j in tail ==> k < j
    ensures forall i, j :: 0 <= i < j < |[k] + tail| ==> ([k] + tail)[i] < ([k] + tail)[j]
  {
    var a := [k] + tail;
    forall i, j | 0 <= i < j < |a|
      ensures a[i] < a[j]
    {
      assert a[j] == tail[j - 1];
      if i == 0 {
        assert tail[j - 1] in tail;
      } else {
        assert a[i] == tail[i - 1];
      }
    }
  }

  /**
   * `Object.keys` of an object keyed by set numbers: JavaScript lists
   * integer keys in ascending order.
   */
  function SortedKeys<V>(m: map<nat, V>): (ks: seq<nat>)
    ensures |ks| == |m.Keys|
    ensures forall k :: k in ks <==> k in m
  {
    AscendingProps(m.Keys);
    Ascending(m.Keys)
  }

  /** `Object.values(sets)`: the sets in ascending order of their numbers. */
  function SetList(sets: map<nat, GameSet>): (vs: seq<GameSet>)
    ensures |vs| == |sets.Keys|
  {
    var ks := SortedKeys(sets);
    seq(|ks|, i requires 0 <= i < |ks| => sets[ks[i]])
  }

  /** Every listed set is one of the stored sets. */
  lemma SetListValues(sets: map<nat, GameSet>)
    ensures forall i :: 0 <= i < |SetList(sets)| ==> SetList(sets)[i] in sets.Values
  {
    var ks := SortedKeys(sets);
    forall i | 0 <= i < |SetList(sets)|
      ensures SetList(sets)[i] in sets.Values
    {
      assert ks[i] in sets;
    }
  }

  /** The sum of `f` over a list of sets. */
  function Total(vs: seq<GameSet>, f: GameSet -> int): int
  {
    if vs == [] then 0 else Total(vs[..|vs| - 1], f) + f(vs[|vs| - 1])
  }

  /** Extending a prefix of a list by the next set adds that set's share. */
  lemma TotalNext(vs: seq<GameSet>, i: nat, f: GameSet -> int)
    requires i < |vs|
    ensures Total(vs[..i + 1], f) == Total(vs[..i], f) + f(vs[i])
  {
    assert vs[..i + 1][..i] == vs[..i];
  }

  lemma {:induction false} TotalAppend(a: seq<GameSet>, b: seq<GameSet>, f: GameSet -> int)
    ensures Total(a + b, f) == Total(a, f) + Total(b, f)
  {
    if b == [] {
      assert a + b == a;
    } else {
      TotalAppend(a, b[..|b| - 1], f);
      assert (a + b)[..|a + b| - 1] == a + b[..|b| - 1];
      assert (a + b)[|a + b| - 1] == b[|b| - 1];
    }
  }

  /** The sum of the values of a map of game counts (`Object.values(m).reduce(+, 0)`). */
  ghost function MapSum(m: map<string, int>): int
    decreases |m.Keys|
  {
    if m == map[] then 0
    else
      var k :| k in m;
      assert (m - {k}).Keys == m.Keys - {k};
      m[k] + MapSum(m - {k})
  }

  /** The sum does not depend on which key is taken out first. */
  lemma {:induction false} MapSumRemove(m: map<string, int>, k: string)
    requires k in m
    ensures MapSum(m) == m[k] + MapSum(m - {k})
    decreases |m.Keys|
  {
    var k0 :| k0 in m && MapSum(m) == m[k0] + MapSum(m - {k0});
    if k0 != k {
      assert (m - {k0}).Keys == m.Keys - {k0};
      MapSumRemove(m - {k0}, k);
      assert (m - {k}).Keys == m.Keys - {k};
      MapSumRemove(m - {k}, k0);
      assert m - {k0} - {k} == m - {k} - {k0};
    }
  }

  /** With no negative counts, one entry never exceeds the sum of all. */
  lemma {:induction false} MapSumBound(m: map<string, int>, k: string)
    requires forall j :: j in m ==> m[j] >= 0
    ensures MapSum(m) >= 0
    ensures k in m ==> m[k] <= MapSum(m)
    decreases |m.Keys|
  {
    if m != map[] {
      var j :| j in m;
      MapSumRemove(m, j);
      assert (m - {j}).Keys == m.Keys - {j};
      MapSumBound(m - {j}, k);
      if k in m && k != j {
        assert k in m - {j};
      }
    }
  }

  /** `Object.values(games).reduce((sum, g) => sum + g, 0)`. */
  method SumGames(games: map<string, int>) returns (t: int)
    ensures t == MapSum(games)
  {
    t := 0;
    var rest := games;
    while rest != map[]
      invariant t + MapSum(rest) == MapSum(games)
      decreases |rest.Keys|
    {
      var k :| k in rest;
      MapSumRemove(rest, k);
      assert (rest - {k}).Keys == rest.Keys - {k};
      t := t + rest[k];
      rest := rest - {k};
    }
  }

  /** MinKey is determined by its contract. */
  lemma MinKeyUnique(s: set<nat>, m: nat)
    requires IsLeast(s, m)
    ensures MinKey(s) == m
  {
  }

  /** The ascending order starts with the least element. */
  lemma AscendingHead(s: set<nat>, m: nat)
    requires IsLeast(s, m)
    ensures Ascending(s) == [m] + Ascending(s - {m})
  {
    MinKeyUnique(s, m);
  }

  /** Adding a fresh number to a key set inserts it at one place of the ascending order. */
  lemma {:induction false} AscendingInsert(s: set<nat>, k: nat) returns (i: nat)
    requires k !in s
    ensures i <= |Ascending(s)|
    ensures Ascending(s + {k}) == Ascending(s)[..i] + [k] + Ascending(s)[i..]
    decreases |s|
  {
    var t := s + {k};
    var m := MinKey(t);
    if m == k {
      InsertLeast(s, k);
      AscendingHead(t, k);
      i := 0;
    } else {
      var s' := s - {m};
      LeastOfInsert(s, k, m);
      AscendingHead(s, m);
      AscendingHead(t, m);
      var i' := AscendingInsert(s', k);
      i := i' + 1;
      SpliceShift(m, Ascending(s'), k, i');
    }
  }

  lemma InsertLeast(s: set<nat>, k: nat)
    requires k !in s && IsLeast(s + {k}, k)
    ensures (s + {k}) - {k} == s
  {
  }

  /** The least element of a key set with a new number added is, if not that number, the old least one. */
  lemma LeastOfInsert(s: set<nat>, k: nat, m: nat)
    requires k !in s && m != k && IsLeast(s + {k}, m)
    ensures IsLeast(s, m) && (s + {k}) - {m} == (s - {m}) + {k}
    ensures k !in s - {m} && |s - {m}| < |s|
  {
  }

  lemma SpliceShift(m: nat, a: seq<nat>, k: nat, i: nat)
    requires i <= |a|
    ensures [m] + (a[..i] + [k] + a[i..]) == ([m] + a)[..i + 1] + [k] + ([m] + a)[i + 1..]
  {
    assert ([m] + a)[..i + 1] == [m] + a[..i];
    assert ([m] + a)[i + 1..] == a[i..];
  }

  lemma AscendingSingleton(k: nat)
    ensures Ascending({k}) == [k]
  {
    AscendingHead({k}, k);
    assert {k} - {k} == {};
  }

  lemma AscendingAppendStep(s: set<nat>, k: nat, m: nat)
    requires forall j :: j in s ==> j < k
    requires s != {} && m == MinKey(s)
    requires Ascending((s - {m}) + {k}) == Ascending(s - {m}) + [k]
    ensures Ascending(s + {k}) == Ascending(s) + [k]
  {
    var t := s + {k};
    LeastOfAppend(s, k, m);
    AscendingHead(s, m);
    AscendingHead(t, m);
    ConsSnoc(m, Ascending(s - {m}), k);
  }

  /** The least element stays least when a larger one is added. */
  lemma LeastOfAppend(s: set<nat>, k: nat, m: nat)
    requires forall j :: j in s ==> j < k
    requires IsLeast(s, m)
    ensures IsLeast(s + {k}, m) && (s + {k}) - {m} == (s - {m}) + {k}
  {
  }

  lemma ConsSnoc(m: nat, a: seq<nat>, k: nat)
    ensures [m] + (a + [k]) == ([m] + a) + [k]
  {
  }

  /** Adding a number larger than every existing one appends it at the end. */
  lemma {:induction false} AscendingAppend(s: set<nat>, k: nat)
    requires forall j :: j in s ==> j < k
    ensures Ascending(s + {k}) == Ascending(s) + [k]
    decreases |s|
  {
    if s == {} {
      assert s + {k} == {k};
      AscendingSingleton(k);
    } else {
      var m := MinKey(s);
      AscendingAppend(s - {m}, k);
      AscendingAppendStep(s, k, m);
    }
  }

  /** A set stored under a fresh number shows up once in `Object.values`, the others keep their order. */
  lemma SetListInsert(sets: map<nat, GameSet>, k: nat, x: GameSet) returns (i: nat)
    requires k !in sets
    ensures i <= |SetList(sets)| && SortedKeys(sets[k := x])[i] == k
    ensures SetList(sets[k := x]) == SetList(sets)[..i] + [x] + SetList(sets)[i..]
  {
    var m := sets[k := x];
    var a, ks := SortedKeys(sets), SortedKeys(m);
    i := KeysInsert(sets, k, x);
    var vs, ws := SetList(sets), SetList(m);
    var rhs := vs[..i] + [x] + vs[i..];
    forall j | 0 <= j < |ws|
      ensures ws[j] == rhs[j]
    {
      SpliceIndex(a, k, i, j);
      SpliceIndex(vs, x, i, j);
      SetListAt(m, j);
      if j < i {
        SetListAt(sets, j);
      } else if j > i {
        SetListAt(sets, j - 1);
      }
    }
  }

  /** What lies before and after an element spliced in at `i`. */
  lemma SpliceParts<T>(a: seq<T>, y: T, i: nat)
    requires i <= |a|
    ensures (a[..i] + [y] + a[i..])[..i] == a[..i]
    ensures (a[..i] + [y] + a[i..])[i + 1..] == a[i..]
    ensures a[..i] + a[i..] == a
  {
  }

  /** Where an element spliced in at `i` sends each index. */
  lemma SpliceIndex<T>(a: seq<T>, y: T, i: nat, j: nat)
    requires i <= |a| && j <= |a|
    ensures (a[..i] + [y] + a[i..])[j] == if j < i then a[j] else if j == i then y else a[j - 1]
  {
  }

  /** The sorted keys with a fresh number added: the old ones with it spliced in. */
  lemma KeysInsert(sets: map<nat, GameSet>, k: nat, x: GameSet) returns (i: nat)
    requires k !in sets
    ensures i <= |SortedKeys(sets)|
    ensures SortedKeys(sets[k := x]) == SortedKeys(sets)[..i] + [k] + SortedKeys(sets)[i..]
  {
    assert sets[k := x].Keys == sets.Keys + {k};
    i := AscendingInsert(sets.Keys, k);
  }

  /** The `j`-th listed set is the one stored under the `j`-th key. */
  lemma SetListAt(sets: map<nat, GameSet>, j: nat)
    requires j < |sets.Keys|
    ensures SortedKeys(sets)[j] in sets && SetList(sets)[j] == sets[SortedKeys(sets)[j]]
  {
  }

  /** Totals over a list with one more set grow by that set's share. */
  lemma TotalInsert(vs: seq<GameSet>, i: nat, x: GameSet, f: GameSet -> int)
    requires i <= |vs|
    ensures Total(vs[..i] + [x] + vs[i..], f) == Total(vs, f) + f(x)
  {
    TotalAppend(vs[..i] + [x], vs[i..], f);
    TotalAppend(vs[..i], [x], f);
    TotalAppend(vs[..i], vs[i..], f);
    assert vs[..i] + vs[i..] == vs;
    assert Total([x], f) == f(x) by {
      assert [x][..0] == [];
    }
  }

  /** The decimal digits of `n`, as a template literal prints a number. */
  function DecimalString(n: nat): (r: string)
    ensures |r| >= 1 && forall c :: c in r ==> '0' <= c <= '9'
  {
    var d := ['0' + (n % 10) as char];
    if n < 10 then d else DecimalString(n / 10) + d
  }

  /** The number a string of decimal digits denotes, most significant first. */
  function DigitsValue(s: string): int
  {
    if s == [] then 0 else DigitsValue(s[..|s| - 1]) * 10 + (s[|s| - 1] as int - '0' as int)
  }

  /** The digits printed for `n` denote `n`. */
  lemma {:induction false} DecimalStringValue(n: nat)
    ensures DigitsValue(DecimalString(n)) == n
  {
    var d := ['0' + (n % 10) as char];
    if n >= 10 {
      DecimalStringValue(n / 10);
      var s := DecimalString(n / 10) + d;
      assert s[..|s| - 1] == DecimalString(n / 10);
    }
  }

  /** Different numbers print differently, so the ids `m<n>` are distinct. */
  lemma DecimalStringInjective(a: nat, b: nat)
    requires DecimalString(a) == DecimalString(b)
    ensures a == b
  {
    DecimalStringValue(a);
    DecimalStringValue(b);
  }

  /** The set numbers `1..n`. */
  function Range(n: nat): (r: set<nat>)
    ensures forall k :: k in r <==> 1 <= k <= n
  {
    if n == 0 then {} else Range(n - 1) + {n}
  }

  lemma {:induction false} RangeSize(n: nat)
    ensures |Range(n)| == n
  {
    if n > 0 {
      RangeSize(n - 1);
      AddNew(Range(n - 1), n);
    }
  }

  /** Adding a number not yet in a set makes it one larger. */
  lemma AddNew(s: set<nat>, x: nat)
    requires x !in s
    ensures |s + {x}| == |s| + 1
  {
    assert s * {x} == {};
  }

  /** Sets numbered densely from 1, as the match form keeps them. */
  predicate Dense(sets: map<nat, GameSet>)
  {
    sets.Keys == Range(|sets.Keys|)
  }

  /** The numbers `1..n` in ascending order. */
  function Upto(n: nat): (r: seq<nat>)
    ensures |r| == n && forall i :: 0 <= i < n ==> r[i] == i + 1
  {
    if n == 0 then [] else Upto(n - 1) + [n]
  }

  /** `1..n` is `1..n-1` and `n`. */
  lemma RangeStep(n: nat)
    requires n > 0
    ensures Range(n) == Range(n - 1) + {n}
  {
  }

  /** The numbers `1..n` listed in ascending order. */
  lemma {:induction false} AscendingRange(n: nat)
    ensures Ascending(Range(n)) == Upto(n)
  {
    if n > 0 {
      AscendingRange(n - 1);
      RangeStep(n);
      AscendingAppend(Range(n - 1), n);
    }
  }

  /** Densely numbered sets have the keys `1..n` in order. */
  lemma DenseKeys(sets: map<nat, GameSet>)
    requires Dense(sets)
    ensures SortedKeys(sets) == Upto(|sets.Keys|)
  {
    AscendingRange(|sets.Keys|);
  }

  /** The sets of `vs` stored under `1..|vs|` in order: the renumbering loop's result. */
  function Renumber(vs: seq<GameSet>): (sets: map<nat, GameSet>)
    ensures sets.Keys == Range(|vs|)
    ensures forall k :: 1 <= k <= |vs| ==> sets[k] == vs[k - 1]
  {
    if vs == [] then map[]
    else
      Renumber(vs[..|vs| - 1])[|vs| := vs[|vs| - 1]]
  }

  /** Renumbered sets are listed in the order they were renumbered from. */
  lemma SetListRenumber(vs: seq<GameSet>)
    ensures Dense(Renumber(vs))
    ensures SetList(Renumber(vs)) == vs
  {
    var r := Renumber(vs);
    RenumberDense(vs);
    forall i | 0 <= i < |vs|
      ensures SetList(r)[i] == vs[i]
    {
      DenseAt(r, i);
    }
  }

  /** Densely numbered sets list set `i + 1` at position `i`. */
  lemma DenseAt(sets: map<nat, GameSet>, i: nat)
    requires Dense(sets) && i < |sets.Keys|
    ensures i + 1 in sets && SetList(sets)[i] == sets[i + 1]
  {
    DenseKeys(sets);
    SetListAt(sets, i);
  }

  lemma RenumberDense(vs: seq<GameSet>)
    ensures |Renumber(vs).Keys| == |vs| && Dense(Renumber(vs))
  {
    RangeSize(|vs|);
  }

  /** A set added under the next number of densely numbered sets comes last. */
  lemma SetListAppend(sets: map<nat, GameSet>, x: GameSet)
    requires Dense(sets)
    ensures Dense(sets[|sets.Keys| + 1 := x])
    ensures SetList(sets[|sets.Keys| + 1 := x]) == SetList(sets) + [x]
  {
    var n := |sets.Keys|;
    var m := sets[n + 1 := x];
    DenseGrow(sets, x);
    var i := SetListInsert(sets, n + 1, x);
    DenseKeys(m);
    assert i == n;
    assert SetList(sets)[..n] == SetList(sets);
  }

  /** Densely numbered sets stay dense with a set added under the next number. */
  lemma DenseGrow(sets: map<nat, GameSet>, x: GameSet)
    requires Dense(sets)
    ensures |sets.Keys| + 1 !in sets && Dense(sets[|sets.Keys| + 1 := x])
  {
    var n := |sets.Keys|;
    var keys := sets[n + 1 := x].Keys;
    RangeStep(n + 1);
    assert keys == sets.Keys + {n + 1};
    assert sets.Keys * {n + 1} == {};
  }
}
