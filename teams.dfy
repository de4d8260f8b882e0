/** Roster checks and the team split of game.js (`updateStartButton`,
    `createTeams`): players are grouped by story-point value, the distinct
    values sorted ascending, the lower half of the values (rounded up) goes
    left and the rest right; when that leaves a side empty, players are dealt
    out alternately by join order instead. */
module Teams {
  import opened Util
  import opened Players

  predicate NoDup(s: seq<int>) {
    forall i, j :: 0 <= i < j < |s| ==> s[i] != s[j]
  }

  predicate StrictlyIncreasing(s: seq<int>) {
    forall i, j :: 0 <= i < j < |s| ==> s[i] < s[j]
  }

  /** The roster carries at least two different story-point values. */
  predicate HasTwoValues(ps: seq<Player>) {
    exists i, j :: 0 <= i < |ps| && 0 <= j < |ps| && ps[i].storyPoints != ps[j].storyPoints
  }

  function HasPoints(v: int): Player -> bool {
    (p: Player) => p.storyPoints == v
  }

  function PointsIn(vs: set<int>): Player -> bool {
    (p: Player) => p.storyPoints in vs
  }

  /** `[...new Set(players.map(p => p.storyPoints))]`: the distinct values in
      order of first appearance. */
  function DistinctValues(ps: seq<Player>): (r: seq<int>)
    ensures NoDup(r)
    ensures forall v :: v in r <==> exists i :: 0 <= i < |ps| && ps[i].storyPoints == v
  {
    if ps == [] then []
    else
      var init := ps[..|ps| - 1];
      assert forall i :: 0 <= i < |init| ==> init[i] == ps[i];
      var d := DistinctValues(init);
      var v := ps[|ps| - 1].storyPoints;
      if v in d then d else d + [v]
  }

  /** Two different values exist exactly when there are at least two
      distinct values. */
  lemma DistinctValuesCount(ps: seq<Player>)
    ensures HasTwoValues(ps) <==> |DistinctValues(ps)| >= 2
    ensures |ps| > 0 ==> |DistinctValues(ps)| >= 1
  {
    var d := DistinctValues(ps);
    if HasTwoValues(ps) {
      var i, j :| 0 <= i < |ps| && 0 <= j < |ps| && ps[i].storyPoints != ps[j].storyPoints;
      AtLeastTwo(d, ps[i].storyPoints, ps[j].storyPoints);
    }
    if |d| >= 2 {
      assert d[0] in d && d[1] in d;
      var i :| 0 <= i < |ps| && ps[i].storyPoints == d[0];
      var j :| 0 <= j < |ps| && ps[j].storyPoints == d[1];
      assert ps[i].storyPoints != ps[j].storyPoints;
    }
    if |ps| > 0 {
      assert ps[0].storyPoints in d;
    }
  }

  lemma AtLeastTwo(d: seq<int>, a: int, b: int)
    requires a in d && b in d && a != b
    ensures |d| >= 2
  {
    var i :| 0 <= i < |d| && d[i] == a;
    var j :| 0 <= j < |d| && d[j] == b;
    assert i != j;
  }

  /** Insertion into an ascending sequence. */
  function Insert(x: int, s: seq<int>): (r: seq<int>)
    ensures |r| == |s| + 1
    ensures forall y :: y in r <==> y == x || y in s
  {
    if s == [] then [x]
    else if x <= s[0] then [x] + s
    else [s[0]] + Insert(x, s[1..])
  }

  lemma {:induction false} InsertIncreasing(x: int, s: seq<int>)
    requires StrictlyIncreasing(s) && x !in s
    ensures StrictlyIncreasing(Insert(x, s))
  {
    if s == [] {
    } else if x <= s[0] {
      var r := [x] + s;
      forall i, j | 0 <= i < j < |r| ensures r[i] < r[j] {
        if i == 0 {
          assert r[j] == s[j - 1] && s[0] <= s[j - 1];
        } else {
          assert r[i] == s[i - 1] && r[j] == s[j - 1];
        }
      }
    } else {
      var t := s[1..];
      assert StrictlyIncreasing(t) by {
        forall i, j | 0 <= i < j < |t| ensures t[i] < t[j] {
          assert t[i] == s[i + 1] && t[j] == s[j + 1];
        }
      }
      InsertIncreasing(x, t);
      var u := Insert(x, t);
      forall y | y in u ensures s[0] < y {
        if y != x {
          var k :| 0 <= k < |t| && t[k] == y;
          assert s[k + 1] == y;
        }
      }
      var r := [s[0]] + u;
      forall i, j | 0 <= i < j < |r| ensures r[i] < r[j] {
        if i == 0 {
          assert r[j] == u[j - 1] && r[j] in u;
        } else {
          assert r[i] == u[i - 1] && r[j] == u[j - 1];
        }
      }
    }
  }

  /** `values.sort((a, b) => a - b)`: ascending numeric order. */
  function SortAscending(s: seq<int>): (r: seq<int>)
    ensures |r| == |s|
    ensures forall y :: y in r <==> y in s
  {
    if s == [] then [] else Insert(s[0], SortAscending(s[1..]))
  }

  lemma {:induction false} SortAscendingIncreasing(s: seq<int>)
    requires NoDup(s)
    ensures StrictlyIncreasing(SortAscending(s))
  {
    if s != [] {
      assert NoDup(s[1..]) by {
        forall i, j | 0 <= i < j < |s[1..]| ensures s[1..][i] != s[1..][j] {
          assert s[1..][i] == s[i + 1] && s[1..][j] == s[j + 1];
        }
      }
      SortAscendingIncreasing(s[1..]);
      assert s[0] !in s[1..] by {
        forall k | 0 <= k < |s[1..]| ensures s[1..][k] != s[0] {
          assert s[1..][k] == s[k + 1];
        }
      }
      InsertIncreasing(s[0], SortAscending(s[1..]));
    }
  }

  /** The distinct story-point values, ascending. */
  function SortedValues(ps: seq<Player>): seq<int> {
    SortAscending(DistinctValues(ps))
  }

  lemma SortedValuesFacts(ps: seq<Player>)
    ensures StrictlyIncreasing(SortedValues(ps))
    ensures |SortedValues(ps)| == |DistinctValues(ps)|
    ensures forall v :: v in SortedValues(ps) <==> exists i :: 0 <= i < |ps| && ps[i].storyPoints == v
  {
    SortAscendingIncreasing(DistinctValues(ps));
  }

  /** The players of each value in `vals`, value by value, each group in join
      order: what the `leftValues.forEach` / `rightValues.forEach` loops push. */
  function Gather(ps: seq<Player>, vals: seq<int>): seq<Player> {
    if vals == [] then [] else Filter(ps, HasPoints(vals[0])) + Gather(ps, vals[1..])
  }

  lemma {:induction false} GatherSnoc(ps: seq<Player>, vals: seq<int>, v: int)
    ensures Gather(ps, vals + [v]) == Gather(ps, vals) + Filter(ps, HasPoints(v))
  {
    if vals == [] {
      assert vals + [v] == [v];
      assert [v][1..] == [];
    } else {
      assert (vals + [v])[0] == vals[0];
      assert (vals + [v])[1..] == vals[1..] + [v];
      GatherSnoc(ps, vals[1..], v);
    }
  }

  lemma {:induction false} GatherMembership(ps: seq<Player>, vals: seq<int>, x: Player)
    ensures x in Gather(ps, vals) <==> x in ps && x.storyPoints in vals
  {
    if vals != [] {
      FilterMembership(ps, HasPoints(vals[0]), x);
      GatherMembership(ps, vals[1..], x);
      assert x.storyPoints in vals <==> x.storyPoints == vals[0] || x.storyPoints in vals[1..];
    }
  }

  lemma {:induction false} GatherMultiset(ps: seq<Player>, vals: seq<int>)
    requires NoDup(vals)
    ensures multiset(Gather(ps, vals)) == multiset(Filter(ps, PointsIn(set v | v in vals)))
  {
    if vals == [] {
      FilterNone(ps, PointsIn(set v | v in vals));
    } else {
      var rest := vals[1..];
      var whole := set v | v in vals;
      var tail := set v | v in rest;
      NoDupSplit(vals);
      GatherMultiset(ps, rest);
      FilterSplit(ps, HasPoints(vals[0]), PointsIn(tail), PointsIn(whole));
      assert Gather(ps, vals) == Filter(ps, HasPoints(vals[0])) + Gather(ps, rest);
    }
  }

  /** What separating the first value of a list without duplicates gives
      the filters in `GatherMultiset`. */
  lemma NoDupSplit(vals: seq<int>)
    requires NoDup(vals) && vals != []
    ensures NoDup(vals[1..])
    ensures var whole, tail := (set v | v in vals), (set v | v in vals[1..]);
      && (forall x :: PointsIn(whole)(x) == (HasPoints(vals[0])(x) || PointsIn(tail)(x)))
      && (forall x :: !(HasPoints(vals[0])(x) && PointsIn(tail)(x)))
  {
    var rest := vals[1..];
    forall i, j | 0 <= i < j < |rest| ensures rest[i] != rest[j] {
      assert rest[i] == vals[i + 1] && rest[j] == vals[j + 1];
    }
    forall k | 0 <= k < |rest| ensures rest[k] != vals[0] {
      assert rest[k] == vals[k + 1];
    }
    assert vals == [vals[0]] + rest;
  }

  /** Even positions (0, 2, 4, ...) and odd positions of a sequence. */
  function EvenIndexed<T>(s: seq<T>): seq<T>
    decreases |s|, 1
  {
    if s == [] then [] else [s[0]] + OddIndexed(s[1..])
  }

  function OddIndexed<T>(s: seq<T>): seq<T>
    decreases |s|, 0
  {
    if s == [] then [] else EvenIndexed(s[1..])
  }

  lemma {:induction false} EvenOddSnoc<T>(s: seq<T>, x: T)
    ensures EvenIndexed(s + [x]) == if |s| % 2 == 0 then EvenIndexed(s) + [x] else EvenIndexed(s)
    ensures OddIndexed(s + [x]) == if |s| % 2 == 0 then OddIndexed(s) else OddIndexed(s) + [x]
  {
    if s == [] {
      assert [x][1..] == [];
    } else {
      assert (s + [x])[0] == s[0];
      assert (s + [x])[1..] == s[1..] + [x];
      EvenOddSnoc(s[1..], x);
    }
  }

  /** Element `j` of the left side is the player who joined at `2 * j`, of
      the right side the one who joined at `2 * j + 1`. */
  lemma {:induction false} EvenOddAt<T>(s: seq<T>)
    ensures |EvenIndexed(s)| == (|s| + 1) / 2 && |OddIndexed(s)| == |s| / 2
    ensures forall j :: 0 <= j < (|s| + 1) / 2 ==> EvenIndexed(s)[j] == s[2 * j]
    ensures forall j :: 0 <= j < |s| / 2 ==> OddIndexed(s)[j] == s[2 * j + 1]
  {
    if s != [] {
      var t := s[1..];
      EvenOddAt(t);
      var e, o := EvenIndexed(s), OddIndexed(s);
      assert e == [s[0]] + OddIndexed(t);
      assert o == EvenIndexed(t);
      forall j | 0 < j < (|s| + 1) / 2 ensures e[j] == s[2 * j] {
        assert e[j] == OddIndexed(t)[j - 1];
        assert t[2 * (j - 1) + 1] == s[2 * j];
      }
      forall j | 0 <= j < |s| / 2 ensures o[j] == s[2 * j + 1] {
        assert o[j] == EvenIndexed(t)[j];
        assert t[2 * j] == s[2 * j + 1];
      }
    }
  }

  /** Between them the two sides hold every player exactly once. */
  lemma {:induction false} EvenOddPermutation<T>(s: seq<T>)
    ensures multiset(EvenIndexed(s) + OddIndexed(s)) == multiset(s)
  {
    if s != [] {
      var t := s[1..];
      EvenOddPermutation(t);
      assert s == [s[0]] + t;
      assert EvenIndexed(s) + OddIndexed(s) == [s[0]] + OddIndexed(t) + EvenIndexed(t);
      assert multiset(OddIndexed(t) + EvenIndexed(t)) == multiset(EvenIndexed(t) + OddIndexed(t));
    }
  }

  /** The lower half of the sorted values, rounded up, and the rest. */
  function LowerValues(ps: seq<Player>): seq<int> {
    var vals := SortedValues(ps);
    vals[..(|vals| + 1) / 2]
  }

  function UpperValues(ps: seq<Player>): seq<int> {
    var vals := SortedValues(ps);
    vals[(|vals| + 1) / 2..]
  }

  /** The split `createTeams` produces, as (left, right). */
  function TeamSplit(ps: seq<Player>): (seq<Player>, seq<Player>) {
    var left := Gather(ps, LowerValues(ps));
    var right := Gather(ps, UpperValues(ps));
    if |left| == 0 || |right| == 0 then (EvenIndexed(ps), OddIndexed(ps)) else (left, right)
  }

  /** The first loop of `createTeams`: one pass that files each player under
      its value (`storyPointGroups`), remembering the values as they appear. */
  method GroupByPoints(players: seq<Player>) returns (groups: map<int, seq<Player>>, keys: seq<int>)
    ensures keys == DistinctValues(players)
    ensures forall v :: v in groups <==> v in keys
    ensures forall v :: v in groups ==> groups[v] == Filter(players, HasPoints(v))
  {
    groups, keys := map[], [];
    for i := 0 to |players|
      invariant keys == DistinctValues(players[..i])
      invariant forall v :: v in groups <==> v in keys
      invariant forall v :: v in groups ==> groups[v] == Filter(players[..i], HasPoints(v))
    {
      var p := players[i];
      ghost var before := players[..i];
      assert players[..i + 1] == before + [p];
      assert players[..i + 1][..i] == before;
      if p.storyPoints !in groups {
        assert forall k :: 0 <= k < |before| ==> !HasPoints(p.storyPoints)(before[k]);
        FilterNone(before, HasPoints(p.storyPoints));
        groups := groups[p.storyPoints := []];
        keys := keys + [p.storyPoints];
      }
      groups := groups[p.storyPoints := groups[p.storyPoints] + [p]];
      forall v | v in groups ensures groups[v] == Filter(players[..i + 1], HasPoints(v)) {
        FilterSnoc(before, p, HasPoints(v));
      }
    }
    assert players[..|players|] == players;
  }

  /** One of the `leftValues.forEach` / `rightValues.forEach` loops: pushes,
      value by value, every player of that value's group. */
  method PushGroups(players: seq<Player>, groups: map<int, seq<Player>>, vals: seq<int>)
    returns (team: seq<Player>)
    requires forall v :: v in vals ==> v in groups
    requires forall v :: v in groups ==> groups[v] == Filter(players, HasPoints(v))
    ensures team == Gather(players, vals)
  {
    team := [];
    for vi := 0 to |vals|
      invariant team == Gather(players, vals[..vi])
    {
      var v := vals[vi];
      assert v in vals;
      assert v in groups;
      var group := groups[v];
      for j := 0 to |group|
        invariant team == Gather(players, vals[..vi]) + group[..j]
      {
        assert group[..j + 1] == group[..j] + [group[j]];
        team := team + [group[j]];
      }
      assert group[..|group|] == group;
      assert vals[..vi + 1] == vals[..vi] + [v];
      GatherSnoc(players, vals[..vi], v);
    }
    assert vals[..|vals|] == vals;
  }

  /** The redistribution loop: even join positions left, odd ones right. */
  method DealAlternately(players: seq<Player>) returns (left: seq<Player>, right: seq<Player>)
    ensures left == EvenIndexed(players) && right == OddIndexed(players)
  {
    left, right := [], [];
    for i := 0 to |players|
      invariant left == EvenIndexed(players[..i]) && right == OddIndexed(players[..i])
    {
      assert players[..i + 1] == players[..i] + [players[i]];
      EvenOddSnoc(players[..i], players[i]);
      if i % 2 == 0 {
        left := left + [players[i]];
      } else {
        right := right + [players[i]];
      }
    }
    assert players[..|players|] == players;
  }

  /** `createTeams`: groups the players by value, sorts the values, pushes the
      groups of the lower half (rounded up) left and the rest right, and
      redistributes by join-order parity if a side stayed empty. */
  method CreateTeams(players: seq<Player>) returns (left: seq<Player>, right: seq<Player>)
    ensures (left, right) == TeamSplit(players)
  {
    var groups, keys := GroupByPoints(players);
    var values := SortAscending(keys);
    assert values == SortedValues(players);
    var mid := (|values| + 1) / 2;
    assert forall v :: v in values[..mid] ==> v in values;
    assert forall v :: v in values[mid..] ==> v in values;
    left := PushGroups(players, groups, values[..mid]);
    right := PushGroups(players, groups, values[mid..]);
    if |left| == 0 || |right| == 0 {
      left, right := DealAlternately(players);
    }
  }

  /** With at least two values the lower half and the upper half of the
      sorted values are both non-empty, disjoint, and make up all values. */
  lemma HalvesOfTwoValues(ps: seq<Player>)
    requires HasTwoValues(ps)
    ensures var vals := SortedValues(ps);
      var mid := (|vals| + 1) / 2;
      && 1 <= mid < |vals|
      && StrictlyIncreasing(vals)
      && NoDup(vals[..mid]) && NoDup(vals[mid..])
  {
    var vals := SortedValues(ps);
    SortedValuesFacts(ps);
    DistinctValuesCount(ps);
    var mid := (|vals| + 1) / 2;
    var lo, hi := vals[..mid], vals[mid..];
    assert forall i, j :: 0 <= i < j < |lo| ==> lo[i] == vals[i] && lo[j] == vals[j];
    assert forall i, j :: 0 <= i < j < |hi| ==> hi[i] == vals[mid + i] && hi[j] == vals[mid + j];
  }

  /** A value in the sorted list is the value of some player. */
  lemma ValueOwner(ps: seq<Player>, v: int) returns (i: nat)
    requires v in SortedValues(ps)
    ensures i < |ps| && ps[i].storyPoints == v
  {
    assert v in DistinctValues(ps);
    i :| 0 <= i < |ps| && ps[i].storyPoints == v;
  }

  /** With at least two different values both teams are non-empty. */
  lemma TeamsNonEmpty(ps: seq<Player>)
    requires HasTwoValues(ps)
    ensures |Gather(ps, LowerValues(ps))| > 0 && |Gather(ps, UpperValues(ps))| > 0
  {
    DistinctValuesCount(ps);
    var vals := SortedValues(ps);
    var mid := (|vals| + 1) / 2;
    assert 1 <= mid < |vals|;
    var lo, hi := vals[..mid], vals[mid..];
    assert lo[0] == vals[0] && vals[0] in vals;
    var i0 := ValueOwner(ps, vals[0]);
    GatherMembership(ps, lo, ps[i0]);
    assert hi[0] == vals[mid] && vals[mid] in vals;
    var i1 := ValueOwner(ps, vals[mid]);
    GatherMembership(ps, hi, ps[i1]);
  }

  /** Every value gathered from a lower position of an increasing sequence
      is below every value gathered from a higher one. */
  lemma TeamsOrdered(ps: seq<Player>, vals: seq<int>, mid: nat, a: Player, b: Player)
    requires StrictlyIncreasing(vals) && mid <= |vals|
    requires a in Gather(ps, vals[..mid]) && b in Gather(ps, vals[mid..])
    ensures a.storyPoints < b.storyPoints
  {
    GatherMembership(ps, vals[..mid], a);
    GatherMembership(ps, vals[mid..], b);
    var ia :| 0 <= ia < mid && vals[..mid][ia] == a.storyPoints;
    var ib :| 0 <= ib < |vals| - mid && vals[mid..][ib] == b.storyPoints;
    assert vals[ia] == a.storyPoints && vals[mid + ib] == b.storyPoints;
  }

  /** Every player's value is listed among the sorted values. */
  lemma AllValuesListed(ps: seq<Player>)
    ensures forall k :: 0 <= k < |ps| ==> ps[k].storyPoints in SortedValues(ps)
  {
    forall k | 0 <= k < |ps| ensures ps[k].storyPoints in SortedValues(ps) {
      assert ps[k].storyPoints in DistinctValues(ps);
    }
  }

  /** The two halves of an increasing sequence share no value, and together
      they hold all of its values. */
  lemma HalvesDisjoint(vals: seq<int>, mid: nat)
    requires StrictlyIncreasing(vals) && mid <= |vals|
    ensures forall v :: !(v in vals[..mid] && v in vals[mid..])
    ensures forall v :: v in vals <==> v in vals[..mid] || v in vals[mid..]
  {
    var lo, hi := vals[..mid], vals[mid..];
    forall v | v in lo ensures v !in hi {
      var a :| 0 <= a < |lo| && lo[a] == v;
      forall b | 0 <= b < |hi| ensures hi[b] != v {
        assert lo[a] == vals[a] && hi[b] == vals[mid + b];
      }
    }
    assert vals == lo + hi;
  }

  /** Filtering by the values of either half splits what filtering by all
      values keeps. */
  lemma FilterByHalves(ps: seq<Player>, vals: seq<int>, mid: nat)
    requires StrictlyIncreasing(vals) && mid <= |vals|
    ensures multiset(Filter(ps, PointsIn(set v | v in vals[..mid])))
            + multiset(Filter(ps, PointsIn(set v | v in vals[mid..])))
            == multiset(Filter(ps, PointsIn(set v | v in vals)))
  {
    HalvesDisjoint(vals, mid);
    var lo, hi := vals[..mid], vals[mid..];
    var sLo, sHi, sAll := set v | v in lo, set v | v in hi, set v | v in vals;
    forall x ensures PointsIn(sAll)(x) == (PointsIn(sLo)(x) || PointsIn(sHi)(x)) {
      assert x.storyPoints in sAll <==> x.storyPoints in vals;
      assert x.storyPoints in sLo <==> x.storyPoints in lo;
      assert x.storyPoints in sHi <==> x.storyPoints in hi;
    }
    forall x ensures !(PointsIn(sLo)(x) && PointsIn(sHi)(x)) {
      assert x.storyPoints in sLo <==> x.storyPoints in lo;
      assert x.storyPoints in sHi <==> x.storyPoints in hi;
    }
    FilterSplit(ps, PointsIn(sLo), PointsIn(sHi), PointsIn(sAll));
  }

  /** Filtering by all of the roster's values keeps the whole roster. */
  lemma FilterByAllValues(ps: seq<Player>)
    ensures Filter(ps, PointsIn(set v | v in SortedValues(ps))) == ps
  {
    var sAll := set v | v in SortedValues(ps);
    AllValuesListed(ps);
    assert forall k :: 0 <= k < |ps| ==> PointsIn(sAll)(ps[k]);
    FilterAll(ps, PointsIn(sAll));
  }

  /** The groups of the two halves together are the roster rearranged. */
  lemma TeamsPermutation(ps: seq<Player>)
    requires HasTwoValues(ps)
    ensures multiset(Gather(ps, LowerValues(ps)) + Gather(ps, UpperValues(ps))) == multiset(ps)
  {
    HalvesOfTwoValues(ps);
    var vals := SortedValues(ps);
    var mid := (|vals| + 1) / 2;
    assert LowerValues(ps) == vals[..mid] && UpperValues(ps) == vals[mid..];
    GatherMultiset(ps, vals[..mid]);
    GatherMultiset(ps, vals[mid..]);
    FilterByHalves(ps, vals, mid);
    FilterByAllValues(ps);
  }

  /** With at least two different values both teams are non-empty, every
      left value is below every right value, and the two teams together are
      the roster rearranged. */
  lemma TeamsByValue(ps: seq<Player>)
    requires HasTwoValues(ps)
    ensures |TeamSplit(ps).0| > 0 && |TeamSplit(ps).1| > 0
    ensures forall a, b :: a in TeamSplit(ps).0 && b in TeamSplit(ps).1 ==> a.storyPoints < b.storyPoints
    ensures multiset(TeamSplit(ps).0 + TeamSplit(ps).1) == multiset(ps)
  {
    TeamsNonEmpty(ps);
    TeamsPermutation(ps);
    HalvesOfTwoValues(ps);
    var vals := SortedValues(ps);
    var mid := (|vals| + 1) / 2;
    assert LowerValues(ps) == vals[..mid] && UpperValues(ps) == vals[mid..];
    assert TeamSplit(ps) == (Gather(ps, vals[..mid]), Gather(ps, vals[mid..]));
    forall a, b | a in TeamSplit(ps).0 && b in TeamSplit(ps).1 ensures a.storyPoints < b.storyPoints {
      TeamsOrdered(ps, vals, mid, a, b);
    }
  }

  /** With fewer than two different values the players are dealt out by
      join order: even positions left, odd positions right. */
  lemma TeamsByParity(ps: seq<Player>)
    requires !HasTwoValues(ps)
    ensures TeamSplit(ps) == (EvenIndexed(ps), OddIndexed(ps))
  {
    DistinctValuesCount(ps);
    var vals := SortedValues(ps);
    var mid := (|vals| + 1) / 2;
    assert vals[mid..] == [];
  }

  /** Whichever way the split goes, left ++ right is a permutation of the
      players. */
  lemma TeamSplitPermutation(ps: seq<Player>)
    ensures multiset(TeamSplit(ps).0 + TeamSplit(ps).1) == multiset(ps)
  {
    if HasTwoValues(ps) {
      TeamsByValue(ps);
    } else {
      TeamsByParity(ps);
      EvenOddPermutation(ps);
    }
  }

  /** From two players on, both teams are non-empty, by value or by parity. */
  lemma TeamsNonEmptyFromTwo(ps: seq<Player>)
    requires |ps| >= 2
    ensures |TeamSplit(ps).0| > 0 && |TeamSplit(ps).1| > 0
  {
    if HasTwoValues(ps) {
      TeamsByValue(ps);
    } else {
      TeamsByParity(ps);
      EvenOddAt(ps);
    }
  }

  /** What `updateStartButton` shows: whether the start button is disabled
      and the error text under it. */
  datatype StartButton = StartButton(disabled: bool, error: string)

  const SameValuesError := "\U{26A0}\U{FE0F} All players have the same story points! Add players with different values to create teams."

  /** `updateStartButton`: the button is enabled exactly when the roster has
      two different values; the warning shows exactly when there are at least
      two players but only one value. */
  function UpdateStartButton(players: seq<Player>): (b: StartButton)
    ensures !b.disabled <==> HasTwoValues(players)
    ensures b.error != "" <==> |players| >= 2 && !HasTwoValues(players)
  {
    DistinctValuesCount(players);
    assert HasTwoValues(players) ==> |players| >= 2;
    if |players| < 2 then StartButton(true, "")
    else if |DistinctValues(players)| == 1 then StartButton(true, SameValuesError)
    else StartButton(false, "")
  }

  /** An enabled start button guarantees that the battle's teams are split
      by value, never by the parity fallback. */
  lemma EnabledStartSplitsByValue(ps: seq<Player>)
    requires !UpdateStartButton(ps).disabled
    ensures |TeamSplit(ps).0| > 0 && |TeamSplit(ps).1| > 0
    ensures forall a, b :: a in TeamSplit(ps).0 && b in TeamSplit(ps).1 ==> a.storyPoints < b.storyPoints
  {
    TeamsByValue(ps);
  }
}
