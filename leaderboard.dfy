/** The `update_leaderboard` management command: merge two per-user click sums,
    sort the users by their total in descending order, number them from 1, and
    replace the whole LeaderboardStanding table with the result.

    The two ORM aggregate queries are inputs: `aggregate` is the list of
    (user pk, SUM of the user's links' aggregate_link_clicks) in query order,
    one row per user, and `datapoint` is the dict of (user pk -> SUM of the
    user's data points' link_clicks). A SUM over no rows is None. */
module Leaderboard {
  import opened Wrappers

  type UserId = int

  /** A user's combined click count, the `(pk, total)` pair of the source. */
  datatype Total = Total(user: UserId, clicks: int)

  /** A row of the LeaderboardStanding table. */
  datatype Standing = Standing(ranking: int, userId: UserId, metric: string, value: int)

  /** The only metric this command writes. */
  const LinkClicksMetric: string := "link_clicks"

  /** The `batch_size` passed to `bulk_create`. */
  const BulkCreateBatchSize: nat := 1000

  // ---------------------------------------------------------------------------
  // Merging the two sums

  /** Python's `value or 0` on a SUM: None (no rows) counts as 0. */
  function OrZero(v: Option<int>): int {
    match v
    case None => 0
    case Some(n) => n
  }

  /** `datapoint.get(pk, 0) or 0`: a user missing from the dict, or mapped to
      None, has 0 data-point clicks. */
  function DatapointClicks(datapoint: map<UserId, Option<int>>, pk: UserId): int {
    if pk in datapoint then OrZero(datapoint[pk]) else 0
  }

  /** The `total_clicks` list comprehension: one entry per row of the aggregate
      query, in query order. */
  function Totals(aggregate: seq<(UserId, Option<int>)>, datapoint: map<UserId, Option<int>>): (r: seq<Total>)
    ensures |r| == |aggregate|
    ensures forall i :: 0 <= i < |aggregate| ==> r[i].user == aggregate[i].0
    ensures forall i :: 0 <= i < |aggregate| ==>
      r[i].clicks == (match aggregate[i].1 case None => 0 case Some(n) => n)
                     + (if aggregate[i].0 in datapoint && datapoint[aggregate[i].0].Some?
                        then datapoint[aggregate[i].0].value else 0)
  {
    if aggregate == [] then []
    else
      var (pk, aggregateClicks) := aggregate[0];
      [Total(pk, OrZero(aggregateClicks) + DatapointClicks(datapoint, pk))] + Totals(aggregate[1..], datapoint)
  }

  // ---------------------------------------------------------------------------
  // Sorting: `sorted(total_clicks, lambda a, b: b[1] - a[1])`

  /** Non-increasing totals from the front: the order the comparator asks for. */
  predicate Descending(s: seq<Total>) {
    forall i, j :: 0 <= i < j < |s| ==> s[i].clicks >= s[j].clicks
  }

  /** The entries of `s` whose total is `v`, in their order in `s`. */
  function WithClicks(s: seq<Total>, v: int): seq<Total> {
    if s == [] then []
    else (if s[0].clicks == v then [s[0]] else []) + WithClicks(s[1..], v)
  }

  /** `r` keeps the relative order of every group of equal totals of `s`: the
      guarantee of Python's stable `sorted`. */
  ghost predicate Stable(s: seq<Total>, r: seq<Total>) {
    forall v :: WithClicks(r, v) == WithClicks(s, v)
  }

  /** Puts `x` in front of the first entry whose total is not larger, so that
      `x` stays ahead of the entries it ties with. */
  function Insert(x: Total, t: seq<Total>): seq<Total> {
    if t == [] || x.clicks >= t[0].clicks then [x] + t
    else [t[0]] + Insert(x, t[1..])
  }

  /** A stable sort by descending total: the result holds exactly the entries
      of `s`, and totals never increase from the first entry to the last. */
  function SortDescending(s: seq<Total>): (r: seq<Total>)
    ensures multiset(r) == multiset(s)
    ensures Descending(r)
  {
    if s == [] then []
    else
      var t := SortDescending(s[1..]);
      InsertPermutes(s[0], t);
      InsertKeepsDescending(s[0], t);
      assert s == [s[0]] + s[1..];
      Insert(s[0], t)
  }

  lemma {:induction false} InsertPermutes(x: Total, t: seq<Total>)
    ensures multiset(Insert(x, t)) == multiset{x} + multiset(t)
  {
    if t == [] || x.clicks >= t[0].clicks {
    } else {
      InsertPermutes(x, t[1..]);
      assert t == [t[0]] + t[1..];
    }
  }

  lemma {:induction false} InsertKeepsDescending(x: Total, t: seq<Total>)
    requires Descending(t)
    ensures Descending(Insert(x, t))
  {
    if t == [] || x.clicks >= t[0].clicks {
    } else {
      var rest := Insert(x, t[1..]);
      InsertKeepsDescending(x, t[1..]);
      assert rest[0] == x || rest[0] == t[1];
      var r := [t[0]] + rest;
      forall i, j | 0 <= i < j < |r| ensures r[i].clicks >= r[j].clicks {
        if i == 0 {
          assert r[j] == rest[j - 1];
        } else {
          assert r[i] == rest[i - 1] && r[j] == rest[j - 1];
        }
      }
    }
  }

  lemma {:induction false} WithClicksAppend(a: seq<Total>, b: seq<Total>, v: int)
    ensures WithClicks(a + b, v) == WithClicks(a, v) + WithClicks(b, v)
  {
    if a == [] {
      assert a + b == b;
    } else {
      var p := if a[0].clicks == v then [a[0]] else [];
      assert (a + b)[0] == a[0] && (a + b)[1..] == a[1..] + b;
      WithClicksAppend(a[1..], b, v);
      assert WithClicks(a + b, v) == p + (WithClicks(a[1..], v) + WithClicks(b, v));
      assert WithClicks(a, v) == p + WithClicks(a[1..], v);
    }
  }

  lemma {:induction false} InsertWithClicks(x: Total, t: seq<Total>, v: int)
    requires Descending(t)
    ensures WithClicks(Insert(x, t), v) == (if x.clicks == v then [x] else []) + WithClicks(t, v)
  {
    if t == [] || x.clicks >= t[0].clicks {
      WithClicksAppend([x], t, v);
    } else {
      InsertWithClicks(x, t[1..], v);
      WithClicksAppend([t[0]], Insert(x, t[1..]), v);
      WithClicksAppend([t[0]], t[1..], v);
      assert t == [t[0]] + t[1..];
    }
  }

  /** Users with equal totals keep their query order. */
  lemma {:induction false} SortIsStable(s: seq<Total>)
    ensures Stable(s, SortDescending(s))
  {
    if s != [] {
      forall v ensures WithClicks(SortDescending(s), v) == WithClicks(s, v) {
        SortIsStable(s[1..]);
        InsertWithClicks(s[0], SortDescending(s[1..]), v);
      }
    }
  }

  lemma {:induction false} WithClicksMember(s: seq<Total>, v: int, y: Total)
    requires y in WithClicks(s, v)
    ensures y in s && y.clicks == v
  {
    if s != [] {
      if s[0].clicks == v && y == s[0] {
      } else {
        WithClicksMember(s[1..], v, y);
      }
    }
  }

  /** The first entry of a descending list is at least as large as any entry
      of another list that shares its tie group. */
  lemma FirstBoundsGroup(r1: seq<Total>, r2: seq<Total>)
    requires Descending(r2) && r1 != []
    requires WithClicks(r1, r1[0].clicks) == WithClicks(r2, r1[0].clicks)
    ensures r2 != [] && r2[0].clicks >= r1[0].clicks
  {
    var a := r1[0];
    assert WithClicks(r1, a.clicks)[0] == a;
    WithClicksMember(r2, a.clicks, a);
    var j :| 0 <= j < |r2| && r2[j] == a;
  }

  lemma HeadsEqual(r1: seq<Total>, r2: seq<Total>)
    requires Descending(r1) && Descending(r2) && r1 != [] && r2 != []
    requires forall v :: WithClicks(r1, v) == WithClicks(r2, v)
    ensures r1[0] == r2[0]
  {
    FirstBoundsGroup(r1, r2);
    FirstBoundsGroup(r2, r1);
    assert WithClicks(r1, r1[0].clicks)[0] == r1[0];
    assert WithClicks(r2, r2[0].clicks)[0] == r2[0];
  }

  lemma TailsAgree(r1: seq<Total>, r2: seq<Total>, w: int)
    requires r1 != [] && r2 != [] && r1[0] == r2[0]
    requires WithClicks(r1, w) == WithClicks(r2, w)
    ensures WithClicks(r1[1..], w) == WithClicks(r2[1..], w)
  {
    var p := if r1[0].clicks == w then [r1[0]] else [];
    assert WithClicks(r1, w) == p + WithClicks(r1[1..], w);
    assert WithClicks(r2, w) == p + WithClicks(r2[1..], w);
    assert WithClicks(r1[1..], w) == WithClicks(r1, w)[|p|..];
  }

  lemma DescendingTail(r: seq<Total>)
    requires Descending(r) && r != []
    ensures Descending(r[1..])
  {
  }

  /** Descending order and stability leave no choice: two lists that are both
      descending and agree on every group of equal totals are equal. */
  lemma {:induction false} DescendingStableUnique(r1: seq<Total>, r2: seq<Total>)
    requires Descending(r1) && Descending(r2)
    requires forall v :: WithClicks(r1, v) == WithClicks(r2, v)
    ensures r1 == r2
  {
    if r1 == [] || r2 == [] {
      // A non-empty list would have a group the empty one lacks.
      if r1 != [] {
        FirstGroupNonEmpty(r1);
      } else if r2 != [] {
        FirstGroupNonEmpty(r2);
      }
    } else {
      HeadsEqual(r1, r2);
      TailGroupsAgree(r1, r2);
      DescendingTail(r1);
      DescendingTail(r2);
      DescendingStableUnique(r1[1..], r2[1..]);
      assert r1 == [r1[0]] + r1[1..] && r2 == [r2[0]] + r2[1..];
    }
  }

  /** A non-empty list has a non-empty group for its first total. */
  lemma FirstGroupNonEmpty(r: seq<Total>)
    requires r != []
    ensures WithClicks(r, r[0].clicks) != []
  {
  }

  lemma TailGroupsAgree(r1: seq<Total>, r2: seq<Total>)
    requires r1 != [] && r2 != [] && r1[0] == r2[0]
    requires forall v :: WithClicks(r1, v) == WithClicks(r2, v)
    ensures forall w :: WithClicks(r1[1..], w) == WithClicks(r2[1..], w)
  {
    forall w ensures WithClicks(r1[1..], w) == WithClicks(r2[1..], w) {
      TailsAgree(r1, r2, w);
    }
  }

  /** An independent description of the sort: a list is the sorted totals if and
      only if it is descending and keeps the order within each tie. */
  lemma SortCharacterized(s: seq<Total>, r: seq<Total>)
    ensures r == SortDescending(s) <==> Descending(r) && Stable(s, r)
  {
    SortIsStable(s);
    if Descending(r) && Stable(s, r) {
      DescendingStableUnique(r, SortDescending(s));
    }
  }

  // ---------------------------------------------------------------------------
  // Ranking: `enumerate` gives the entry at position `index` the ranking index + 1

  /** The standings for `sorted`, numbered from `first`. */
  function Ranked(sorted: seq<Total>, first: int): (r: seq<Standing>)
    ensures |r| == |sorted|
    ensures forall i :: 0 <= i < |r| ==>
      r[i].ranking == first + i && r[i].userId == sorted[i].user &&
      r[i].metric == LinkClicksMetric && r[i].value == sorted[i].clicks
  {
    if sorted == [] then []
    else [Standing(first, sorted[0].user, LinkClicksMetric, sorted[0].clicks)] + Ranked(sorted[1..], first + 1)
  }

  /** The `new_standings` list: rankings start at 1. */
  function NewStandings(sorted: seq<Total>): seq<Standing> {
    Ranked(sorted, 1)
  }

  /** The table contents after a run, as a function of the two query results:
      one standing per queried user, ranked 1..n without gaps or repeats, all
      with metric 'link_clicks', values non-increasing as the ranking grows. */
  function LeaderboardFor(aggregate: seq<(UserId, Option<int>)>, datapoint: map<UserId, Option<int>>): (r: seq<Standing>)
    ensures |r| == |aggregate|
    ensures forall i :: 0 <= i < |r| ==> r[i].metric == LinkClicksMetric
    ensures forall i :: 0 <= i < |r| ==> r[i].ranking == i + 1
    ensures forall i, j :: 0 <= i < |r| && 0 <= j < |r| && r[i].ranking == r[j].ranking ==> i == j
    ensures forall i, j :: 0 <= i < j < |r| ==> r[i].value >= r[j].value
  {
    var t := Totals(aggregate, datapoint);
    var sorted := SortDescending(t);
    assert |sorted| == |multiset(sorted)| == |multiset(t)| == |t|;
    NewStandings(sorted)
  }

  predicate DistinctUsers(aggregate: seq<(UserId, Option<int>)>) {
    forall i, j :: 0 <= i < j < |aggregate| ==> aggregate[i].0 != aggregate[j].0
  }

  /** With one query row per user (the query is over the User table), each user
      has exactly one standing, and its value is that user's total. */
  lemma EachUserRankedOnce(aggregate: seq<(UserId, Option<int>)>, datapoint: map<UserId, Option<int>>)
    requires DistinctUsers(aggregate)
    ensures var r := LeaderboardFor(aggregate, datapoint);
      var t := Totals(aggregate, datapoint);
      (forall i :: 0 <= i < |aggregate| ==>
        exists k :: 0 <= k < |r| && r[k].userId == aggregate[i].0 && r[k].value == t[i].clicks) &&
      (forall k, l :: 0 <= k < |r| && 0 <= l < |r| && r[k].userId == r[l].userId ==> k == l)
  {
    var t := Totals(aggregate, datapoint);
    var s := SortDescending(t);
    LeaderboardForIsRanked(aggregate, datapoint);
    RankedOnce(aggregate, t, s, LeaderboardFor(aggregate, datapoint));
  }

  lemma LeaderboardForIsRanked(aggregate: seq<(UserId, Option<int>)>, datapoint: map<UserId, Option<int>>)
    ensures LeaderboardFor(aggregate, datapoint) == Ranked(SortDescending(Totals(aggregate, datapoint)), 1)
  {
  }

  /** The ranked permutation `s` of the totals `t` of `aggregate` names each
      queried user exactly once, with that user's total. */
  lemma RankedOnce(aggregate: seq<(UserId, Option<int>)>, t: seq<Total>, s: seq<Total>, r: seq<Standing>)
    requires DistinctUsers(aggregate)
    requires |t| == |aggregate| && forall i :: 0 <= i < |aggregate| ==> t[i].user == aggregate[i].0
    requires multiset(s) == multiset(t) && r == Ranked(s, 1)
    ensures forall i :: 0 <= i < |aggregate| ==>
      exists k :: 0 <= k < |r| && r[k].userId == aggregate[i].0 && r[k].value == t[i].clicks
    ensures forall k, l :: 0 <= k < |r| && 0 <= l < |r| && r[k].userId == r[l].userId ==> k == l
  {
    assert forall i, j :: 0 <= i < j < |t| ==> t[i].user != t[j].user by {
      forall i, j | 0 <= i < j < |t| ensures t[i].user != t[j].user {
        assert t[i].user == aggregate[i].0 && t[j].user == aggregate[j].0;
      }
    }
    EveryTotalRanked(t, s, r);
    RankedUsersDistinct(t, s, r);
  }

  /** Every entry of `t` has a standing among the ranked permutation `s`. */
  lemma EveryTotalRanked(t: seq<Total>, s: seq<Total>, r: seq<Standing>)
    requires multiset(s) == multiset(t) && r == Ranked(s, 1)
    ensures forall i :: 0 <= i < |t| ==>
      exists k :: 0 <= k < |r| && r[k].userId == t[i].user && r[k].value == t[i].clicks
  {
    forall i | 0 <= i < |t|
      ensures exists k :: 0 <= k < |r| && r[k].userId == t[i].user && r[k].value == t[i].clicks
    {
      assert t[i] in multiset(s);
      var k :| 0 <= k < |s| && s[k] == t[i];
      assert r[k].userId == t[i].user && r[k].value == t[i].clicks;
    }
  }

  /** A ranked permutation of totals with distinct users names each user once. */
  lemma RankedUsersDistinct(t: seq<Total>, s: seq<Total>, r: seq<Standing>)
    requires forall i, j :: 0 <= i < j < |t| ==> t[i].user != t[j].user
    requires multiset(s) == multiset(t) && r == Ranked(s, 1)
    ensures forall k, l :: 0 <= k < |r| && 0 <= l < |r| && r[k].userId == r[l].userId ==> k == l
  {
    forall k, l | 0 <= k < |r| && 0 <= l < |r| && r[k].userId == r[l].userId
      ensures k == l
    {
      if k != l {
        DistinctAfterPermutation(t, s, k, l);
      }
    }
  }

  /** Two positions of a permutation of a list with distinct users hold
      different users. */
  lemma DistinctAfterPermutation(t: seq<Total>, s: seq<Total>, k: int, l: int)
    requires forall i, j :: 0 <= i < j < |t| ==> t[i].user != t[j].user
    requires multiset(s) == multiset(t)
    requires 0 <= k < |s| && 0 <= l < |s| && k != l
    ensures s[k].user != s[l].user
  {
    assert s[k] in multiset(t) && s[l] in multiset(t);
    var i :| 0 <= i < |t| && t[i] == s[k];
    var j :| 0 <= j < |t| && t[j] == s[l];
    if s[k].user == s[l].user {
      assert i == j;
      // s[k] == s[l] == t[i] would then occur twice in s but once in t.
      OccursOnce(t, i);
      TwoPositions(s, k, l);
      assert false;
    }
  }

  lemma OccursOnce(t: seq<Total>, i: int)
    requires forall a, b :: 0 <= a < b < |t| ==> t[a].user != t[b].user
    requires 0 <= i < |t|
    ensures multiset(t)[t[i]] == 1
  {
    assert t == t[..i] + [t[i]] + t[i + 1..];
    assert t[i] !in t[..i];
    assert t[i] !in t[i + 1..];
  }

  lemma TwoPositions(s: seq<Total>, k: int, l: int)
    requires 0 <= k < |s| && 0 <= l < |s| && k != l && s[k] == s[l]
    ensures multiset(s)[s[k]] >= 2
  {
    var lo, hi := if k < l then k else l, if k < l then l else k;
    assert s == s[..lo] + [s[lo]] + s[lo + 1..hi] + [s[hi]] + s[hi + 1..];
  }

  // ---------------------------------------------------------------------------
  // The table and the command

  /** The LeaderboardStanding table, updated in place by the command. */
  class StandingTable {
    var rows: seq<Standing>

    constructor (initial: seq<Standing>)
      ensures rows == initial
    {
      rows := initial;
    }

    /** `LeaderboardStanding.objects.all().delete()` */
    method DeleteAll()
      modifies this
      ensures rows == []
    {
      rows := [];
    }

    /** `bulk_create(news, batch_size)`: inserts `news` in order, `batchSize`
        rows per statement. */
    method BulkCreate(news: seq<Standing>, batchSize: nat)
      requires batchSize > 0
      modifies this
      ensures rows == old(rows) + news
    {
      var start := 0;
      while start < |news|
        invariant 0 <= start <= |news|
        invariant rows == old(rows) + news[..start]
        decreases |news| - start
      {
        var end := if start + batchSize < |news| then start + batchSize else |news|;
        assert news[..end] == news[..start] + news[start..end];
        rows := rows + news[start..end];
        start := end;
      }
      assert news[..start] == news;
    }
  }

  /** `Command.handle_quiet`: after the run the table holds exactly the new
      standings and no earlier row. */
  method HandleQuiet(table: StandingTable, aggregate: seq<(UserId, Option<int>)>, datapoint: map<UserId, Option<int>>)
    modifies table
    ensures table.rows == LeaderboardFor(aggregate, datapoint)
  {
    var totalClicks := Totals(aggregate, datapoint);
    totalClicks := SortDescending(totalClicks);
    table.DeleteAll();
    var newStandings := NewStandings(totalClicks);
    table.BulkCreate(newStandings, BulkCreateBatchSize);
  }
}
