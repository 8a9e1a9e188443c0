/**
 * Rows, repository groups and ranked picks: the vocabulary shared by the
 * deterministic subset builders. A stable rank (a SHA-256 digest in the source)
 * is any function from task identifiers to an ordered type.
 */
module TaskSelection {
  import opened Prelude
  import opened Sorting
  import opened Apportionment

  type TaskId = int

  datatype Complexity = Complexity(files: int, functions: int, lines: int)

  /** The booleans record whether the texts and the test list that validation looks at are non-empty. */
  datatype Row = Row(id: TaskId, repo: Key, hasStatement: bool, hasImage: bool, hasTests: bool,
                     complexity: Option<Complexity>)

  predicate DistinctIds(rows: seq<Row>) {
    forall i, j :: 0 <= i < j < |rows| ==> rows[i].id != rows[j].id
  }

  function Ids(rows: seq<Row>): set<TaskId> {
    set r | r in rows :: r.id
  }

  /** Equal multisets of rows agree on everything that ignores order. */
  lemma SameRows(a: seq<Row>, b: seq<Row>)
    requires multiset(a) == multiset(b) && DistinctIds(a)
    ensures |a| == |b| && DistinctIds(b) && Ids(a) == Ids(b)
    ensures forall r :: r in a <==> r in b
  {
    assert |multiset(a)| == |multiset(b)|;
    forall r
      ensures r in a <==> r in b
    {
      assert r in multiset(a) <==> r in multiset(b);
    }
    assert Distinct(a);
    DistinctMultiplicity(a);
    MultiplicityDistinct(b);
    forall i, j | 0 <= i < j < |b|
      ensures b[i].id != b[j].id
    {
      assert b[i] in a && b[j] in a && b[i] != b[j];
    }
  }

  lemma {:induction false} IdsSize(rows: seq<Row>)
    requires DistinctIds(rows)
    ensures |Ids(rows)| == |rows|
  {
    if |rows| > 0 {
      IdsSize(rows[1..]);
      assert rows == [rows[0]] + rows[1..];
      assert Ids(rows) == {rows[0].id} + Ids(rows[1..]);
    }
  }

  // ---------------------------------------------------------------------
  // Groups by repository.

  function InsertKey(k: Key, ks: seq<Key>): seq<Key> {
    if |ks| == 0 || k < ks[0] then [k] + ks
    else if k == ks[0] then ks
    else [ks[0]] + InsertKey(k, ks[1..])
  }

  /** sorted(groups): the repositories that occur, in order. */
  function Repos(rows: seq<Row>): seq<Key> {
    if |rows| == 0 then [] else InsertKey(rows[0].repo, Repos(rows[1..]))
  }

  lemma {:induction false} InsertKeyCorrect(k: Key, ks: seq<Key>)
    requires Ascending(ks)
    ensures Ascending(InsertKey(k, ks))
    ensures forall x :: x in InsertKey(k, ks) <==> x == k || x in ks
  {
    if |ks| == 0 || k < ks[0] {
      AscendingPrepend(k, ks);
    } else if k > ks[0] {
      var tail, rest := ks[1..], InsertKey(k, ks[1..]);
      assert ks == [ks[0]] + tail;
      InsertKeyCorrect(k, tail);
      forall x | x in rest
        ensures ks[0] < x
      {
        if x in tail {
          var i :| 0 <= i < |tail| && tail[i] == x;
          assert ks[i + 1] == x;
        }
      }
      AscendingPrepend(ks[0], rest);
    }
  }

  lemma AscendingPrepend(k: Key, ks: seq<Key>)
    requires Ascending(ks) && (|ks| > 0 ==> k < ks[0] || forall x :: x in ks ==> k < x)
    ensures Ascending([k] + ks)
  {
    forall j | 0 <= j < |ks|
      ensures k < ks[j]
    {
      var x := ks[j];
      assert x in ks;
    }
  }

  lemma {:induction false} ReposCorrect(rows: seq<Row>)
    ensures Ascending(Repos(rows))
    ensures forall k :: k in Repos(rows) <==> exists r :: r in rows && r.repo == k
  {
    if |rows| > 0 {
      ReposCorrect(rows[1..]);
      InsertKeyCorrect(rows[0].repo, Repos(rows[1..]));
      assert rows == [rows[0]] + rows[1..];
    }
  }

  function Group(rows: seq<Row>, k: Key): seq<Row> {
    if |rows| == 0 then []
    else (if rows[0].repo == k then [rows[0]] else []) + Group(rows[1..], k)
  }

  lemma {:induction false} GroupContents(rows: seq<Row>, k: Key)
    ensures forall x :: multiset(Group(rows, k))[x] == if x.repo == k then multiset(rows)[x] else 0
    ensures forall x :: x in Group(rows, k) <==> x in rows && x.repo == k
  {
    if |rows| > 0 {
      GroupContents(rows[1..], k);
      assert rows == [rows[0]] + rows[1..];
    }
  }

  /** Reordering rows does not change how many fall into a repository. */
  lemma GroupSizeInvariant(a: seq<Row>, b: seq<Row>, k: Key)
    requires multiset(a) == multiset(b)
    ensures |Group(a, k)| == |Group(b, k)|
  {
    GroupContents(a, k);
    GroupContents(b, k);
    assert multiset(Group(a, k)) == multiset(Group(b, k));
    assert |multiset(Group(a, k))| == |multiset(Group(b, k))|;
  }

  lemma GroupOfNone(k: Key)
    ensures Group([], k) == []
  {
  }

  lemma GroupStep(rows: seq<Row>, k: Key)
    requires |rows| > 0
    ensures Group(rows, k) == (if rows[0].repo == k then [rows[0]] else []) + Group(rows[1..], k)
  {
  }

  lemma {:induction false} GroupAppend(a: seq<Row>, b: seq<Row>, k: Key)
    ensures Group(a + b, k) == Group(a, k) + Group(b, k)
  {
    hide Group;
    if |a| == 0 {
      assert a + b == b;
      GroupOfNone(k);
    } else {
      GroupStep(a, k);
      GroupStep(a + b, k);
      assert (a + b)[1..] == a[1..] + b;
      GroupAppend(a[1..], b, k);
    }
  }

  lemma {:induction false} GroupOfOneRepo(rows: seq<Row>, repo: Key, k: Key)
    requires forall r :: r in rows ==> r.repo == repo
    ensures Group(rows, k) == if k == repo then rows else []
  {
    if |rows| > 0 {
      assert rows == [rows[0]] + rows[1..];
      GroupOfOneRepo(rows[1..], repo, k);
    }
  }

  function Groups(rows: seq<Row>, ks: seq<Key>): (g: seq<seq<Row>>)
    ensures |g| == |ks|
  {
    seq(|ks|, i requires 0 <= i < |ks| => Group(rows, ks[i]))
  }

  function Sizes(strata: seq<seq<Row>>): (s: seq<int>)
    ensures |s| == |strata|
  {
    seq(|strata|, i requires 0 <= i < |strata| => |strata[i]|)
  }

  function Flatten(strata: seq<seq<Row>>): seq<Row> {
    if |strata| == 0 then [] else strata[0] + Flatten(strata[1..])
  }

  lemma {:induction false} FlattenSize(strata: seq<seq<Row>>)
    ensures |Flatten(strata)| == Sum(Sizes(strata))
  {
    if |strata| > 0 {
      FlattenSize(strata[1..]);
      assert Sizes(strata)[1..] == Sizes(strata[1..]);
    }
  }

  lemma {:induction false} FlattenAppend(a: seq<seq<Row>>, b: seq<seq<Row>>)
    ensures Flatten(a + b) == Flatten(a) + Flatten(b)
  {
    if |a| == 0 {
      assert a + b == b;
    } else {
      assert (a + b)[1..] == a[1..] + b;
      FlattenAppend(a[1..], b);
    }
  }

  lemma {:induction false} GroupsContents(rows: seq<Row>, ks: seq<Key>)
    requires Distinct(ks)
    ensures forall x :: multiset(Flatten(Groups(rows, ks)))[x] == if x.repo in ks then multiset(rows)[x] else 0
  {
    hide Group;
    if |ks| > 0 {
      GroupsContents(rows, ks[1..]);
      GroupContents(rows, ks[0]);
      assert ks == [ks[0]] + ks[1..];
      var groups, rest := Groups(rows, ks), Groups(rows, ks[1..]);
      assert groups[1..] == rest;
      assert multiset(Flatten(groups)) == multiset(Group(rows, ks[0])) + multiset(Flatten(rest));
    }
  }

  lemma AllRowsGrouped(rows: seq<Row>, ks: seq<Key>)
    requires Distinct(ks) && forall r :: r in rows ==> r.repo in ks
    ensures multiset(Flatten(Groups(rows, ks))) == multiset(rows)
  {
    hide Flatten, Groups;
    GroupsContents(rows, ks);
    forall x
      ensures multiset(Flatten(Groups(rows, ks)))[x] == multiset(rows)[x]
    {
      assert x in rows <==> x in multiset(rows);
    }
  }

  /** The groups of all repositories hold every row exactly once. */
  lemma GroupsPartition(rows: seq<Row>)
    ensures var ks := Repos(rows);
            && multiset(Flatten(Groups(rows, ks))) == multiset(rows)
            && Sum(Sizes(Groups(rows, ks))) == |rows|
            && Ascending(ks)
            && forall i :: 0 <= i < |ks| ==> Sizes(Groups(rows, ks))[i] >= 1
  {
    hide Group, Flatten, Repos;
    var ks := Repos(rows);
    ReposCorrect(rows);
    AllRowsGrouped(rows, ks);
    FlattenSize(Groups(rows, ks));
    assert |multiset(Flatten(Groups(rows, ks)))| == |multiset(rows)|;
    forall i | 0 <= i < |ks|
      ensures |Group(rows, ks[i])| >= 1
    {
      assert ks[i] in ks;
      var r :| r in rows && r.repo == ks[i];
      GroupContents(rows, ks[i]);
      assert r in Group(rows, ks[i]);
    }
  }

  // ---------------------------------------------------------------------
  // Ranked picks from disjoint strata.

  function ByRank(rank: TaskId -> int): (Row, Row) -> bool {
    (a: Row, b: Row) => rank(a.id) <= rank(b.id)
  }

  /** The first `quota` rows of a stratum in rank order. */
  function Pick(stratum: seq<Row>, quota: int, rank: TaskId -> int): seq<Row>
    requires 0 <= quota <= |stratum|
  {
    SortCorrect(ByRank(rank), stratum);
    Sort(ByRank(rank), stratum)[..quota]
  }

  predicate QuotasFit(strata: seq<seq<Row>>, quotas: seq<int>) {
    |quotas| == |strata| && forall i :: 0 <= i < |strata| ==> 0 <= quotas[i] <= |strata[i]|
  }

  function Picks(strata: seq<seq<Row>>, quotas: seq<int>, rank: TaskId -> int): seq<Row>
    requires QuotasFit(strata, quotas)
  {
    if |strata| == 0 then []
    else Pick(strata[0], quotas[0], rank) + Picks(strata[1..], quotas[1..], rank)
  }

  lemma PicksStep(strata: seq<seq<Row>>, quotas: seq<int>, rank: TaskId -> int)
    requires |strata| > 0 && QuotasFit(strata, quotas)
    ensures Picks(strata, quotas, rank) == Pick(strata[0], quotas[0], rank) + Picks(strata[1..], quotas[1..], rank)
  {
  }

  lemma FitAppend(s: seq<seq<Row>>, q: seq<int>, t: seq<seq<Row>>, p: seq<int>)
    requires QuotasFit(s, q) && QuotasFit(t, p)
    ensures QuotasFit(s + t, q + p)
    ensures |s| > 0 ==> QuotasFit(s[1..], q[1..])
  {
  }

  lemma {:induction false} PicksAppend(s: seq<seq<Row>>, q: seq<int>, t: seq<seq<Row>>, p: seq<int>,
                                       rank: TaskId -> int)
    requires QuotasFit(s, q) && QuotasFit(t, p)
    ensures QuotasFit(s + t, q + p) && Picks(s + t, q + p, rank) == Picks(s, q, rank) + Picks(t, p, rank)
  {
    FitAppend(s, q, t, p);
    if |s| == 0 {
      assert s + t == t && q + p == p;
    } else {
      hide Pick, Picks;
      assert (s + t)[0] == s[0] && (q + p)[0] == q[0];
      assert (s + t)[1..] == s[1..] + t && (q + p)[1..] == q[1..] + p;
      PicksAppend(s[1..], q[1..], t, p, rank);
      PicksStep(s, q, rank);
      PicksStep(s + t, q + p, rank);
    }
  }

  lemma PickContents(stratum: seq<Row>, quota: int, rank: TaskId -> int)
    requires 0 <= quota <= |stratum|
    ensures |Pick(stratum, quota, rank)| == quota
    ensures multiset(Pick(stratum, quota, rank)) <= multiset(stratum)
  {
    SortCorrect(ByRank(rank), stratum);
    var sorted := Sort(ByRank(rank), stratum);
    assert sorted == sorted[..quota] + sorted[quota..];
  }

  lemma {:induction false} PicksContents(strata: seq<seq<Row>>, quotas: seq<int>, rank: TaskId -> int)
    requires QuotasFit(strata, quotas)
    ensures |Picks(strata, quotas, rank)| == Sum(quotas)
    ensures multiset(Picks(strata, quotas, rank)) <= multiset(Flatten(strata))
  {
    if |strata| > 0 {
      PickContents(strata[0], quotas[0], rank);
      PicksContents(strata[1..], quotas[1..], rank);
    }
  }

  lemma SubRows(a: seq<Row>, b: seq<Row>)
    requires multiset(a) <= multiset(b) && DistinctIds(b)
    ensures DistinctIds(a) && forall r :: r in a ==> r in b
  {
    forall r | r in a
      ensures r in b && multiset(a)[r] == 1
    {
      assert r in multiset(a) && r in multiset(b);
      assert Distinct(b);
      DistinctMultiplicity(b);
    }
    MultiplicityDistinct(a);
    forall i, j | 0 <= i < j < |a|
      ensures a[i].id != a[j].id
    {
      assert a[i] in b && a[j] in b && a[i] != a[j];
    }
  }

  /** Exactly the requested number of distinct rows, all from the strata. */
  lemma PicksSound(strata: seq<seq<Row>>, quotas: seq<int>, rank: TaskId -> int)
    requires QuotasFit(strata, quotas) && DistinctIds(Flatten(strata))
    ensures var p := Picks(strata, quotas, rank);
            |p| == Sum(quotas) && DistinctIds(p) && |Ids(p)| == Sum(quotas)
            && forall r :: r in p ==> r in Flatten(strata)
  {
    PicksContents(strata, quotas, rank);
    SubRows(Picks(strata, quotas, rank), Flatten(strata));
    IdsSize(Picks(strata, quotas, rank));
  }

  /** A picked row ranks no worse than any row of its stratum that was left behind. */
  lemma PickIsBest(stratum: seq<Row>, quota: int, rank: TaskId -> int, a: Row, b: Row)
    requires 0 <= quota <= |stratum| && a in Pick(stratum, quota, rank)
    requires b in stratum && b !in Pick(stratum, quota, rank)
    ensures rank(a.id) <= rank(b.id)
  {
    var sorted := Sort(ByRank(rank), stratum);
    SortCorrect(ByRank(rank), stratum);
    assert TotalOrder(ByRank(rank));
    var i :| 0 <= i < quota && sorted[i] == a;
    assert b in multiset(sorted);
    var j :| 0 <= j < |sorted| && sorted[j] == b;
    assert forall m :: 0 <= m < quota ==> sorted[m] in sorted[..quota];
    assert j >= quota;
    assert ByRank(rank)(sorted[i], sorted[j]);
  }

  /** Rows of a group by ascending rank, none of the rows left behind ranking better. */
  ghost predicate RankedList(list: seq<Row>, group: seq<Row>, rank: TaskId -> int) {
    && multiset(list) <= multiset(group)
    && (forall i, j :: 0 <= i < j < |list| ==> rank(list[i].id) <= rank(list[j].id))
    && forall a, b :: a in list && b in group && b !in list ==> rank(a.id) <= rank(b.id)
  }

  lemma PickIsRanked(stratum: seq<Row>, quota: int, rank: TaskId -> int)
    requires 0 <= quota <= |stratum|
    ensures RankedList(Pick(stratum, quota, rank), stratum, rank) && |Pick(stratum, quota, rank)| == quota
  {
    var sorted, list := Sort(ByRank(rank), stratum), Pick(stratum, quota, rank);
    PickContents(stratum, quota, rank);
    SortCorrect(ByRank(rank), stratum);
    assert TotalOrder(ByRank(rank));
    forall i, j | 0 <= i < j < |list|
      ensures rank(list[i].id) <= rank(list[j].id)
    {
      assert ByRank(rank)(sorted[i], sorted[j]);
    }
    forall a, b | a in list && b in stratum && b !in list
      ensures rank(a.id) <= rank(b.id)
    {
      PickIsBest(stratum, quota, rank, a, b);
    }
  }

  /** Every stratum contributes exactly its best-ranked rows. */
  ghost predicate RankedPicks(strata: seq<seq<Row>>, quotas: seq<int>, rank: TaskId -> int, tier: seq<Row>)
    requires QuotasFit(strata, quotas)
  {
    forall k, r :: 0 <= k < |strata| && r in strata[k] ==> (r in tier <==> r in Pick(strata[k], quotas[k], rank))
  }

  lemma DistinctSplit(a: seq<Row>, b: seq<Row>, r: Row)
    requires DistinctIds(a + b) && r in a
    ensures r !in b
  {
    var i :| 0 <= i < |a| && a[i] == r;
    assert (a + b)[i] == r;
    assert forall j :: 0 <= j < |b| ==> b[j] == (a + b)[|a| + j];
  }

  lemma DistinctTail(a: seq<Row>, b: seq<Row>)
    requires DistinctIds(a + b)
    ensures DistinctIds(b)
  {
    forall i, j | 0 <= i < j < |b|
      ensures b[i].id != b[j].id
    {
      assert (a + b)[|a| + i] == b[i] && (a + b)[|a| + j] == b[j];
    }
  }

  lemma {:induction false} FlattenMember(strata: seq<seq<Row>>, k: nat, r: Row)
    requires k < |strata| && r in strata[k]
    ensures r in Flatten(strata)
  {
    if k > 0 {
      FlattenMember(strata[1..], k - 1, r);
    }
  }

  lemma PickWithin(stratum: seq<Row>, quota: int, rank: TaskId -> int, r: Row)
    requires 0 <= quota <= |stratum| && r in Pick(stratum, quota, rank)
    ensures r in stratum
  {
    PickContents(stratum, quota, rank);
    assert r in multiset(Pick(stratum, quota, rank)) && r in multiset(stratum);
  }

  lemma {:induction false} PicksByStratum(strata: seq<seq<Row>>, quotas: seq<int>, rank: TaskId -> int, k: nat, r: Row)
    requires QuotasFit(strata, quotas) && DistinctIds(Flatten(strata)) && k < |strata| && r in strata[k]
    ensures r in Picks(strata, quotas, rank) <==> r in Pick(strata[k], quotas[k], rank)
  {
    hide Pick;
    var rest := Flatten(strata[1..]);
    DistinctTail(strata[0], rest);
    var picks := Picks(strata[1..], quotas[1..], rank);
    PicksContents(strata[1..], quotas[1..], rank);
    assert (r in picks <==> r in multiset(picks)) && (r in rest <==> r in multiset(rest));
    if k == 0 {
      DistinctSplit(strata[0], rest, r);
    } else {
      PicksByStratum(strata[1..], quotas[1..], rank, k - 1, r);
      FlattenMember(strata[1..], k - 1, r);
      if r in Pick(strata[0], quotas[0], rank) {
        PickWithin(strata[0], quotas[0], rank, r);
        DistinctSplit(strata[0], rest, r);
        assert false;
      }
    }
  }

  lemma PicksAreRanked(strata: seq<seq<Row>>, quotas: seq<int>, rank: TaskId -> int, tier: seq<Row>)
    requires QuotasFit(strata, quotas) && DistinctIds(Flatten(strata))
    requires multiset(tier) == multiset(Picks(strata, quotas, rank))
    ensures RankedPicks(strata, quotas, rank, tier)
  {
    hide Picks, Pick;
    forall k, r | 0 <= k < |strata| && r in strata[k]
      ensures r in tier <==> r in Pick(strata[k], quotas[k], rank)
    {
      PicksByStratum(strata, quotas, rank, k, r);
      assert r in tier <==> r in multiset(tier);
      assert r in Picks(strata, quotas, rank) <==> r in multiset(Picks(strata, quotas, rank));
    }
  }

  /** Smaller quotas pick a subset. */
  lemma {:induction false} PicksNested(strata: seq<seq<Row>>, small: seq<int>, large: seq<int>, rank: TaskId -> int)
    requires QuotasFit(strata, small) && QuotasFit(strata, large)
    requires forall i :: 0 <= i < |small| ==> small[i] <= large[i]
    ensures forall r :: r in Picks(strata, small, rank) ==> r in Picks(strata, large, rank)
  {
    if |strata| > 0 {
      PicksNested(strata[1..], small[1..], large[1..], rank);
      SortCorrect(ByRank(rank), strata[0]);
      var sorted := Sort(ByRank(rank), strata[0]);
      assert sorted[..large[0]][..small[0]] == sorted[..small[0]];
    }
  }

  /** Picking from the groups gives each repository the best-ranked rows up to its quota. */
  lemma {:induction false} PicksPerRepo(rows: seq<Row>, ks: seq<Key>, quotas: seq<int>, rank: TaskId -> int)
    requires Distinct(ks) && QuotasFit(Groups(rows, ks), quotas)
    ensures var p := Picks(Groups(rows, ks), quotas, rank);
            && (forall r :: r in p ==> r.repo in ks)
            && forall i :: 0 <= i < |ks| ==>
                 Group(p, ks[i]) == Pick(Group(rows, ks[i]), quotas[i], rank) && |Group(p, ks[i])| == quotas[i]
  {
    if |ks| > 0 {
      var head := Pick(Group(rows, ks[0]), quotas[0], rank);
      assert Groups(rows, ks)[1..] == Groups(rows, ks[1..]);
      var tail := Picks(Groups(rows, ks[1..]), quotas[1..], rank);
      PicksPerRepo(rows, ks[1..], quotas[1..], rank);
      assert ks == [ks[0]] + ks[1..];
      PickOfGroup(rows, ks[0], quotas[0], rank);
      forall i | 0 <= i < |ks|
        ensures Group(head + tail, ks[i]) == Pick(Group(rows, ks[i]), quotas[i], rank)
        ensures |Group(head + tail, ks[i])| == quotas[i]
      {
        GroupAppend(head, tail, ks[i]);
        GroupOfOneRepo(head, ks[0], ks[i]);
        if i == 0 {
          NoneInGroup(tail, ks[0]);
          assert head + [] == head;
        } else {
          assert ks[i] == ks[1..][i - 1] && quotas[i] == quotas[1..][i - 1];
          assert [] + Group(tail, ks[i]) == Group(tail, ks[i]);
        }
      }
    }
  }

  lemma PickOfGroup(rows: seq<Row>, k: Key, quota: int, rank: TaskId -> int)
    requires 0 <= quota <= |Group(rows, k)|
    ensures var p := Pick(Group(rows, k), quota, rank);
            |p| == quota && forall r :: r in p ==> r.repo == k
  {
    var p := Pick(Group(rows, k), quota, rank);
    PickContents(Group(rows, k), quota, rank);
    GroupContents(rows, k);
    forall r | r in p
      ensures r.repo == k
    {
      assert r in multiset(p) && r in multiset(Group(rows, k));
    }
  }

  lemma {:induction false} NoneInGroup(rows: seq<Row>, k: Key)
    requires forall r :: r in rows ==> r.repo != k
    ensures Group(rows, k) == []
  {
    if |rows| > 0 {
      assert rows == [rows[0]] + rows[1..];
      NoneInGroup(rows[1..], k);
    }
  }

  // ---------------------------------------------------------------------
  // Restoring rows from a set of identifiers.

  function Chosen(rows: seq<Row>, ids: set<TaskId>): seq<Row> {
    if |rows| == 0 then []
    else (if rows[0].id in ids then [rows[0]] else []) + Chosen(rows[1..], ids)
  }

  lemma {:induction false} ChosenContents(rows: seq<Row>, ids: set<TaskId>)
    ensures forall x :: multiset(Chosen(rows, ids))[x] == if x.id in ids then multiset(rows)[x] else 0
  {
    if |rows| > 0 {
      ChosenContents(rows[1..], ids);
      assert rows == [rows[0]] + rows[1..];
    }
  }

  /** Identifiers collected from distinct picks lead back to exactly those rows. */
  lemma ChosenRestores(rows: seq<Row>, picks: seq<Row>)
    requires DistinctIds(rows) && DistinctIds(picks) && forall r :: r in picks ==> r in rows
    ensures multiset(Chosen(rows, Ids(picks))) == multiset(picks)
  {
    hide Chosen, Ids;
    ChosenContents(rows, Ids(picks));
    RowOnce(rows);
    RowOnce(picks);
    forall x
      ensures multiset(Chosen(rows, Ids(picks)))[x] == multiset(picks)[x]
    {
      IdNamesRow(rows, picks, x);
    }
  }

  lemma RowOnce(rows: seq<Row>)
    requires DistinctIds(rows)
    ensures forall x :: multiset(rows)[x] == if x in rows then 1 else 0
  {
    assert Distinct(rows);
    DistinctMultiplicity(rows);
    forall x
      ensures multiset(rows)[x] == if x in rows then 1 else 0
    {
      assert x in rows <==> x in multiset(rows);
    }
  }

  lemma IdNamesRow(rows: seq<Row>, picks: seq<Row>, x: Row)
    requires DistinctIds(rows) && forall r :: r in picks ==> r in rows
    ensures x in rows && x.id in Ids(picks) <==> x in picks
  {
    if x in rows && x.id in Ids(picks) {
      var p :| p in picks && p.id == x.id;
      assert p in rows;
    }
  }

  /** The rows without the given identifiers. */
  function Excluding(rows: seq<Row>, ids: set<TaskId>): seq<Row> {
    if |rows| == 0 then []
    else (if rows[0].id in ids then [] else [rows[0]]) + Excluding(rows[1..], ids)
  }

  lemma {:induction false} ExcludingContents(rows: seq<Row>, ids: set<TaskId>)
    ensures multiset(Excluding(rows, ids)) + multiset(Chosen(rows, ids)) == multiset(rows)
    ensures forall r :: r in Excluding(rows, ids) <==> r in rows && r.id !in ids
  {
    if |rows| > 0 {
      ExcludingContents(rows[1..], ids);
      assert rows == [rows[0]] + rows[1..];
    }
  }

  lemma ExcludingDistinct(rows: seq<Row>, ids: set<TaskId>)
    requires DistinctIds(rows)
    ensures DistinctIds(Excluding(rows, ids))
  {
    ExcludingContents(rows, ids);
    SubRows(Excluding(rows, ids), rows);
  }
}
