/** Round-robin evaluation orders whose every prefix stays balanced across repositories. */
module RoundRobin {
  import opened Prelude
  import opened Sorting
  import opened Apportionment
  import opened RepoAllocators
  import opened TaskSelection
  import opened NestedPools

  /** The rows at one offset, from the first n lists. */
  function Turn(lists: seq<seq<Row>>, offset: nat, n: nat): seq<Row>
    requires n <= |lists|
  {
    if n == 0 then []
    else Turn(lists, offset, n - 1) + if offset < |lists[n - 1]| then [lists[n - 1][offset]] else []
  }

  /** All rows at offsets below `offset`, turn by turn. */
  function Turns(lists: seq<seq<Row>>, offset: nat): seq<Row> {
    if offset == 0 then [] else Turns(lists, offset - 1) + Turn(lists, offset - 1, |lists|)
  }

  function LongestList(lists: seq<seq<Row>>): nat {
    if |lists| == 0 then 0
    else
      var rest := LongestList(lists[1..]);
      if |lists[0]| > rest then |lists[0]| else rest
  }

  lemma {:induction false} LongestListBounds(lists: seq<seq<Row>>)
    ensures forall i :: 0 <= i < |lists| ==> |lists[i]| <= LongestList(lists)
  {
    if |lists| > 0 {
      LongestListBounds(lists[1..]);
      assert forall i :: 1 <= i < |lists| ==> lists[i] == lists[1..][i - 1];
    }
  }

  method RoundRobinOrder(lists: seq<seq<Row>>) returns (ordered: seq<Row>)
    ensures ordered == Turns(lists, LongestList(lists))
    ensures InTurns(lists, ordered)
  {
    ordered := [];
    for offset := 0 to LongestList(lists)
      invariant ordered == Turns(lists, offset)
    {
      for i := 0 to |lists|
        invariant ordered == Turns(lists, offset) + Turn(lists, offset, i)
      {
        if offset < |lists[i]| {
          ordered := ordered + [lists[i][offset]];
        }
      }
    }
    hide InTurns, Turns;
    RoundRobinExactly(lists);
  }

  /** A row's place: its turn, and its list within the turn. */
  datatype Place = Place(turn: nat, list: nat) {
    predicate Before(other: Place) {
      turn < other.turn || (turn == other.turn && list < other.list)
    }
  }

  /** Each row is where its place says, and the places ascend. */
  ghost predicate Ascends(lists: seq<seq<Row>>, ordered: seq<Row>, at: seq<Place>) {
    && |at| == |ordered|
    && (forall k :: 0 <= k < |at| ==>
          at[k].list < |lists| && at[k].turn < |lists[at[k].list]| && ordered[k] == lists[at[k].list][at[k].turn])
    && (forall k, m :: 0 <= k < m < |at| ==> at[k].Before(at[m]))
  }

  ghost predicate Has(at: seq<Place>, turn: nat, list: nat) {
    exists k :: 0 <= k < |at| && at[k] == Place(turn, list)
  }

  /** The rows of the lists turn by turn, every row once: first rows first, each turn in the order of the lists. */
  ghost predicate InTurns(lists: seq<seq<Row>>, ordered: seq<Row>) {
    exists at ::
      && Ascends(lists, ordered, at)
      && forall turn: nat, i: nat :: i < |lists| && turn < |lists[i]| ==> Has(at, turn, i)
  }

  lemma HasMore(at: seq<Place>, more: seq<Place>, turn: nat, list: nat)
    ensures Has(at, turn, list) || Has(more, turn, list) ==> Has(at + more, turn, list)
  {
    if k :| 0 <= k < |at| && at[k] == Place(turn, list) {
      assert (at + more)[k] == Place(turn, list);
    }
    if k :| 0 <= k < |more| && more[k] == Place(turn, list) {
      assert (at + more)[|at| + k] == Place(turn, list);
    }
  }

  lemma AscendsMore(lists: seq<seq<Row>>, ordered: seq<Row>, at: seq<Place>, rows: seq<Row>, more: seq<Place>)
    requires Ascends(lists, ordered, at) && Ascends(lists, rows, more)
    requires forall k, m :: 0 <= k < |at| && 0 <= m < |more| ==> at[k].Before(more[m])
    ensures Ascends(lists, ordered + rows, at + more)
  {
    var all := at + more;
    forall k | 0 <= k < |all|
      ensures all[k] == if k < |at| then at[k] else more[k - |at|]
    {
    }
  }

  /** The places `at` are those of the rows of one turn from the first n lists. */
  ghost predicate TurnAt(lists: seq<seq<Row>>, offset: nat, n: nat, rows: seq<Row>, at: seq<Place>)
    requires n <= |lists|
  {
    && Ascends(lists, rows, at)
    && (forall k :: 0 <= k < |at| ==> at[k].turn == offset && at[k].list < n)
    && forall i: nat :: i < n && offset < |lists[i]| ==> Has(at, offset, i)
  }

  lemma TurnAtNext(lists: seq<seq<Row>>, offset: nat, n: nat, rows: seq<Row>, at: seq<Place>)
    requires n < |lists| && offset < |lists[n]| && TurnAt(lists, offset, n, rows, at)
    ensures TurnAt(lists, offset, n + 1, rows + [lists[n][offset]], at + [Place(offset, n)])
  {
    hide Ascends, Has;
    var last := [Place(offset, n)];
    OnePlace(lists, offset, n);
    AscendsMore(lists, rows, at, [lists[n][offset]], last);
    forall i: nat | i < n + 1 && offset < |lists[i]|
      ensures Has(at + last, offset, i)
    {
      HasMore(at, last, offset, i);
    }
  }

  lemma TurnAtSkips(lists: seq<seq<Row>>, offset: nat, n: nat, rows: seq<Row>, at: seq<Place>)
    requires n < |lists| && offset >= |lists[n]| && TurnAt(lists, offset, n, rows, at)
    ensures TurnAt(lists, offset, n + 1, rows, at)
  {
    hide Ascends, Has;
  }

  lemma {:induction false} TurnPlaces(lists: seq<seq<Row>>, offset: nat, n: nat) returns (at: seq<Place>)
    requires n <= |lists|
    ensures TurnAt(lists, offset, n, Turn(lists, offset, n), at)
  {
    if n == 0 {
      at := [];
    } else {
      hide TurnAt;
      at := TurnPlaces(lists, offset, n - 1);
      var rows := Turn(lists, offset, n - 1);
      if offset < |lists[n - 1]| {
        TurnAtNext(lists, offset, n - 1, rows, at);
        at := at + [Place(offset, n - 1)];
      } else {
        TurnAtSkips(lists, offset, n - 1, rows, at);
        assert rows + [] == rows;
      }
    }
  }

  lemma OnePlace(lists: seq<seq<Row>>, offset: nat, i: nat)
    requires i < |lists| && offset < |lists[i]|
    ensures Ascends(lists, [lists[i][offset]], [Place(offset, i)]) && Has([Place(offset, i)], offset, i)
  {
    assert [Place(offset, i)][0] == Place(offset, i);
  }

  lemma {:induction false} TurnsPlaces(lists: seq<seq<Row>>, turns: nat) returns (at: seq<Place>)
    ensures Ascends(lists, Turns(lists, turns), at)
    ensures forall k :: 0 <= k < |at| ==> at[k].turn < turns
    ensures forall turn: nat, i: nat :: turn < turns && i < |lists| && turn < |lists[i]| ==> Has(at, turn, i)
  {
    if turns == 0 {
      at := [];
    } else {
      hide Ascends, Has, Turn;
      var before := TurnsPlaces(lists, turns - 1);
      var last := TurnPlaces(lists, turns - 1, |lists|);
      at := before + last;
      AscendsMore(lists, Turns(lists, turns - 1), before, Turn(lists, turns - 1, |lists|), last);
      forall turn: nat, i: nat | turn < turns && i < |lists| && turn < |lists[i]|
        ensures Has(at, turn, i)
      {
        HasMore(before, last, turn, i);
      }
    }
  }

  /** The nested loop takes the rows turn by turn. */
  lemma RoundRobinExactly(lists: seq<seq<Row>>)
    ensures InTurns(lists, Turns(lists, LongestList(lists)))
  {
    hide Ascends, Has, Turns, LongestList;
    LongestListBounds(lists);
    var at := TurnsPlaces(lists, LongestList(lists));
  }

  /** List i holds rows of repository ks[i] only. */
  predicate ByRepo(lists: seq<seq<Row>>, ks: seq<Key>) {
    && |lists| == |ks| && Distinct(ks)
    && forall i, r :: 0 <= i < |ks| && r in lists[i] ==> r.repo == ks[i]
  }

  function Take(list: seq<Row>, count: nat): seq<Row> {
    if count <= |list| then list[..count] else list
  }

  lemma {:induction false} TurnGroup(lists: seq<seq<Row>>, ks: seq<Key>, offset: nat, n: nat, i: nat)
    requires ByRepo(lists, ks) && n <= |lists| && i < |lists|
    ensures Group(Turn(lists, offset, n), ks[i]) == if i < n && offset < |lists[i]| then [lists[i][offset]] else []
  {
    hide Group;
    if n == 0 {
      GroupOfNone(ks[i]);
    } else {
      TurnGroup(lists, ks, offset, n - 1, i);
      var last := if offset < |lists[n - 1]| then [lists[n - 1][offset]] else [];
      GroupAppend(Turn(lists, offset, n - 1), last, ks[i]);
      assert forall r :: r in last ==> r in lists[n - 1];
      GroupOfOneRepo(last, ks[n - 1], ks[i]);
    }
  }

  lemma TakeNext(list: seq<Row>, offset: nat)
    ensures Take(list, offset) + (if offset < |list| then [list[offset]] else []) == Take(list, offset + 1)
  {
  }

  lemma TakeNone(list: seq<Row>)
    ensures Take(list, 0) == []
  {
  }

  /** Restricted to one repository, the order is that repository's own list, in its own order. */
  lemma {:induction false} TurnsGroup(lists: seq<seq<Row>>, ks: seq<Key>, offset: nat, i: nat)
    requires ByRepo(lists, ks) && i < |lists|
    ensures Group(Turns(lists, offset), ks[i]) == Take(lists[i], offset)
  {
    hide Group, Turn, Take;
    if offset == 0 {
      GroupOfNone(ks[i]);
      TakeNone(lists[i]);
    } else {
      var before, turn := Turns(lists, offset - 1), Turn(lists, offset - 1, |lists|);
      TurnsGroup(lists, ks, offset - 1, i);
      TurnGroup(lists, ks, offset - 1, |lists|, i);
      GroupAppend(before, turn, ks[i]);
      TakeNext(lists[i], offset - 1);
      assert Turns(lists, offset) == before + turn;
    }
  }

  lemma PartialTurnGroup(lists: seq<seq<Row>>, ks: seq<Key>, offset: nat, n: nat, i: nat)
    requires ByRepo(lists, ks) && i < |lists| && n <= |lists|
    ensures Group(Turns(lists, offset) + Turn(lists, offset, n), ks[i])
         == Take(lists[i], if i < n then offset + 1 else offset)
  {
    var whole, part := Turns(lists, offset), Turn(lists, offset, n);
    TurnsGroup(lists, ks, offset, i);
    TurnGroup(lists, ks, offset, n, i);
    GroupAppend(whole, part, ks[i]);
    TakeNext(lists[i], offset);
    assert Take(lists[i], offset) + [] == Take(lists[i], offset);
  }

  /** Every prefix of a turn is a shorter turn. */
  lemma {:induction false} TurnPrefix(lists: seq<seq<Row>>, offset: nat, n: nat, k: nat) returns (m: nat)
    requires n <= |lists| && k <= |Turn(lists, offset, n)|
    ensures m <= n && Turn(lists, offset, n)[..k] == Turn(lists, offset, m)
  {
    if k == |Turn(lists, offset, n)| {
      m := n;
    } else {
      m := TurnPrefix(lists, offset, n - 1, k);
    }
  }

  /** Every prefix of the order consists of whole turns followed by a part of one. */
  lemma {:induction false} TurnsPrefix(lists: seq<seq<Row>>, offset: nat, k: nat) returns (o: nat, m: nat)
    requires k <= |Turns(lists, offset)|
    ensures m <= |lists| && Turns(lists, offset)[..k] == Turns(lists, o) + Turn(lists, o, m)
  {
    if offset == 0 {
      o, m := 0, 0;
    } else if k <= |Turns(lists, offset - 1)| {
      o, m := TurnsPrefix(lists, offset - 1, k);
    } else {
      o := offset - 1;
      m := TurnPrefix(lists, o, |lists|, k - |Turns(lists, o)|);
    }
  }

  /** In every prefix a repository falls behind another by more than one row only when its list is used up. */
  lemma PrefixBalanced(lists: seq<seq<Row>>, ks: seq<Key>, k: nat, a: nat, b: nat)
    requires ByRepo(lists, ks) && k <= |Turns(lists, LongestList(lists))| && a < |ks| && b < |ks|
    ensures var prefix := Turns(lists, LongestList(lists))[..k];
            || |Group(prefix, ks[b])| <= |Group(prefix, ks[a])| + 1
            || Group(prefix, ks[a]) == lists[a]
  {
    var o, m := TurnsPrefix(lists, LongestList(lists), k);
    PartialTurnGroup(lists, ks, o, m, a);
    PartialTurnGroup(lists, ks, o, m, b);
  }

  lemma {:induction false} TurnRepos(lists: seq<seq<Row>>, ks: seq<Key>, offset: nat, n: nat)
    requires ByRepo(lists, ks) && n <= |lists|
    ensures forall r :: r in Turn(lists, offset, n) ==> r.repo in ks
  {
    if n > 0 {
      TurnRepos(lists, ks, offset, n - 1);
      if offset < |lists[n - 1]| {
        assert lists[n - 1][offset] in lists[n - 1];
        assert ks[n - 1] in ks;
      }
    }
  }

  lemma {:induction false} TurnsRepos(lists: seq<seq<Row>>, ks: seq<Key>, offset: nat)
    requires ByRepo(lists, ks)
    ensures forall r :: r in Turns(lists, offset) ==> r.repo in ks
  {
    if offset > 0 {
      TurnsRepos(lists, ks, offset - 1);
      TurnRepos(lists, ks, offset - 1, |lists|);
    }
  }

  /** The order is a rearrangement of the lists, and restricted to one repository it is that repository's list. */
  lemma OrderContents(lists: seq<seq<Row>>, ks: seq<Key>)
    requires ByRepo(lists, ks)
    ensures var ordered := Turns(lists, LongestList(lists));
            && multiset(ordered) == multiset(Flatten(lists))
            && |ordered| == Sum(Sizes(lists))
            && (forall i :: 0 <= i < |ks| ==> Group(ordered, ks[i]) == lists[i])
  {
    var longest := LongestList(lists);
    var ordered := Turns(lists, longest);
    LongestListBounds(lists);
    forall i | 0 <= i < |ks|
      ensures Group(ordered, ks[i]) == lists[i]
    {
      TurnsGroup(lists, ks, longest, i);
    }
    TurnsRepos(lists, ks, longest);
    GroupsContents(ordered, ks);
    assert Groups(ordered, ks) == lists;
    assert multiset(ordered) == multiset(Flatten(lists));
    assert |multiset(ordered)| == |multiset(Flatten(lists))|;
    FlattenSize(lists);
  }

  // ---------------------------------------------------------------------
  // The SWE-smith evaluation splits.

  datatype EvalError = BadSizes | BadRepositories | InvalidSource | TooFewRepositories | AllocationError

  datatype EvalSplits = EvalSplits(smoke: seq<Row>, fast: seq<Row>, full: seq<Row>)

  predicate ValidSmithRows(rows: seq<Row>) {
    DistinctIds(rows) && forall r :: r in rows ==> r.hasStatement && r.hasImage && r.hasTests
  }

  /** Repositories with at least `need` rows. */
  function Eligible(pool: seq<Row>, ks: seq<Key>, need: nat): seq<Key> {
    if |ks| == 0 then []
    else (if |Group(pool, ks[0])| >= need then [ks[0]] else []) + Eligible(pool, ks[1..], need)
  }

  lemma {:induction false} EligibleContents(pool: seq<Row>, ks: seq<Key>, need: nat)
    requires Ascending(ks)
    ensures Distinct(Eligible(pool, ks, need))
    ensures forall k :: k in Eligible(pool, ks, need) ==> k in ks && |Group(pool, k)| >= need
    ensures forall k :: k in ks && |Group(pool, k)| >= need ==> k in Eligible(pool, ks, need)
  {
    if |ks| > 0 {
      var tail := ks[1..];
      var rest := Eligible(pool, tail, need);
      EligibleContents(pool, tail, need);
      assert ks == [ks[0]] + tail;
      forall j | 0 <= j < |rest|
        ensures rest[j] != ks[0]
      {
        var k := rest[j];
        assert k in rest;
        assert k in tail;
      }
    }
  }

  function ByKeyRank(rank: Key -> int): (Key, Key) -> bool {
    (a: Key, b: Key) => rank(a) <= rank(b)
  }

  /** The first repositories by rank among the eligible ones. */
  function ChosenRepos(pool: seq<Row>, repositories: nat, need: nat, rank: Key -> int): (chosen: seq<Key>)
    requires |Eligible(pool, Repos(pool), need)| >= repositories
    ensures |chosen| == repositories
  {
    var eligible := Eligible(pool, Repos(pool), need);
    SortCorrect(ByKeyRank(rank), eligible);
    Sort(ByKeyRank(rank), eligible)[..repositories]
  }

  lemma ChosenReposContents(pool: seq<Row>, repositories: nat, need: nat, rank: Key -> int)
    requires |Eligible(pool, Repos(pool), need)| >= repositories
    ensures var chosen := ChosenRepos(pool, repositories, need, rank);
            Distinct(chosen) && forall i :: 0 <= i < |chosen| ==> |Group(pool, chosen[i])| >= need
  {
    var eligible := Eligible(pool, Repos(pool), need);
    var chosen := ChosenRepos(pool, repositories, need, rank);
    ReposCorrect(pool);
    EligibleContents(pool, Repos(pool), need);
    SortDistinct(ByKeyRank(rank), eligible);
    var sorted := Sort(ByKeyRank(rank), eligible);
    SortCorrect(ByKeyRank(rank), eligible);
    assert chosen == sorted[..repositories];
    forall i | 0 <= i < |chosen|
      ensures |Group(pool, chosen[i])| >= need
    {
      assert sorted[i] in sorted && sorted[i] in eligible;
    }
  }

  /** The chosen repositories in rank order, each with enough rows, and none passed over that ranks better. */
  lemma ChosenAreBest(pool: seq<Row>, repositories: nat, need: nat, rank: Key -> int)
    requires |Eligible(pool, Repos(pool), need)| >= repositories
    ensures var chosen := ChosenRepos(pool, repositories, need, rank);
            && |chosen| == repositories && Distinct(chosen)
            && (forall i, j :: 0 <= i < j < |chosen| ==> rank(chosen[i]) <= rank(chosen[j]))
            && (forall k :: k in chosen ==> |Group(pool, k)| >= need && k in Repos(pool))
            && forall k, c :: k in Repos(pool) && |Group(pool, k)| >= need && k !in chosen && c in chosen
                 ==> rank(c) <= rank(k)
  {
    var eligible := Eligible(pool, Repos(pool), need);
    var ordered, chosen := Sort(ByKeyRank(rank), eligible), ChosenRepos(pool, repositories, need, rank);
    ReposCorrect(pool);
    EligibleContents(pool, Repos(pool), need);
    SortCorrect(ByKeyRank(rank), eligible);
    SortDistinct(ByKeyRank(rank), eligible);
    assert TotalOrder(ByKeyRank(rank));
    forall i, j | 0 <= i < j < |ordered|
      ensures rank(ordered[i]) <= rank(ordered[j])
    {
      assert ByKeyRank(rank)(ordered[i], ordered[j]);
    }
    forall k, c | k in Repos(pool) && |Group(pool, k)| >= need && k !in chosen && c in chosen
      ensures rank(c) <= rank(k)
    {
      assert k in ordered;
      var i :| 0 <= i < |ordered| && ordered[i] == k;
      var j :| 0 <= j < |chosen| && chosen[j] == c;
      assert i >= |chosen| && ordered[j] == c;
    }
  }

  /** How many rows the index-th chosen repository contributes: its slice may come back short of what it owes. */
  function AllotmentSizes(pool: seq<Row>, chosen: seq<Key>, perRepo: nat, remainder: nat): (q: seq<int>)
    ensures |q| == |chosen|
  {
    seq(|chosen|, i requires 0 <= i < |chosen| =>
      Min(|Group(pool, chosen[i])|, if i < remainder then perRepo + 1 else perRepo))
  }

  /** Each of the first `remainder` repositories owes one row more than the eligibility test asked for. */
  predicate AllotmentsFilled(pool: seq<Row>, chosen: seq<Key>, perRepo: nat, remainder: nat) {
    forall i :: 0 <= i < |chosen| && i < remainder ==> |Group(pool, chosen[i])| > perRepo
  }

  lemma {:induction false} AllotmentTotal(sizes: seq<int>, perRepo: nat, remainder: nat)
    requires forall i :: 0 <= i < |sizes| ==> perRepo <= sizes[i] <= perRepo + if i < remainder then 1 else 0
    requires remainder <= |sizes|
    ensures Sum(sizes) <= |sizes| * perRepo + remainder
    ensures Sum(sizes) == |sizes| * perRepo + remainder <==>
              forall i :: 0 <= i < |sizes| && i < remainder ==> sizes[i] == perRepo + 1
  {
    if |sizes| > 0 {
      var rest := if remainder == 0 then 0 else remainder - 1;
      AllotmentTotal(sizes[1..], perRepo, rest);
      assert |sizes| * perRepo == perRepo + (|sizes| - 1) * perRepo;
      assert sizes == [sizes[0]] + sizes[1..];
      assert forall i :: 1 <= i < |sizes| ==> sizes[i] == sizes[1..][i - 1];
    }
  }

  /** selected_by_repo, as one sequence: the picks of the chosen repositories. */
  function Selected(pool: seq<Row>, chosen: seq<Key>, perRepo: nat, remainder: nat, rank: TaskId -> int): seq<Row>
    requires QuotasFit(Groups(pool, chosen), AllotmentSizes(pool, chosen, perRepo, remainder))
  {
    Picks(Groups(pool, chosen), AllotmentSizes(pool, chosen, perRepo, remainder), rank)
  }

  /** No two chosen repositories are more than one row apart in any prefix. */
  predicate BalancedPrefixes(ordered: seq<Row>, ks: seq<Key>) {
    forall k, a, b :: 0 <= k <= |ordered| && 0 <= a < |ks| && 0 <= b < |ks| ==>
      |Group(ordered[..k], ks[b])| <= |Group(ordered[..k], ks[a])| + 1
  }

  lemma {:induction false} GroupPrefix(rows: seq<Row>, k: nat, repo: Key)
    requires k <= |rows|
    ensures |Group(rows[..k], repo)| <= |Group(rows, repo)|
  {
    assert rows == rows[..k] + rows[k..];
    GroupAppend(rows[..k], rows[k..], repo);
  }

  /** When the lists differ by at most one row, so do the repositories in every prefix. */
  lemma EvenListsBalanced(lists: seq<seq<Row>>, ks: seq<Key>)
    requires ByRepo(lists, ks)
    requires forall a, b :: 0 <= a < |lists| && 0 <= b < |lists| ==> |lists[b]| <= |lists[a]| + 1
    ensures BalancedPrefixes(Turns(lists, LongestList(lists)), ks)
  {
    var ordered := Turns(lists, LongestList(lists));
    OrderContents(lists, ks);
    forall k, a, b | 0 <= k <= |ordered| && 0 <= a < |ks| && 0 <= b < |ks|
      ensures |Group(ordered[..k], ks[b])| <= |Group(ordered[..k], ks[a])| + 1
    {
      PrefixBalanced(lists, ks, k, a, b);
      GroupPrefix(ordered, k, ks[b]);
    }
  }

  /** The round-robin order of picked rows rearranges the picks and keeps every repository's quota. */
  lemma OrderOfPicks(pool: seq<Row>, ks: seq<Key>, quotas: seq<int>, selected: seq<Row>, repoOrder: seq<Key>,
                     rank: TaskId -> int)
    requires Distinct(ks) && Distinct(repoOrder) && forall k :: k in repoOrder <==> k in ks
    requires QuotasFit(Groups(pool, ks), quotas) && selected == Picks(Groups(pool, ks), quotas, rank)
    ensures var lists := Groups(selected, repoOrder);
            var ordered := Turns(lists, LongestList(lists));
            && ByRepo(lists, repoOrder)
            && multiset(ordered) == multiset(selected)
            && |ordered| == Sum(quotas)
            && forall i :: 0 <= i < |ks| ==> |Group(selected, ks[i])| == |Group(ordered, ks[i])| == quotas[i]
  {
    var lists := Groups(selected, repoOrder);
    var ordered := Turns(lists, LongestList(lists));
    PicksContents(Groups(pool, ks), quotas, rank);
    PicksPerRepo(pool, ks, quotas, rank);
    ListsByRepo(selected, repoOrder);
    OrderContents(lists, repoOrder);
    GroupsContents(selected, repoOrder);
    assert multiset(Flatten(lists)) == multiset(selected);
    assert |multiset(ordered)| == |multiset(selected)|;
    forall i | 0 <= i < |ks|
      ensures |Group(ordered, ks[i])| == quotas[i]
    {
      GroupSizeInvariant(ordered, selected, ks[i]);
    }
  }

  lemma PicksFromPool(pool: seq<Row>, ks: seq<Key>, quotas: seq<int>, rank: TaskId -> int, ordered: seq<Row>)
    requires DistinctIds(pool) && Distinct(ks) && QuotasFit(Groups(pool, ks), quotas)
    requires multiset(ordered) == multiset(Picks(Groups(pool, ks), quotas, rank))
    ensures DistinctIds(ordered) && forall r :: r in ordered ==> r in pool
  {
    PicksContents(Groups(pool, ks), quotas, rank);
    GroupsContents(pool, ks);
    assert multiset(Flatten(Groups(pool, ks))) <= multiset(pool);
    SubRows(ordered, pool);
  }

  lemma AllotmentsFit(pool: seq<Row>, chosen: seq<Key>, perRepo: nat, remainder: nat)
    requires forall i :: 0 <= i < |chosen| ==> |Group(pool, chosen[i])| >= perRepo
    ensures QuotasFit(Groups(pool, chosen), AllotmentSizes(pool, chosen, perRepo, remainder))
    ensures var q := AllotmentSizes(pool, chosen, perRepo, remainder);
            forall i :: 0 <= i < |q| ==> perRepo <= q[i] <= perRepo + if i < remainder then 1 else 0
  {
  }

  /**
   * Repositories in the order of their rank, each with its best-ranked rows as
   * many as it contributes, and all of these turn by turn.
   */
  ghost predicate RoundRobinBy(pool: seq<Row>, ks: seq<Key>, rank: TaskId -> int, orderRank: Key -> int,
                               repoOrder: seq<Key>, lists: seq<seq<Row>>, full: seq<Row>)
  {
    && Distinct(repoOrder) && (forall k :: k in repoOrder <==> k in ks)
    && (forall i, j :: 0 <= i < j < |repoOrder| ==> orderRank(repoOrder[i]) <= orderRank(repoOrder[j]))
    && |lists| == |repoOrder|
    && (forall i :: 0 <= i < |lists| ==> RankedList(lists[i], Group(pool, repoOrder[i]), rank))
    && InTurns(lists, full)
  }

  ghost predicate RoundRobinOf(pool: seq<Row>, ks: seq<Key>, rank: TaskId -> int, orderRank: Key -> int,
                               full: seq<Row>)
  {
    exists repoOrder, lists :: RoundRobinBy(pool, ks, rank, orderRank, repoOrder, lists, full)
  }

  lemma PicksInTurns(pool: seq<Row>, ks: seq<Key>, quotas: seq<int>, selected: seq<Row>, rank: TaskId -> int,
                     orderRank: Key -> int, full: seq<Row>)
    requires Distinct(ks) && QuotasFit(Groups(pool, ks), quotas) && selected == Picks(Groups(pool, ks), quotas, rank)
    requires InTurns(Groups(selected, Sort(ByKeyRank(orderRank), ks)), full)
    ensures RoundRobinOf(pool, ks, rank, orderRank, full)
  {
    hide InTurns, RankedList;
    var repoOrder := Sort(ByKeyRank(orderRank), ks);
    SortDistinct(ByKeyRank(orderRank), ks);
    SortCorrect(ByKeyRank(orderRank), ks);
    assert TotalOrder(ByKeyRank(orderRank));
    forall i, j | 0 <= i < j < |repoOrder|
      ensures orderRank(repoOrder[i]) <= orderRank(repoOrder[j])
    {
      assert ByKeyRank(orderRank)(repoOrder[i], repoOrder[j]);
    }
    PicksPerRepo(pool, ks, quotas, rank);
    var lists := Groups(selected, repoOrder);
    forall i | 0 <= i < |lists|
      ensures RankedList(lists[i], Group(pool, repoOrder[i]), rank)
    {
      assert repoOrder[i] in repoOrder && repoOrder[i] in ks;
      var k :| 0 <= k < |ks| && ks[k] == repoOrder[i];
      PickIsRanked(Group(pool, ks[k]), quotas[k], rank);
    }
    assert RoundRobinBy(pool, ks, rank, orderRank, repoOrder, lists, full);
  }

  /** The rows selected from the chosen repositories, ordered round-robin over any arrangement of those. */
  method OrderSelected(pool: seq<Row>, chosen: seq<Key>, perRepo: nat, remainder: nat, rank: TaskId -> int,
                       orderRank: Key -> int)
    returns (ordered: seq<Row>)
    requires DistinctIds(pool) && Distinct(chosen)
    requires forall i :: 0 <= i < |chosen| ==> |Group(pool, chosen[i])| >= perRepo
    ensures QuotasFit(Groups(pool, chosen), AllotmentSizes(pool, chosen, perRepo, remainder))
    ensures multiset(ordered) == multiset(Selected(pool, chosen, perRepo, remainder, rank))
    ensures |ordered| == Sum(AllotmentSizes(pool, chosen, perRepo, remainder))
    ensures BalancedPrefixes(ordered, chosen)
    ensures DistinctIds(ordered) && forall r :: r in ordered ==> r in pool
    ensures RoundRobinOf(pool, chosen, rank, orderRank, ordered)
  {
    hide InTurns, RoundRobinOf;
    var quotas := AllotmentSizes(pool, chosen, perRepo, remainder);
    AllotmentsFit(pool, chosen, perRepo, remainder);
    var selected := TakeFromGroups(Groups(pool, chosen), quotas, rank);
    var repoOrder := Sort(ByKeyRank(orderRank), chosen);
    SortDistinct(ByKeyRank(orderRank), chosen);
    ordered := RoundRobinOrder(Groups(selected, repoOrder));
    OrderOfPicks(pool, chosen, quotas, selected, repoOrder, rank);
    PicksFromPool(pool, chosen, quotas, rank, ordered);
    EvenGroupsBalanced(selected, chosen, repoOrder, quotas, perRepo);
    PicksInTurns(pool, chosen, quotas, selected, rank, orderRank, ordered);
  }

  lemma EvenGroupsBalanced(selected: seq<Row>, chosen: seq<Key>, repoOrder: seq<Key>, quotas: seq<int>, perRepo: nat)
    requires |quotas| == |chosen| && Distinct(repoOrder) && forall k :: k in repoOrder <==> k in chosen
    requires forall j :: 0 <= j < |chosen| ==> |Group(selected, chosen[j])| == quotas[j]
    requires forall j :: 0 <= j < |quotas| ==> perRepo <= quotas[j] <= perRepo + 1
    ensures var lists := Groups(selected, repoOrder);
            BalancedPrefixes(Turns(lists, LongestList(lists)), chosen)
  {
    var lists := Groups(selected, repoOrder);
    ListsByRepo(selected, repoOrder);
    forall a, b | 0 <= a < |lists| && 0 <= b < |lists|
      ensures |lists[b]| <= |lists[a]| + 1
    {
      ListSize(selected, chosen, repoOrder, quotas, perRepo, a);
      ListSize(selected, chosen, repoOrder, quotas, perRepo, b);
    }
    EvenListsBalanced(lists, repoOrder);
    BalancedReordered(Turns(lists, LongestList(lists)), repoOrder, chosen);
  }

  lemma ListsByRepo(selected: seq<Row>, ks: seq<Key>)
    requires Distinct(ks)
    ensures ByRepo(Groups(selected, ks), ks)
  {
    forall i | 0 <= i < |ks|
      ensures forall r :: r in Group(selected, ks[i]) ==> r.repo == ks[i]
    {
      GroupContents(selected, ks[i]);
    }
  }

  lemma ListSize(selected: seq<Row>, chosen: seq<Key>, repoOrder: seq<Key>, quotas: seq<int>, perRepo: nat, i: nat)
    requires i < |repoOrder| && |quotas| == |chosen|
    requires forall k :: k in repoOrder <==> k in chosen
    requires forall j :: 0 <= j < |chosen| ==> |Group(selected, chosen[j])| == quotas[j]
    requires forall j :: 0 <= j < |quotas| ==> perRepo <= quotas[j] <= perRepo + 1
    ensures perRepo <= |Group(selected, repoOrder[i])| <= perRepo + 1
  {
    var k := repoOrder[i];
    assert k in repoOrder && k in chosen;
  }

  lemma BalancedReordered(ordered: seq<Row>, ks: seq<Key>, other: seq<Key>)
    requires BalancedPrefixes(ordered, ks) && forall k :: k in ks <==> k in other
    ensures BalancedPrefixes(ordered, other)
  {
    forall k, a, b | 0 <= k <= |ordered| && 0 <= a < |other| && 0 <= b < |other|
      ensures |Group(ordered[..k], other[b])| <= |Group(ordered[..k], other[a])| + 1
    {
      var x, y := other[a], other[b];
      assert x in other && y in other && x in ks && y in ks;
    }
  }

  /** Three rows from two repositories of one row each: both are eligible, and the first owes a row it does not have. */
  lemma AllocationErrorIsReachable(repoRank: Key -> int)
    ensures exists pool: seq<Row> ::
              && ValidSmithRows(pool) && |Eligible(pool, Repos(pool), 3 / 2)| >= 2
              && !AllotmentsFilled(pool, ChosenRepos(pool, 2, 3 / 2, repoRank), 3 / 2, 3 % 2)
  {
    var a, b := Row(1, 1, true, true, true, None), Row(2, 2, true, true, true, None);
    var pool := [a, b];
    TwoRepositories(a, b);
    assert Eligible(pool, [2], 1) == [2] + Eligible(pool, [], 1);
    assert Eligible(pool, [1, 2], 1) == [1] + Eligible(pool, [2], 1);
    var chosen := ChosenRepos(pool, 2, 1, repoRank);
    assert |Group(pool, chosen[0])| <= 1;
  }

  lemma TwoRepositories(a: Row, b: Row)
    requires a.repo == 1 && b.repo == 2
    ensures Repos([a, b]) == [1, 2]
    ensures forall k :: |Group([a, b], k)| == if k == 1 || k == 2 then 1 else 0
  {
    assert [a, b][1..] == [b] && [b][1..] == [];
    assert Repos([b]) == [2];
    forall k
      ensures |Group([a, b], k)| == if k == 1 || k == 2 then 1 else 0
    {
      GroupStep([a, b], k);
      GroupStep([b], k);
    }
  }

  lemma DivisionParts(full: int, parts: int)
    requires 0 < parts <= full
    ensures parts * (full / parts) + full % parts == full && full / parts >= 1 && 0 <= full % parts < parts
  {
  }

  /** The allotments add up to the full size exactly when none of them comes back short. */
  lemma AllotmentsReachFullSize(pool: seq<Row>, chosen: seq<Key>, full: int, repositories: int)
    requires 0 < repositories <= full && |chosen| == repositories
    requires forall i :: 0 <= i < |chosen| ==> |Group(pool, chosen[i])| >= full / repositories
    ensures Sum(AllotmentSizes(pool, chosen, full / repositories, full % repositories)) == full
            <==> AllotmentsFilled(pool, chosen, full / repositories, full % repositories)
  {
    var perRepo, remainder := full / repositories, full % repositories;
    AllotmentsFit(pool, chosen, perRepo, remainder);
    var q := AllotmentSizes(pool, chosen, perRepo, remainder);
    AllotmentTotal(q, perRepo, remainder);
    DivisionParts(full, repositories);
    assert forall i :: 0 <= i < |q| && i < remainder ==>
      (q[i] == perRepo + 1 <==> |Group(pool, chosen[i])| > perRepo);
  }

  /**
   * Nested evaluation splits. The internal allocation error is reachable: it
   * occurs exactly when one of the first full_size % repositories chosen
   * repositories has no row beyond the full_size / repositories that made it
   * eligible. Otherwise the full order has exactly full_size rows and smoke and
   * fast are balanced prefixes of it.
   */
  method BuildEvalSplits(rows: seq<Row>, smokeSize: int, fastSize: int, fullSize: int, repositories: int,
                         excluded: set<TaskId>, repoRank: Key -> int, taskRank: TaskId -> int, orderRank: Key -> int)
    returns (r: Result<EvalSplits, EvalError>)
    ensures r.Err? && r.error.BadSizes? <==> !(0 < smokeSize <= fastSize <= fullSize)
    ensures r.Err? && r.error.BadRepositories? <==>
              0 < smokeSize <= fastSize <= fullSize && !(0 < repositories <= fullSize)
    ensures r.Err? && r.error.InvalidSource? <==>
              0 < smokeSize <= fastSize <= fullSize && 0 < repositories <= fullSize
              && !(DistinctIds(rows) && forall row :: row in rows ==> row.hasStatement && row.hasImage && row.hasTests)
    ensures 0 < smokeSize <= fastSize <= fullSize && 0 < repositories <= fullSize && DistinctIds(rows)
            && (forall row :: row in rows ==> row.hasStatement && row.hasImage && row.hasTests) ==>
              var pool := Excluding(rows, excluded);
              var perRepo, remainder := fullSize / repositories, fullSize % repositories;
              if |Eligible(pool, Repos(pool), perRepo)| < repositories then r == Err(TooFewRepositories)
              else
                var chosen := ChosenRepos(pool, repositories, perRepo, repoRank);
                && (r.Err? ==> r.error == AllocationError)
                && (r.Ok? <==> AllotmentsFilled(pool, chosen, perRepo, remainder))
                && (r.Ok? ==>
                      && SplitsOf(pool, chosen, perRepo, remainder, taskRank, smokeSize, fastSize, fullSize, r.value)
                      && RoundRobinOf(pool, chosen, taskRank, orderRank, r.value.full))
  {
    hide RoundRobinOf, SplitsOf, AllotmentsFilled, DistinctIds, Eligible, ChosenRepos;
    if !(0 < smokeSize <= fastSize <= fullSize) {
      return Err(BadSizes);
    }
    if !(0 < repositories <= fullSize) {
      return Err(BadRepositories);
    }
    var valid := ValidateSmithRows(rows);
    if !valid {
      return Err(InvalidSource);
    }
    var pool := Excluding(rows, excluded);
    ExcludingDistinct(rows, excluded);
    r := SplitPool(pool, smokeSize, fastSize, fullSize, repositories, repoRank, taskRank, orderRank);
  }

  /** The selection behind the checks of sizes and rows. */
  method SplitPool(pool: seq<Row>, smokeSize: int, fastSize: int, fullSize: int, repositories: int,
                   repoRank: Key -> int, taskRank: TaskId -> int, orderRank: Key -> int)
    returns (r: Result<EvalSplits, EvalError>)
    requires 0 < smokeSize <= fastSize <= fullSize && 0 < repositories <= fullSize && DistinctIds(pool)
    ensures var perRepo, remainder := fullSize / repositories, fullSize % repositories;
            if |Eligible(pool, Repos(pool), perRepo)| < repositories then r == Err(TooFewRepositories)
            else
              var chosen := ChosenRepos(pool, repositories, perRepo, repoRank);
              && (r.Err? ==> r.error == AllocationError)
              && (r.Ok? <==> AllotmentsFilled(pool, chosen, perRepo, remainder))
              && (r.Ok? ==>
                    && SplitsOf(pool, chosen, perRepo, remainder, taskRank, smokeSize, fastSize, fullSize, r.value)
                    && RoundRobinOf(pool, chosen, taskRank, orderRank, r.value.full))
  {
    hide RoundRobinOf, SplitsOf, AllotmentsFilled, DistinctIds, Eligible, ChosenRepos, Selected, BalancedPrefixes;
    var perRepo, remainder := fullSize / repositories, fullSize % repositories;
    if |Eligible(pool, Repos(pool), perRepo)| < repositories {
      return Err(TooFewRepositories);
    }
    var chosen := ChosenRepos(pool, repositories, perRepo, repoRank);
    ChosenReposContents(pool, repositories, perRepo, repoRank);
    var ordered := OrderSelected(pool, chosen, perRepo, remainder, taskRank, orderRank);
    AllotmentsReachFullSize(pool, chosen, fullSize, repositories);
    if |ordered| != fullSize {
      return Err(AllocationError);
    }
    r := Ok(EvalSplits(ordered[..smokeSize], ordered[..fastSize], ordered));
    AreSplits(pool, chosen, perRepo, remainder, taskRank, smokeSize, fastSize, fullSize, r.value);
  }

  lemma AreSplits(pool: seq<Row>, chosen: seq<Key>, perRepo: nat, remainder: nat, rank: TaskId -> int,
                  smokeSize: int, fastSize: int, fullSize: int, s: EvalSplits)
    requires 0 < smokeSize <= fastSize <= fullSize == |s.full|
    requires s.smoke == s.full[..smokeSize] && s.fast == s.full[..fastSize]
    requires QuotasFit(Groups(pool, chosen), AllotmentSizes(pool, chosen, perRepo, remainder))
    requires multiset(s.full) == multiset(Selected(pool, chosen, perRepo, remainder, rank))
    requires DistinctIds(s.full) && BalancedPrefixes(s.full, chosen)
    ensures SplitsOf(pool, chosen, perRepo, remainder, rank, smokeSize, fastSize, fullSize, s)
  {
  }

  ghost predicate SplitsOf(pool: seq<Row>, chosen: seq<Key>, perRepo: nat, remainder: nat, rank: TaskId -> int,
                           smokeSize: int, fastSize: int, fullSize: int, s: EvalSplits)
  {
    && 0 < smokeSize <= fastSize <= fullSize == |s.full|
    && s.smoke == s.full[..smokeSize] && s.fast == s.full[..fastSize]
    && QuotasFit(Groups(pool, chosen), AllotmentSizes(pool, chosen, perRepo, remainder))
    && multiset(s.full) == multiset(Selected(pool, chosen, perRepo, remainder, rank))
    && DistinctIds(s.full)
    && BalancedPrefixes(s.full, chosen)
  }

  method ValidateSmithRows(rows: seq<Row>) returns (valid: bool)
    ensures valid == ValidSmithRows(rows)
  {
    var distinct := AllDistinct(rows);
    valid := distinct && forall r :: r in rows ==> r.hasStatement && r.hasImage && r.hasTests;
  }

  // ---------------------------------------------------------------------
  // The Verified bundle.

  /**
   * The one-pass quotas followed by the round-robin: the full order has exactly
   * full_size distinct rows, fast is a prefix, and in every prefix a repository
   * trails another by more than one row only when its quota is used up.
   */
  method SelectVerified(rows: seq<Row>, fastSize: int, fullSize: int, rank: TaskId -> int, repoRank: Key -> int)
    returns (r: Result<(seq<Row>, seq<Row>), EvalError>)
    ensures r.Ok? <==> 0 < fastSize <= fullSize <= |rows| && DistinctIds(rows)
    ensures r.Ok? ==>
              var (fast, full) := r.value;
              && |full| == fullSize && fast == full[..fastSize]
              && VerifiedOrder(rows, fullSize, rank, full)
              && RoundRobinOf(rows, Repos(rows), rank, repoRank, full)
  {
    hide InTurns, RoundRobinOf;
    if !(0 < fastSize <= fullSize <= |rows|) {
      return Err(BadSizes);
    }
    var distinct := AllDistinct(rows);
    if !distinct {
      return Err(InvalidSource);
    }
    GroupsPartition(rows);
    var ks := Repos(rows);
    var sizes := Sizes(Groups(rows, ks));
    assert |ks| > 0;
    var quotas := OnePassQuotas(sizes, fullSize);
    ProportionalQuotasFit(sizes, fullSize, quotas);
    var selected := TakeFromGroups(Groups(rows, ks), quotas, rank);
    var repoOrder := Sort(ByKeyRank(repoRank), ks);
    SortDistinct(ByKeyRank(repoRank), ks);
    var ordered := RoundRobinOrder(Groups(selected, repoOrder));
    OrderOfPicks(rows, ks, quotas, selected, repoOrder, rank);
    PicksFromPool(rows, ks, quotas, rank, ordered);
    SameRows(rows, Flatten(Groups(rows, ks)));
    PicksAreRanked(Groups(rows, ks), quotas, rank, ordered);
    VerifiedPrefixes(ordered, Groups(selected, repoOrder), repoOrder, ks);
    PicksInTurns(rows, ks, quotas, selected, rank, repoRank, ordered);
    return Ok((ordered[..fastSize], ordered));
  }

  /** Fairly apportioned among all repositories, the best-ranked rows of each, and no prefix out of turn. */
  ghost predicate VerifiedOrder(rows: seq<Row>, fullSize: int, rank: TaskId -> int, full: seq<Row>) {
    var ks := Repos(rows);
    var sizes := Sizes(Groups(rows, ks));
    && DistinctIds(full) && (forall row :: row in full ==> row in rows)
    && Sum(sizes) > 0
    && (exists q: seq<int> :: |q| == |ks| && FairAllocation(Proportional(sizes, fullSize), sizes, fullSize, q)
                    && (forall i :: 0 <= i < |ks| ==> |Group(full, ks[i])| == q[i])
                    && QuotasFit(Groups(rows, ks), q) && RankedPicks(Groups(rows, ks), q, rank, full))
    && FairPrefixes(full, ks)
  }

  predicate FairPrefixes(full: seq<Row>, ks: seq<Key>) {
    forall k, a, b :: 0 <= k <= |full| && a in ks && b in ks ==>
      || |Group(full[..k], b)| <= |Group(full[..k], a)| + 1
      || |Group(full[..k], a)| == |Group(full, a)|
  }

  lemma VerifiedPrefixes(ordered: seq<Row>, lists: seq<seq<Row>>, repoOrder: seq<Key>, ks: seq<Key>)
    requires ByRepo(lists, repoOrder) && ordered == Turns(lists, LongestList(lists))
    requires forall k :: k in repoOrder <==> k in ks
    ensures FairPrefixes(ordered, ks)
  {
    OrderContents(lists, repoOrder);
    forall k, a, b | 0 <= k <= |ordered| && a in ks && b in ks
      ensures || |Group(ordered[..k], b)| <= |Group(ordered[..k], a)| + 1
              || |Group(ordered[..k], a)| == |Group(ordered, a)|
    {
      assert a in repoOrder && b in repoOrder;
      var i :| 0 <= i < |repoOrder| && repoOrder[i] == a;
      var j :| 0 <= j < |repoOrder| && repoOrder[j] == b;
      PrefixBalanced(lists, repoOrder, k, i, j);
    }
  }
}
