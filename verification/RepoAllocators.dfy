/**
 * Three independently written proportional allocators: a cyclic loop over the
 * repositories, a single pass over them, and the capacity-bounded greedy loop
 * of Apportionment. All three return the same quotas.
 */
module RepoAllocators {
  import opened Prelude
  import opened Sorting
  import opened Apportionment

  datatype SelectionError = SizeOutOfRange | UnableToAllocate

  predicate NonEmptyGroups(g: seq<int>) {
    forall i :: 0 <= i < |g| ==> g[i] >= 1
  }

  /** size * len(rows) / total, repository by repository. */
  function Proportional(g: seq<int>, size: int): (x: seq<real>)
    requires |g| > 0 ==> Sum(g) != 0
    ensures |x| == |g|
  {
    seq(|g|, i requires 0 <= i < |g| => Share(size as real, g[i] as real, Sum(g) as real))
  }

  function Indices(n: nat): seq<nat> {
    seq(n, i requires 0 <= i < n => i)
  }

  function RemainderAt(x: seq<real>, q: seq<int>, i: nat): real {
    if i < |x| && i < |q| then x[i] - q[i] as real else 0.0
  }

  /** Larger remainder first; equal remainders in key order. */
  function Precedes(x: seq<real>, q: seq<int>): (nat, nat) -> bool {
    (i: nat, j: nat) => RemainderAt(x, q, i) > RemainderAt(x, q, j)
              || (RemainderAt(x, q, i) == RemainderAt(x, q, j) && i <= j)
  }

  function RemainderOrder(x: seq<real>, q: seq<int>): seq<nat>
    requires |x| == |q|
  {
    Sort(Precedes(x, q), Indices(|x|))
  }

  lemma RemainderOrderCorrect(x: seq<real>, q: seq<int>)
    requires |x| == |q|
    ensures var order := RemainderOrder(x, q);
            |order| == |x| && Distinct(order) && SortedBy(Precedes(x, q), order)
            && IndicesOf(order, |x|) && forall i: nat :: i in order <==> i < |x|
  {
    SortCorrect(Precedes(x, q), Indices(|x|));
    SortDistinct(Precedes(x, q), Indices(|x|));
    forall i: nat
      ensures i in Indices(|x|) <==> i < |x|
    {
      if i < |x| {
        assert Indices(|x|)[i] == i;
      }
    }
    var order := RemainderOrder(x, q);
    assert forall k :: 0 <= k < |order| ==> order[k] in order;
  }

  predicate IndicesOf(order: seq<nat>, n: nat) {
    forall k :: 0 <= k < |order| ==> order[k] < n
  }

  /** One more unit for each of the first t repositories of the order. */
  function BumpFirst(base: seq<int>, order: seq<nat>, t: nat): (q: seq<int>)
    requires t <= |order| && IndicesOf(order, |base|)
    ensures |q| == |base|
  {
    if t == 0 then base
    else
      var p := BumpFirst(base, order, t - 1);
      p[order[t - 1] := p[order[t - 1]] + 1]
  }

  lemma {:induction false} BumpFirstValues(base: seq<int>, order: seq<nat>, t: nat)
    requires t <= |order| && Distinct(order) && IndicesOf(order, |base|)
    ensures var q := BumpFirst(base, order, t);
            && Sum(q) == Sum(base) + t
            && forall i: nat :: i < |base| ==> q[i] == base[i] + if i in order[..t] then 1 else 0
  {
    if t > 0 {
      BumpFirstValues(base, order, t - 1);
      var p := BumpFirst(base, order, t - 1);
      SumUpdate(p, order[t - 1], p[order[t - 1]] + 1);
      assert order[..t] == order[..t - 1] + [order[t - 1]];
    }
  }

  lemma ShareWithin(s: real, w: real, p: real)
    requires 0.0 <= s <= p && 0.0 <= w && p != 0.0
    ensures 0.0 <= Share(s, w, p) <= w
  {
    assert 0.0 <= s * w;
    assert s * w <= p * w;
    assert p * w / p == w;
  }

  lemma ProportionalBounds(g: seq<int>, size: int, i: nat)
    requires NonEmptyGroups(g) && i < |g| && 0 <= size <= Sum(g) && Sum(g) != 0
    ensures 0.0 <= Proportional(g, size)[i] <= g[i] as real
  {
    ShareWithin(size as real, g[i] as real, Sum(g) as real);
  }

  lemma {:induction false} GroupsPositive(g: seq<int>)
    requires NonEmptyGroups(g)
    ensures |g| <= Sum(g)
    ensures PositiveWeight(RealSizes(g), g) == Sum(g) as real
  {
    if |g| > 0 {
      GroupsPositive(g[1..]);
      assert RealSizes(g)[1..] == RealSizes(g[1..]);
    }
  }

  function RealSizes(g: seq<int>): (w: seq<real>)
    ensures |w| == |g|
  {
    seq(|g|, i requires 0 <= i < |g| => g[i] as real)
  }

  lemma SharesAreProportional(g: seq<int>, size: int)
    requires NonEmptyGroups(g) && |g| > 0
    ensures Sum(g) > 0 && PositiveWeight(RealSizes(g), g) == Sum(g) as real
    ensures Shares(RealSizes(g), g, size) == Proportional(g, size)
  {
    GroupsPositive(g);
  }

  /** A proportional share is to the size as the group is to all rows. */
  lemma ProportionalExactly(g: seq<int>, size: int, i: nat)
    requires Sum(g) != 0 && i < |g|
    ensures Proportional(g, size)[i] * Sum(g) as real == size as real * g[i] as real
  {
    ShareTimes(size as real, g[i] as real, Sum(g) as real);
  }

  lemma ProportionalTotal(g: seq<int>, size: int)
    requires NonEmptyGroups(g) && |g| > 0
    ensures Sum(g) > 0 && SumReal(Proportional(g, size)) == size as real
  {
    SharesAreProportional(g, size);
    ShareSum(Proportional(g, size), RealSizes(g), g, size as real, Sum(g) as real);
    ShareAdditive(size as real, 0.0, 0.0, Sum(g) as real);
  }

  /** The shares exceed their floors by less than one unit per fractional share. */
  lemma {:induction false} FractionalCount(x: seq<real>, q: seq<int>, n: nat) returns (fractional: set<nat>)
    requires |x| == |q| && n <= |x|
    requires forall i :: 0 <= i < |x| ==> q[i] as real <= x[i] < q[i] as real + 1.0
    ensures forall i: nat :: i in fractional <==> i < n && x[i] > q[i] as real
    ensures SumReal(x[..n]) - Sum(q[..n]) as real <= |fractional| as real
    ensures n <= |x|
  {
    fractional := {};
    if n > 0 {
      fractional := FractionalCount(x, q, n - 1);
      assert x[..n] == x[..n - 1] + [x[n - 1]] && q[..n] == q[..n - 1] + [q[n - 1]];
      SumRealAppend(x[..n - 1], [x[n - 1]]);
      SumAppend(q[..n - 1], [q[n - 1]]);
      if x[n - 1] > q[n - 1] as real {
        fractional := fractional + {n - 1};
      }
    }
  }

  /** Shares within the capacities that add up to the size asked for. */
  ghost predicate RoundingProblem(x: seq<real>, g: seq<int>, size: int) {
    && |x| == |g|
    && (forall i :: 0 <= i < |x| ==> 0.0 <= x[i] <= g[i] as real)
    && SumReal(x) == size as real
  }

  lemma ProportionalProblem(g: seq<int>, size: int)
    requires NonEmptyGroups(g) && |g| > 0 && 0 <= size <= Sum(g)
    ensures Sum(g) > 0 && RoundingProblem(Proportional(g, size), g, size)
  {
    ProportionalTotal(g, size);
    forall i | 0 <= i < |g|
      ensures 0.0 <= Proportional(g, size)[i] <= g[i] as real
    {
      ProportionalBounds(g, size, i);
    }
  }

  lemma FloorsBelowShares(x: seq<real>, g: seq<int>, size: int)
    requires RoundingProblem(x, g, size)
    ensures var base := FloorQuotas(x, g);
            && Sum(base) <= size
            && forall i :: 0 <= i < |x| ==> base[i] == x[i].Floor && base[i] as real <= x[i] < base[i] as real + 1.0
  {
    FloorSum(x, g);
  }

  /** What all three loops rely on: each of the first R repositories of the order still has room. */
  lemma RemainderHasRoom(x: seq<real>, g: seq<int>, size: int, t: nat)
    requires RoundingProblem(x, g, size)
    requires t < size - Sum(FloorQuotas(x, g))
    ensures var base := FloorQuotas(x, g);
            var order := RemainderOrder(x, base);
            t < |order| && order[t] < |g| && base[order[t]] < g[order[t]] && x[order[t]] > base[order[t]] as real
  {
    hide FloorQuotas, RemainderOrder;
    var base := FloorQuotas(x, g);
    var order := RemainderOrder(x, base);
    RemainderOrderCorrect(x, base);
    FloorsBelowShares(x, g, size);
    var fractional := FractionalCount(x, base, |x|);
    assert x[..|x|] == x && base[..|base|] == base;
    var n := if t < |order| then t else |order|;
    assert forall k :: n < k < |order| ==> Precedes(x, base)(order[n], order[k]);
    if t >= |order| || x[order[t]] == base[order[t]] as real {
      forall i: nat | i in fractional
        ensures i in order[..n]
      {
        assert i in order;
        var k :| 0 <= k < |order| && order[k] == i;
      }
      DistinctSize(order[..n]);
      SubsetSize(fractional, set i | i in order[..n]);
      assert false;
    }
  }

  lemma SubsetSize<T>(a: set<T>, b: set<T>)
    requires a <= b
    ensures |a| <= |b|
  {
    assert b == a + (b - a);
  }

  /** Rounding up the R largest remainders is the fair allocation. */
  lemma BumpFirstFair(x: seq<real>, g: seq<int>, size: int)
    requires RoundingProblem(x, g, size)
    ensures var base := FloorQuotas(x, g);
            var order := RemainderOrder(x, base);
            var R := size - Sum(base);
            0 <= R <= |order| && IndicesOf(order, |base|) &&
            FairAllocation(x, g, size, BumpFirst(base, order, R))
  {
    FloorsBelowShares(x, g, size);
    var base := FloorQuotas(x, g);
    var order := RemainderOrder(x, base);
    var R := size - Sum(base);
    RemainderOrderCorrect(x, base);
    if R > |order| {
      RemainderHasRoom(x, g, size, |order|);
      assert false;
    }
    BumpFirstValues(base, order, R);
    var q := BumpFirst(base, order, R);
    forall i: nat | i < |q|
      ensures q[i] <= g[i]
    {
      if i in order[..R] {
        var k :| 0 <= k < R && order[k] == i;
        RemainderHasRoom(x, g, size, k);
      }
    }
    forall i: nat, j: nat | i < |q| && j < |q| && q[i] < g[i]
      ensures Deficit(x, q, i) < Deficit(x, q, j) + 1.0 || (Deficit(x, q, i) == Deficit(x, q, j) + 1.0 && j < i)
    {
      if j in order[..R] && i !in order[..R] {
        var l :| 0 <= l < R && order[l] == j;
        assert i in order;
        var k :| 0 <= k < |order| && order[k] == i;
        assert k >= R;
        assert Precedes(x, base)(order[l], order[k]);
      }
    }
  }

  lemma BumpNext(base: seq<int>, order: seq<nat>, t: nat)
    requires t < |order| && Distinct(order) && IndicesOf(order, |base|)
    ensures var q := BumpFirst(base, order, t);
            && q[order[t]] == base[order[t]]
            && q[order[t] := q[order[t]] + 1] == BumpFirst(base, order, t + 1)
  {
    BumpFirstValues(base, order, t);
    assert order[t] !in order[..t];
  }

  /** After t units, the next repository of the order still has room for one. */
  lemma NextHasRoom(x: seq<real>, g: seq<int>, size: int, base: seq<int>, order: seq<nat>, t: nat)
    requires RoundingProblem(x, g, size) && base == FloorQuotas(x, g) && order == RemainderOrder(x, base)
    requires t < size - Sum(base)
    ensures IndicesOf(order, |x|) && t < |order|
    ensures var q := BumpFirst(base, order, t);
            && q[order[t]] < g[order[t]]
            && q[order[t] := q[order[t]] + 1] == BumpFirst(base, order, t + 1)
  {
    hide FloorQuotas;
    RemainderOrderCorrect(x, base);
    RemainderHasRoom(x, g, size, t);
    BumpNext(base, order, t);
  }

  lemma BumpNone(base: seq<int>, order: seq<nat>)
    requires IndicesOf(order, |base|)
    ensures BumpFirst(base, order, 0) == base
  {
  }

  /** The loop of the R2E splits: whole cycles over the order until nothing remains. */
  method CycleUntilSpent(exact: seq<real>, g: seq<int>, size: int) returns (r: Result<seq<int>, SelectionError>)
    requires RoundingProblem(exact, g, size)
    ensures r.Ok? && |r.value| == |g| && FairAllocation(exact, g, size, r.value)
  {
    hide FairAllocation, FloorQuotas, RemainderOrder, BumpFirst;
    BumpFirstFair(exact, g, size);
    var quotas := FloorQuotas(exact, g);
    var remaining := size - Sum(quotas);
    var order := RemainderOrder(exact, quotas);
    ghost var base, R := quotas, remaining;
    BumpNone(base, order);
    while remaining != 0
      invariant |quotas| == |g|
      invariant (remaining == R && quotas == base) || (remaining == 0 && quotas == BumpFirst(base, order, R))
      decreases remaining
    {
      var progressed := false;
      var t := 0;
      while t < |order|
        invariant 0 <= t <= |order|
        invariant remaining == R - t > 0 && quotas == BumpFirst(base, order, t)
        invariant progressed == (t > 0)
      {
        NextHasRoom(exact, g, size, base, order, t);
        if quotas[order[t]] < g[order[t]] {
          quotas := quotas[order[t] := quotas[order[t]] + 1];
          remaining := remaining - 1;
          progressed := true;
          if remaining == 0 {
            break;
          }
        }
        t := t + 1;
      }
      if !progressed {
        return Err(UnableToAllocate);
      }
    }
    return Ok(quotas);
  }

  /** The cyclic allocator of the R2E splits. */
  method CyclicQuotas(g: seq<int>, size: int) returns (r: Result<seq<int>, SelectionError>)
    requires NonEmptyGroups(g)
    ensures r.Err? <==> size < 0 || size > Sum(g)
    ensures r.Err? ==> r.error == SizeOutOfRange
    ensures r.Ok? && |g| == 0 ==> r.value == []
    ensures r.Ok? && |g| > 0 ==>
              Sum(g) > 0 && |r.value| == |g| && FairAllocation(Proportional(g, size), g, size, r.value)
  {
    var total := Sum(g);
    if size < 0 || size > total {
      return Err(SizeOutOfRange);
    }
    if |g| == 0 {
      return Ok([]);
    }
    ProportionalProblem(g, size);
    r := CycleUntilSpent(Proportional(g, size), g, size);
  }

  /** One pass over the order; nothing in the source checks that the pass sufficed. */
  method SpendInOnePass(exact: seq<real>, g: seq<int>, size: int) returns (quotas: seq<int>)
    requires RoundingProblem(exact, g, size)
    ensures |quotas| == |g| && FairAllocation(exact, g, size, quotas)
  {
    BumpFirstFair(exact, g, size);
    quotas := FloorQuotas(exact, g);
    var remaining := size - Sum(quotas);
    var order := RemainderOrder(exact, quotas);
    ghost var base, R := quotas, remaining;
    var t := 0;
    while t < |order|
      invariant 0 <= t <= |order|
      invariant remaining == R - t >= 0 && quotas == BumpFirst(base, order, t)
    {
      if remaining == 0 {
        break;
      }
      NextHasRoom(exact, g, size, base, order, t);
      if quotas[order[t]] < g[order[t]] {
        quotas := quotas[order[t] := quotas[order[t]] + 1];
        remaining := remaining - 1;
      }
      t := t + 1;
    }
  }

  /** The single-pass allocator of the Verified bundle. */
  method OnePassQuotas(g: seq<int>, size: int) returns (quotas: seq<int>)
    requires NonEmptyGroups(g) && |g| > 0 && 0 <= size <= Sum(g)
    ensures Sum(g) > 0 && |quotas| == |g| && FairAllocation(Proportional(g, size), g, size, quotas)
  {
    ProportionalProblem(g, size);
    quotas := SpendInOnePass(Proportional(g, size), g, size);
  }

  /**
   * The three allocators agree: whatever each of them returns for the same
   * groups and size is one and the same list, and it rounds every share to a
   * neighbouring integer.
   */
  method AllocatorsAgree(keys: seq<Key>, g: seq<int>, size: int)
    returns (cyclic: seq<int>, onePass: seq<int>, greedy: seq<int>)
    requires NonEmptyGroups(g) && |g| > 0 && 0 <= size <= Sum(g)
    requires |keys| == |g| && Ascending(keys)
    ensures cyclic == onePass == greedy && |greedy| == |g| && Sum(greedy) == size
    ensures Sum(g) > 0 && RoundsToNeighbours(Proportional(g, size), greedy)
  {
    SharesAreProportional(g, size);
    ProportionalProblem(g, size);
    var c := CyclicQuotas(g, size);
    cyclic := c.value;
    onePass := OnePassQuotas(g, size);
    var gr := LargestRemainderQuotas(Table(keys, RealSizes(g)), size, Some(Table(keys, g)));
    greedy := gr.value.values;
    FairAllocationUnique(Proportional(g, size), g, size, cyclic, onePass);
    FairAllocationUnique(Proportional(g, size), g, size, cyclic, greedy);
    QuotaRule(Proportional(g, size), g, size, greedy);
  }

  predicate RoundsToNeighbours(x: seq<real>, q: seq<int>) {
    && |q| == |x|
    && forall i :: 0 <= i < |x| ==> q[i] == x[i].Floor || (q[i] == x[i].Floor + 1 && x[i] > x[i].Floor as real)
  }

  /** Every fair allocation of shares that fit rounds each share to a neighbouring integer. */
  lemma QuotaRule(x: seq<real>, g: seq<int>, size: int, q: seq<int>)
    requires RoundingProblem(x, g, size) && |q| == |g| && FairAllocation(x, g, size, q)
    ensures RoundsToNeighbours(x, q)
  {
    BumpFirstFair(x, g, size);
    FloorsBelowShares(x, g, size);
    var base := FloorQuotas(x, g);
    var order := RemainderOrder(x, base);
    var R := size - Sum(base);
    RemainderOrderCorrect(x, base);
    FairAllocationUnique(x, g, size, q, BumpFirst(base, order, R));
    BumpFirstValues(base, order, R);
    forall i: nat | i < |g|
      ensures q[i] == x[i].Floor || (q[i] == x[i].Floor + 1 && x[i] > x[i].Floor as real)
    {
      if i in order[..R] {
        var k :| 0 <= k < R && order[k] == i;
        RemainderHasRoom(x, g, size, k);
      }
    }
  }
}
