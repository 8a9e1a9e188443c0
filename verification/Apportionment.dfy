/**
 * Largest-remainder allocation under capacities.
 *
 * A Python mapping with string keys is a Table: its keys in sorted order, each
 * key standing for its place in that order, and the values beside them.
 */
module Apportionment {
  import opened Prelude

  type Key = int

  predicate Ascending(keys: seq<Key>) {
    forall i, j :: 0 <= i < j < |keys| ==> keys[i] < keys[j]
  }

  datatype Table<+V> = Table(keys: seq<Key>, values: seq<V>) {
    predicate Valid() {
      |keys| == |values| && Ascending(keys)
    }
  }

  datatype AllocationError =
    | NegativeTotal
    | BadWeights
    | KeyMismatch
    | ExceedsCapacity
    | NoPositiveWeight
    | ZeroDivision
    | Unsatisfiable

  /** The weight carried by the keys that can still receive anything. */
  function PositiveWeight(w: seq<real>, c: seq<int>): real
    requires |w| == |c|
  {
    if |w| == 0 then 0.0
    else (if c[0] > 0 then w[0] else 0.0) + PositiveWeight(w[1..], c[1..])
  }

  function Share(total: real, weight: real, positiveWeight: real): real
    requires positiveWeight != 0.0
  {
    total * weight / positiveWeight
  }

  /** The real-valued share of every key; a key without capacity has share zero. */
  function Shares(w: seq<real>, c: seq<int>, total: int): (x: seq<real>)
    requires |w| == |c|
    requires (exists i :: 0 <= i < |c| && c[i] > 0) ==> PositiveWeight(w, c) != 0.0
    ensures |x| == |w|
  {
    var p := PositiveWeight(w, c);
    seq(|w|, i requires 0 <= i < |w| => if c[i] > 0 then Share(total as real, w[i], p) else 0.0)
  }

  function Min(a: int, b: int): int {
    if a < b then a else b
  }

  function FloorQuotas(x: seq<real>, c: seq<int>): (q: seq<int>)
    requires |x| == |c|
    ensures |q| == |x|
  {
    seq(|x|, i requires 0 <= i < |x| => Min(c[i], x[i].Floor))
  }

  /** How far quota i still is below its share. */
  function Deficit(x: seq<real>, q: seq<int>, i: nat): real
    requires i < |x| == |q|
  {
    x[i] - q[i] as real
  }

  /** Key i has room, and no other key with room has a larger deficit, nor an equal one and a smaller key. */
  predicate IsSelected(x: seq<real>, c: seq<int>, q: seq<int>, i: nat)
    requires |x| == |c| == |q|
  {
    && i < |q|
    && q[i] < c[i]
    && (forall j :: 0 <= j < |q| && q[j] < c[j] ==>
          Deficit(x, q, j) < Deficit(x, q, i) || (Deficit(x, q, j) == Deficit(x, q, i) && i <= j))
  }

  predicate HasRoom(c: seq<int>, q: seq<int>)
    requires |c| == |q|
  {
    exists i :: 0 <= i < |q| && q[i] < c[i]
  }

  lemma {:induction false} SelectedExists(x: seq<real>, c: seq<int>, q: seq<int>, n: nat) returns (best: nat)
    requires |x| == |c| == |q| && n <= |q|
    requires exists i :: 0 <= i < n && q[i] < c[i]
    ensures best < n && q[best] < c[best]
    ensures forall j :: 0 <= j < n && q[j] < c[j] ==>
              Deficit(x, q, j) < Deficit(x, q, best) || (Deficit(x, q, j) == Deficit(x, q, best) && best <= j)
  {
    if exists i :: 0 <= i < n - 1 && q[i] < c[i] {
      best := SelectedExists(x, c, q, n - 1);
      if q[n - 1] < c[n - 1] && Deficit(x, q, n - 1) > Deficit(x, q, best) {
        best := n - 1;
      }
    } else {
      best := n - 1;
    }
  }

  /** The loop's selection: candidates are scanned in key order and replaced only by a strictly larger deficit. */
  method SelectKey(x: seq<real>, c: seq<int>, q: seq<int>) returns (selected: Option<nat>)
    requires |x| == |c| == |q|
    ensures selected.None? <==> !HasRoom(c, q)
    ensures selected.Some? ==> IsSelected(x, c, q, selected.value)
  {
    selected := None;
    for i := 0 to |q|
      invariant selected.None? ==> forall j :: 0 <= j < i ==> q[j] >= c[j]
      invariant selected.Some? ==> selected.value < i && q[selected.value] < c[selected.value]
      invariant selected.Some? ==> forall j :: 0 <= j < i && q[j] < c[j] ==>
        Deficit(x, q, j) < Deficit(x, q, selected.value)
        || (Deficit(x, q, j) == Deficit(x, q, selected.value) && selected.value <= j)
    {
      if q[i] < c[i] && (selected.None? || Deficit(x, q, i) > Deficit(x, q, selected.value)) {
        selected := Some(i);
      }
    }
  }

  // ---------------------------------------------------------------------
  // What the loop maintains, and what it determines.

  /**
   * No unit can be moved from one key to another at a profit, and none can be
   * moved to a smaller key for free.
   */
  ghost predicate Balanced(x: seq<real>, c: seq<int>, q: seq<int>)
    requires |x| == |c| == |q|
  {
    forall i, j {:trigger Deficit(x, q, i), Deficit(x, q, j)} :: 0 <= i < |q| && 0 <= j < |q| && q[i] < c[i] ==>
      Deficit(x, q, i) < Deficit(x, q, j) + 1.0 || (Deficit(x, q, i) == Deficit(x, q, j) + 1.0 && j < i)
  }

  predicate WithinCapacity(c: seq<int>, q: seq<int>)
    requires |c| == |q|
  {
    forall i :: 0 <= i < |q| ==> q[i] <= c[i]
  }

  /** A balanced allocation of exactly `total` units within the capacities. */
  ghost predicate FairAllocation(x: seq<real>, c: seq<int>, total: int, q: seq<int>)
    requires |x| == |c| == |q|
  {
    WithinCapacity(c, q) && Sum(q) == total && Balanced(x, c, q)
  }

  lemma FloorBalanced(x: seq<real>, c: seq<int>)
    requires |x| == |c|
    ensures WithinCapacity(c, FloorQuotas(x, c)) && Balanced(x, c, FloorQuotas(x, c))
  {
    var q := FloorQuotas(x, c);
    forall i, j | 0 <= i < |q| && 0 <= j < |q| && q[i] < c[i]
      ensures Deficit(x, q, i) < Deficit(x, q, j) + 1.0
    {
      assert Deficit(x, q, i) < 1.0;
      assert Deficit(x, q, j) >= 0.0;
    }
  }

  lemma IncrementBalanced(x: seq<real>, c: seq<int>, q: seq<int>, s: nat)
    requires |x| == |c| == |q|
    requires WithinCapacity(c, q) && Balanced(x, c, q) && IsSelected(x, c, q, s)
    ensures WithinCapacity(c, q[s := q[s] + 1]) && Balanced(x, c, q[s := q[s] + 1])
    ensures Sum(q[s := q[s] + 1]) == Sum(q) + 1
  {
    SumUpdate(q, s, q[s] + 1);
    var q' := q[s := q[s] + 1];
    assert forall k :: 0 <= k < |q| && k != s ==> Deficit(x, q', k) == Deficit(x, q, k);
    assert Deficit(x, q', s) == Deficit(x, q, s) - 1.0;
    forall i, j | 0 <= i < |q| && 0 <= j < |q| && q'[i] < c[i]
      ensures Deficit(x, q', i) < Deficit(x, q', j) + 1.0 || (Deficit(x, q', i) == Deficit(x, q', j) + 1.0 && j < i)
    {
      assert Deficit(x, q, i) <= Deficit(x, q, j) + 1.0;
    }
  }

  /** If r takes units from j to give to i, then r could move one back, unless all is tied and i comes first. */
  lemma NoTransfer(x: seq<real>, c: seq<int>, q: seq<int>, r: seq<int>, i: nat, j: nat)
    requires |x| == |c| == |q| == |r|
    requires i < |q| && j < |q| && q[i] < r[i] <= c[i] && r[j] < q[j]
    requires Balanced(x, c, q)
    ensures Deficit(x, r, i) < Deficit(x, r, j) - 1.0 || (Deficit(x, r, i) == Deficit(x, r, j) - 1.0 && j < i)
  {
    assert Deficit(x, q, i) <= Deficit(x, q, j) + 1.0;
    assert Deficit(x, r, i) <= Deficit(x, q, i) - 1.0;
    assert Deficit(x, r, j) >= Deficit(x, q, j) + 1.0;
  }

  /**
   * There is at most one such allocation: the outcome does not depend on the
   * order in which an implementation hands units out.
   */
  lemma FairAllocationUnique(x: seq<real>, c: seq<int>, total: int, q: seq<int>, r: seq<int>)
    requires |x| == |c| == |q| == |r|
    requires FairAllocation(x, c, total, q) && FairAllocation(x, c, total, r)
    ensures q == r
  {
    if q != r {
      if forall i :: 0 <= i < |q| ==> q[i] <= r[i] {
        SumMonotone(q, r);
        assert false;
      } else if forall i :: 0 <= i < |q| ==> r[i] <= q[i] {
        SumMonotone(r, q);
        assert false;
      } else {
        var j :| 0 <= j < |q| && q[j] > r[j];
        var i :| 0 <= i < |q| && r[i] > q[i];
        NoTransfer(x, c, q, r, i, j);
        assert false;
      }
    }
  }

  // ---------------------------------------------------------------------
  // Optimality.

  function SquaredError(x: seq<real>, q: seq<int>): real
    requires |x| == |q|
  {
    if |x| == 0 then 0.0
    else KeyError(x[0], q[0]) + SquaredError(x[1..], q[1..])
  }

  /** Every key that differs pays exactly mu for its first unit of difference. */
  ghost predicate Tight(x: seq<real>, q: seq<int>, r: seq<int>, mu: real)
    requires |x| == |q| == |r|
  {
    forall k :: 0 <= k < |q| ==>
      (r[k] > q[k] ==> mu == 1.0 - 2.0 * Deficit(x, q, k)) && (r[k] < q[k] ==> mu == -2.0 * Deficit(x, q, k) - 1.0)
  }

  function Cost(mu: real, units: int): real {
    mu * units as real
  }

  function KeyError(x: real, q: int): real {
    (q as real - x) * (q as real - x)
  }

  /** A price mu per unit at which no single key wants to change its quota. */
  ghost predicate Supports(x: seq<real>, c: seq<int>, q: seq<int>, mu: real)
    requires |x| == |c| == |q|
  {
    forall k :: 0 <= k < |q| ==>
      -2.0 * Deficit(x, q, k) - 1.0 <= mu && (q[k] < c[k] ==> mu <= 1.0 - 2.0 * Deficit(x, q, k))
  }

  lemma {:induction false} LeastDeficit(x: seq<real>, q: seq<int>, n: nat) returns (least: nat)
    requires 0 < n <= |x| == |q|
    ensures least < n && forall j :: 0 <= j < n ==> Deficit(x, q, least) <= Deficit(x, q, j)
  {
    least := 0;
    if n > 1 {
      least := LeastDeficit(x, q, n - 1);
      if Deficit(x, q, n - 1) < Deficit(x, q, least) {
        least := n - 1;
      }
    }
  }

  lemma PriceExists(x: seq<real>, c: seq<int>, q: seq<int>) returns (mu: real)
    requires |x| == |c| == |q|
    requires Balanced(x, c, q)
    ensures Supports(x, c, q, mu)
  {
    mu := 0.0;
    if |q| > 0 {
      var least := LeastDeficit(x, q, |q|);
      mu := -2.0 * Deficit(x, q, least) - 1.0;
    }
  }

  lemma ProductSign(a: real, b: real)
    requires a > 0.0 && b >= 0.0
    ensures a * b >= 0.0 && (a * b == 0.0 ==> b == 0.0)
  {
  }

  lemma KeyGap(x: real, q: int, r: int, mu: real)
    requires -2.0 * (x - q as real) - 1.0 <= mu
    requires r > q ==> mu <= 1.0 - 2.0 * (x - q as real)
    ensures KeyError(x, r) - KeyError(x, q) >= Cost(mu, r - q)
    ensures KeyError(x, r) - KeyError(x, q) == Cost(mu, r - q) ==>
              && (r > q ==> mu == 1.0 - 2.0 * (x - q as real))
              && (r < q ==> mu == -2.0 * (x - q as real) - 1.0)
  {
    var u, d := (r - q) as real, x - q as real;
    assert KeyError(x, r) == (u - d) * (u - d) && KeyError(x, q) == d * d;
    assert (u - d) * (u - d) - d * d == u * (u - 2.0 * d);
    if r > q {
      assert u * (u - 2.0 * d) - mu * u == u * (u - 2.0 * d - mu);
      ProductSign(u, u - 2.0 * d - mu);
    } else if r < q {
      assert u * (u - 2.0 * d) - mu * u == (-u) * (mu + 2.0 * d - u);
      ProductSign(-u, mu + 2.0 * d - u);
    }
  }

  lemma NoUnitsNoCost(mu: real)
    ensures Cost(mu, 0) == 0.0
  {
  }

  lemma CostAdditive(mu: real, a: int, b: int)
    ensures Cost(mu, a + b) == Cost(mu, a) + Cost(mu, b)
  {
  }

  /** Weak duality: every other allocation within capacity costs at least mu per unit more. */
  lemma {:induction false} ErrorGap(x: seq<real>, c: seq<int>, q: seq<int>, r: seq<int>, mu: real)
    requires |x| == |c| == |q| == |r|
    requires Supports(x, c, q, mu) && WithinCapacity(c, r)
    ensures SquaredError(x, r) - SquaredError(x, q) >= Cost(mu, Sum(r) - Sum(q))
    ensures SquaredError(x, r) - SquaredError(x, q) == Cost(mu, Sum(r) - Sum(q)) ==> Tight(x, q, r, mu)
  {
    if |x| > 0 {
      assert forall k :: 0 <= k < |q| - 1 ==> Deficit(x[1..], q[1..], k) == Deficit(x, q, k + 1);
      ErrorGap(x[1..], c[1..], q[1..], r[1..], mu);
      assert Deficit(x, q, 0) == x[0] - q[0] as real;
      KeyGap(x[0], q[0], r[0], mu);
      CostAdditive(mu, r[0] - q[0], Sum(r[1..]) - Sum(q[1..]));
      assert forall k {:trigger Deficit(x, q, k)} :: 1 <= k < |q| ==>
        r[k] == r[1..][k - 1] && q[k] == q[1..][k - 1] && Deficit(x, q, k) == Deficit(x[1..], q[1..], k - 1);
    }
  }

  /** At equal cost, the key that loses a unit comes before the key that gains it. */
  lemma TightOrder(x: seq<real>, c: seq<int>, q: seq<int>, r: seq<int>, mu: real, gains: nat, loses: nat)
    requires |x| == |c| == |q| == |r| && gains < |q| && loses < |q|
    requires Balanced(x, c, q) && Tight(x, q, r, mu)
    requires q[gains] < r[gains] <= c[gains] && r[loses] < q[loses]
    ensures loses < gains
  {
    assert Deficit(x, q, gains) == Deficit(x, q, loses) + 1.0;
  }

  /**
   * A fair allocation is a least-squares optimum over every integer allocation
   * within capacity, negative quotas included; and among the optima it is the
   * lexicographically greatest, so ties favour the smaller key.
   */
  lemma FairAllocationOptimal(x: seq<real>, c: seq<int>, total: int, q: seq<int>, r: seq<int>)
    requires |x| == |c| == |q| == |r|
    requires FairAllocation(x, c, total, q)
    requires WithinCapacity(c, r) && Sum(r) == total
    ensures SquaredError(x, q) <= SquaredError(x, r)
    ensures SquaredError(x, q) == SquaredError(x, r) && q != r ==>
              exists k :: 0 <= k < |q| && q[..k] == r[..k] && q[k] > r[k]
  {
    hide SquaredError, Supports, Balanced, Cost, Tight;
    var mu := PriceExists(x, c, q);
    ErrorGap(x, c, q, r, mu);
    NoUnitsNoCost(mu);
    if SquaredError(x, q) == SquaredError(x, r) && q != r {
      var k := FirstDifference(q, r);
      if q[k] < r[k] {
        var j := LaterDrop(q, r, k);
        TightOrder(x, c, q, r, mu, k, j);
        assert false;
      }
    }
  }

  lemma {:induction false} FirstDifference(q: seq<int>, r: seq<int>) returns (k: nat)
    requires |q| == |r| && q != r
    ensures k < |q| && q[k] != r[k] && q[..k] == r[..k]
  {
    if q[0] != r[0] {
      k := 0;
    } else {
      assert q == [q[0]] + q[1..] && r == [r[0]] + r[1..];
      var m := FirstDifference(q[1..], r[1..]);
      k := m + 1;
      assert q[..k] == [q[0]] + q[1..][..m];
      assert r[..k] == [r[0]] + r[1..][..m];
    }
  }

  /** Equal totals: a first rise at k is paid for by a drop further on. */
  lemma LaterDrop(q: seq<int>, r: seq<int>, k: nat) returns (j: nat)
    requires |q| == |r| && k < |q| && q[..k] == r[..k] && q[k] < r[k] && Sum(q) == Sum(r)
    ensures k < j < |q| && r[j] < q[j]
  {
    assert forall i :: 0 <= i < k ==> q[i] == q[..k][i] == r[..k][i] == r[i];
    if forall i :: 0 <= i < |q| ==> q[i] <= r[i] {
      SumMonotone(q, r);
      assert false;
    }
    j :| 0 <= j < |q| && q[j] > r[j];
  }

  // ---------------------------------------------------------------------
  // The shares leave room for the loop, so it never gets stuck.

  lemma ShareAdditive(t: real, a: real, b: real, p: real)
    requires p != 0.0
    ensures Share(t, a + b, p) == Share(t, a, p) + Share(t, b, p)
    ensures Share(t, 0.0, p) == 0.0 && Share(t, p, p) == t
  {
    assert t * (a + b) == t * a + t * b;
  }

  lemma {:induction false} ShareSum(x: seq<real>, w: seq<real>, c: seq<int>, t: real, p: real)
    requires |x| == |w| == |c| && p != 0.0
    requires forall i :: 0 <= i < |x| ==> x[i] == if c[i] > 0 then Share(t, w[i], p) else 0.0
    ensures SumReal(x) == Share(t, PositiveWeight(w, c), p)
  {
    ShareAdditive(t, 0.0, 0.0, p);
    if |w| > 0 {
      var head, rest := if c[0] > 0 then w[0] else 0.0, PositiveWeight(w[1..], c[1..]);
      ShareAdditive(t, head, rest, p);
      ShareSum(x[1..], w[1..], c[1..], t, p);
      assert PositiveWeight(w, c) == head + rest;
    }
  }

  lemma {:induction false} FloorSum(x: seq<real>, c: seq<int>)
    requires |x| == |c|
    ensures Sum(FloorQuotas(x, c)) as real <= SumReal(x)
  {
    if |x| > 0 {
      FloorSum(x[1..], c[1..]);
      assert FloorQuotas(x, c)[1..] == FloorQuotas(x[1..], c[1..]);
    }
  }

  lemma {:induction false} NoPositiveCapacity(w: seq<real>, c: seq<int>)
    requires |w| == |c|
    requires forall i :: 0 <= i < |c| ==> c[i] <= 0
    ensures Sum(c) <= 0 && PositiveWeight(w, c) == 0.0
  {
    if |c| > 0 {
      NoPositiveCapacity(w[1..], c[1..]);
    }
  }

  lemma {:induction false} PositiveWeightSign(w: seq<real>, c: seq<int>)
    requires |w| == |c|
    requires forall i :: 0 <= i < |w| ==> w[i] >= 0.0
    ensures PositiveWeight(w, c) >= 0.0
    ensures PositiveWeight(w, c) == 0.0 <==> forall i :: 0 <= i < |w| && c[i] > 0 ==> w[i] == 0.0
  {
    if |w| > 0 {
      PositiveWeightSign(w[1..], c[1..]);
      assert w == [w[0]] + w[1..] && c == [c[0]] + c[1..];
      if forall i :: 0 <= i < |w| && c[i] > 0 ==> w[i] == 0.0 {
        assert forall i :: 0 <= i < |w| - 1 && c[1..][i] > 0 ==> w[1..][i] == w[i + 1] == 0.0;
      }
    }
  }

  /** Floors never hand out more than the total, nor more than the capacities allow. */
  lemma FloorsFit(w: seq<real>, c: seq<int>, total: int)
    requires |w| == |c| && 0 <= total
    requires (exists i :: 0 <= i < |c| && c[i] > 0) ==> PositiveWeight(w, c) != 0.0
    ensures Sum(FloorQuotas(Shares(w, c, total), c)) <= total
    ensures WithinCapacity(c, FloorQuotas(Shares(w, c, total), c))
  {
    var x := Shares(w, c, total);
    FloorSum(x, c);
    FloorBalanced(x, c);
    if exists i :: 0 <= i < |c| && c[i] > 0 {
      var p := PositiveWeight(w, c);
      ShareSum(x, w, c, total as real, p);
      ShareAdditive(total as real, 0.0, 0.0, p);
    } else {
      ZeroShares(x);
    }
  }

  lemma {:induction false} ZeroShares(x: seq<real>)
    requires forall i :: 0 <= i < |x| ==> x[i] == 0.0
    ensures SumReal(x) == 0.0
  {
    if |x| > 0 {
      ZeroShares(x[1..]);
    }
  }

  /** Nobody receives less than the whole part of its share, unless its capacity forbids it. */
  predicate AboveFloors(x: seq<real>, c: seq<int>, q: seq<int>)
    requires |x| == |c| == |q|
  {
    forall i :: 0 <= i < |q| ==> Min(c[i], x[i].Floor) <= q[i]
  }

  lemma ShareSign(t: real, w: real, p: real)
    requires t >= 0.0 && w >= 0.0 && p > 0.0
    ensures Share(t, w, p) >= 0.0
  {
    assert t * w >= 0.0;
  }

  /** With non-negative capacities every quota is non-negative. */
  lemma QuotasNonNegative(w: seq<real>, c: seq<int>, total: int, q: seq<int>)
    requires |w| == |c| == |q| && 0 <= total && NonNegative(w)
    requires forall i :: 0 <= i < |c| ==> c[i] >= 0
    requires (exists i :: 0 <= i < |c| && c[i] > 0) ==> PositiveWeight(w, c) != 0.0
    requires AboveFloors(Shares(w, c, total), c, q)
    ensures forall i :: 0 <= i < |q| ==> q[i] >= 0
  {
    PositiveWeightSign(w, c);
    var x := Shares(w, c, total);
    forall i | 0 <= i < |q|
      ensures q[i] >= 0
    {
      if c[i] > 0 {
        ShareSign(total as real, w[i], PositiveWeight(w, c));
      }
      assert Min(c[i], x[i].Floor) >= 0;
    }
  }

  // ---------------------------------------------------------------------
  // The operation itself.

  predicate NonNegative(w: seq<real>) {
    forall i :: 0 <= i < |w| ==> w[i] >= 0.0
  }

  /** Why a request is refused, in the order in which the source tests. */
  function Refusal(weights: Table<real>, total: int, c: Table<int>): Option<AllocationError>
    requires weights.Valid() && c.Valid()
  {
    if total < 0 then Some(NegativeTotal)
    else if |weights.keys| == 0 || !NonNegative(weights.values) then Some(BadWeights)
    else if c.keys != weights.keys then Some(KeyMismatch)
    else if total > Sum(c.values) then Some(ExceedsCapacity)
    else if total > 0 && PositiveWeight(weights.values, c.values) <= 0.0 then Some(NoPositiveWeight)
    else if (exists i :: 0 <= i < |c.values| && c.values[i] > 0) && PositiveWeight(weights.values, c.values) == 0.0
    then Some(ZeroDivision)
    else None
  }

  /** Some key that can receive anything carries weight. */
  ghost predicate OpenWeight(w: seq<real>, c: seq<int>)
    requires |w| == |c|
  {
    exists i :: 0 <= i < |c| && c[i] > 0 && w[i] > 0.0
  }

  /** The refusals in terms of the single weights and capacities. */
  lemma RefusalExactly(weights: Table<real>, total: int, c: Table<int>)
    requires weights.Valid() && c.Valid()
    ensures Refusal(weights, total, c)
         == if total < 0 then Some(NegativeTotal)
            else if |weights.keys| == 0 || exists i :: 0 <= i < |weights.values| && weights.values[i] < 0.0
            then Some(BadWeights)
            else if weights.keys != c.keys then Some(KeyMismatch)
            else if total > Sum(c.values) then Some(ExceedsCapacity)
            else if OpenWeight(weights.values, c.values) then None
            else if total > 0 then Some(NoPositiveWeight)
            else if exists i :: 0 <= i < |c.values| && c.values[i] > 0 then Some(ZeroDivision)
            else None
  {
    hide PositiveWeight, Sum;
    if weights.keys == c.keys && NonNegative(weights.values) {
      PositiveWeightSign(weights.values, c.values);
    }
  }

  /** A share is the weight's part of the total, relative to the weights of all keys that can receive anything. */
  lemma SharesExactly(w: seq<real>, c: seq<int>, total: int) returns (open: seq<real>)
    requires |w| == |c|
    requires (exists i :: 0 <= i < |c| && c[i] > 0) ==> PositiveWeight(w, c) != 0.0
    ensures |open| == |w| && forall i :: 0 <= i < |w| ==> open[i] == if c[i] > 0 then w[i] else 0.0
    ensures forall i :: 0 <= i < |w| ==>
              if c[i] > 0 then Shares(w, c, total)[i] * SumReal(open) == total as real * w[i]
              else Shares(w, c, total)[i] == 0.0
  {
    open := OpenWeights(w, c);
    forall i | 0 <= i < |w| && c[i] > 0
      ensures Shares(w, c, total)[i] * SumReal(open) == total as real * w[i]
    {
      ShareTimes(total as real, w[i], PositiveWeight(w, c));
    }
  }

  lemma {:induction false} OpenWeights(w: seq<real>, c: seq<int>) returns (open: seq<real>)
    requires |w| == |c|
    ensures |open| == |w| && forall i :: 0 <= i < |w| ==> open[i] == if c[i] > 0 then w[i] else 0.0
    ensures PositiveWeight(w, c) == SumReal(open)
  {
    if |w| == 0 {
      open := [];
    } else {
      var rest := OpenWeights(w[1..], c[1..]);
      open := [if c[0] > 0 then w[0] else 0.0] + rest;
    }
  }

  lemma ShareTimes(t: real, w: real, p: real)
    requires p != 0.0
    ensures Share(t, w, p) * p == t * w
  {
  }

  /** A request for nothing is refused with a division by zero when no open key has weight. */
  lemma EmptyRequestCanDivideByZero()
    ensures Refusal(Table([1], [0.0]), 0, Table([1], [1])) == Some(ZeroDivision)
  {
    var w, c := [0.0], [1];
    assert w[1..] == [] && c[1..] == [];
    assert PositiveWeight(w, c) == 0.0;
    assert c[0] > 0;
  }

  /** `capacities=None` means that every key may take the whole total. */
  function EffectiveCapacities(weights: Table<real>, total: int, capacities: Option<Table<int>>): (c: Table<int>)
    requires weights.Valid() && (capacities.Some? ==> capacities.value.Valid())
    ensures c.Valid() && (capacities.Some? ==> c == capacities.value)
    ensures capacities.None? ==> c.keys == weights.keys && forall i :: 0 <= i < |c.values| ==> c.values[i] == total
  {
    if capacities.Some? then capacities.value
    else Table(weights.keys, seq(|weights.keys|, i => total))
  }

  /** Floors first, then one unit at a time to the key with the largest deficit. */
  method FillLargestDeficits(keys: seq<Key>, exact: seq<real>, c: seq<int>, total: int)
    returns (r: Result<Table<int>, AllocationError>)
    requires |exact| == |c| && Sum(FloorQuotas(exact, c)) <= total <= Sum(c)
    ensures r.Ok? && r.value.keys == keys && |r.value.values| == |c|
    ensures FairAllocation(exact, c, total, r.value.values) && AboveFloors(exact, c, r.value.values)
  {
    var quotas := FloorQuotas(exact, c);
    var remaining := total - Sum(quotas);
    FloorBalanced(exact, c);
    while remaining != 0
      invariant |quotas| == |c|
      invariant remaining == total - Sum(quotas) >= 0
      invariant WithinCapacity(c, quotas) && Balanced(exact, c, quotas) && AboveFloors(exact, c, quotas)
      decreases remaining
    {
      var selected := SelectKey(exact, c, quotas);
      if selected.None? {
        SumMonotone(c, quotas);
        assert false;
        return Err(Unsatisfiable);
      }
      IncrementBalanced(exact, c, quotas, selected.value);
      quotas := quotas[selected.value := quotas[selected.value] + 1];
      remaining := remaining - 1;
    }
    r := Ok(Table(keys, quotas));
  }

  method LargestRemainderQuotas(weights: Table<real>, total: int, capacities: Option<Table<int>>)
    returns (r: Result<Table<int>, AllocationError>)
    requires weights.Valid() && (capacities.Some? ==> capacities.value.Valid())
    ensures var c := EffectiveCapacities(weights, total, capacities);
            match Refusal(weights, total, c)
            case Some(error) => r == Err(error)
            case None =>
              r.Ok? && r.value.Valid() && r.value.keys == weights.keys &&
              var x := Shares(weights.values, c.values, total);
              FairAllocation(x, c.values, total, r.value.values) && AboveFloors(x, c.values, r.value.values)
  {
    if total < 0 {
      return Err(NegativeTotal);
    }
    if |weights.keys| == 0 || !NonNegative(weights.values) {
      return Err(BadWeights);
    }
    var table := EffectiveCapacities(weights, total, capacities);
    if table.keys != weights.keys {
      return Err(KeyMismatch);
    }
    var w, c := weights.values, table.values;
    if total > Sum(c) {
      return Err(ExceedsCapacity);
    }
    var positiveWeight := PositiveWeight(w, c);
    if total > 0 && positiveWeight <= 0.0 {
      return Err(NoPositiveWeight);
    }
    if (exists i :: 0 <= i < |c| && c[i] > 0) && positiveWeight == 0.0 {
      return Err(ZeroDivision);
    }
    var exact := Shares(w, c, total);
    FloorsFit(w, c, total);
    r := FillLargestDeficits(weights.keys, exact, c, total);
  }
}
