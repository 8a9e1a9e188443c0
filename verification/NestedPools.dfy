/** The nested R2E pools, the Verified quick panel and the proportional splits. */
module NestedPools {
  import opened Prelude
  import opened Sorting
  import opened Apportionment
  import opened RepoAllocators
  import opened TaskSelection

  datatype PoolError = InvalidRows | InvalidSizes | MissingComplexity | InvalidAlpha | TierSizeMismatch | NotNested

  /** A request that the greedy allocation cannot refuse. */
  predicate Grantable(w: seq<real>, c: seq<int>, total: int) {
    && |w| == |c| && |w| > 0
    && NonNegative(w)
    && (forall i :: 0 <= i < |c| ==> c[i] >= 0 && (c[i] > 0 ==> w[i] > 0.0))
    && 0 <= total <= Sum(c)
  }

  lemma GrantableNotRefused(keys: seq<Key>, w: seq<real>, c: seq<int>, total: int)
    requires Grantable(w, c, total) && |keys| == |w| && Ascending(keys)
    ensures Refusal(Table(keys, w), total, Table(keys, c)) == None
    ensures (exists i :: 0 <= i < |c| && c[i] > 0) ==> PositiveWeight(w, c) != 0.0
  {
    PositiveWeightSign(w, c);
    if forall i :: 0 <= i < |c| ==> c[i] <= 0 {
      NoPositiveCapacity(w, c);
    }
  }

  /** A granted allocation: fair, within capacity, and with no negative quota. */
  ghost predicate Granted(w: seq<real>, c: seq<int>, total: int, q: seq<int>) {
    && Grantable(w, c, total)
    && |q| == |c|
    && ((exists i :: 0 <= i < |c| && c[i] > 0) ==> PositiveWeight(w, c) != 0.0)
    && FairAllocation(Shares(w, c, total), c, total, q)
    && (forall i :: 0 <= i < |q| ==> 0 <= q[i] <= c[i])
    && Sum(q) == total
  }

  method Allocate(keys: seq<Key>, w: seq<real>, c: seq<int>, total: int) returns (q: seq<int>)
    requires Grantable(w, c, total) && |keys| == |w| && Ascending(keys)
    ensures Granted(w, c, total, q)
  {
    GrantableNotRefused(keys, w, c, total);
    var r := LargestRemainderQuotas(Table(keys, w), total, Some(Table(keys, c)));
    q := r.value.values;
    QuotasNonNegative(w, c, total, q);
  }

  // ---------------------------------------------------------------------
  // Complexity bins.

  function Numeric(v: int): int {
    if v < 0 then 0 else v
  }

  /** bisect_right: how many of the repository's rows are at most `v` in one field. */
  function AtMost(rows: seq<Row>, field: Complexity -> int, v: int): nat {
    if |rows| == 0 then 0
    else (if rows[0].complexity.Some? && Numeric(field(rows[0].complexity.value)) <= v then 1 else 0)
         + AtMost(rows[1..], field, v)
  }

  function Percentile(rows: seq<Row>, row: Row, field: Complexity -> int): real {
    if row.complexity.None? || |rows| == 0 then 0.0
    else AtMost(rows, field, Numeric(field(row.complexity.value))) as real / |rows| as real
  }

  /** The mean of the three within-repository percentiles; log1p is increasing and leaves them unchanged. */
  function Score(rows: seq<Row>, row: Row): real {
    (Percentile(rows, row, (c: Complexity) => c.files)
     + Percentile(rows, row, (c: Complexity) => c.functions)
     + Percentile(rows, row, (c: Complexity) => c.lines)) / 3.0
  }

  function ByScore(rows: seq<Row>, tie: TaskId -> int): (Row, Row) -> bool {
    (a: Row, b: Row) => Score(rows, a) < Score(rows, b)
                        || (Score(rows, a) == Score(rows, b) && tie(a.id) <= tie(b.id))
  }

  function ComplexityOrder(rows: seq<Row>, tie: TaskId -> int): seq<Row> {
    Sort(ByScore(rows, tie), rows)
  }

  function BinOf(index: nat, n: nat): nat
    requires index < n
  {
    var b := index * 4 / n;
    if b < 3 then b else 3
  }

  /** The rows of one bin, in the order in which the source collects them. */
  function BinRows(ordered: seq<Row>, b: nat, from: nat): seq<Row>
    requires from <= |ordered|
    decreases |ordered| - from
  {
    if from == |ordered| then []
    else (if BinOf(from, |ordered|) == b then [ordered[from]] else []) + BinRows(ordered, b, from + 1)
  }

  /** The first index whose bin is at least b. */
  function BinStart(b: nat, n: nat): nat {
    (b * n + 3) / 4
  }

  lemma QuarterBelowFour(index: nat, n: nat)
    requires index < n
    ensures index * 4 / n <= 3
  {
    var d := index * 4 / n;
    assert (d - 3) * n == d * n - 3 * n < n;
  }

  lemma BinOfBounds(index: nat, n: nat, b: nat)
    requires index < n && b <= 3
    ensures BinOf(index, n) == b <==> BinStart(b, n) <= index < BinStart(b + 1, n)
  {
    hide BinOf;
    BinOfIsQuotient(index, n);
    QuarterCeiling(b * n, index);
    QuarterCeiling((b + 1) * n, index);
    QuotientUnique(index * 4, n, BinOf(index, n), b);
  }

  lemma BinOfIsQuotient(index: nat, n: nat)
    requires index < n
    ensures BinOf(index, n) * n <= index * 4 < (BinOf(index, n) + 1) * n && BinOf(index, n) <= 3
  {
    QuarterBelowFour(index, n);
    QuotientBounds(index * 4, n, index * 4 / n);
  }

  lemma QuotientBounds(a: nat, n: nat, d: nat)
    requires n > 0 && d == a / n
    ensures d * n <= a < (d + 1) * n
  {
  }

  lemma QuotientUnique(a: nat, n: nat, d: nat, b: nat)
    requires d * n <= a < (d + 1) * n && d <= 3 && b <= 3
    ensures d == b <==> b * n <= a < (b + 1) * n
  {
    assert d == 0 || d == 1 || d == 2 || d == 3;
    assert b == 0 || b == 1 || b == 2 || b == 3;
  }

  lemma QuarterCeiling(m: nat, index: nat)
    ensures (m + 3) / 4 <= index <==> m <= index * 4
  {
  }

  lemma {:induction false} BinRowsSlice(ordered: seq<Row>, b: nat, from: nat)
    requires from <= |ordered| && b <= 3
    ensures var lo, hi := BinStart(b, |ordered|), BinStart(b + 1, |ordered|);
            0 <= lo <= hi <= |ordered|
            && BinRows(ordered, b, from) == if hi <= from then [] else ordered[(if from < lo then lo else from)..hi]
    decreases |ordered| - from
  {
    if from < |ordered| {
      BinRowsSlice(ordered, b, from + 1);
      BinOfBounds(from, |ordered|, b);
    }
  }

  function Bins(ordered: seq<Row>): (s: seq<seq<Row>>)
    ensures |s| == 4
  {
    [BinRows(ordered, 0, 0), BinRows(ordered, 1, 0), BinRows(ordered, 2, 0), BinRows(ordered, 3, 0)]
  }

  lemma FlattenPair(a: seq<Row>, rest: seq<seq<Row>>)
    ensures Flatten([a] + rest) == a + Flatten(rest)
    ensures Flatten([a]) == a
  {
    assert ([a] + rest)[1..] == rest && [a][1..] == [];
    assert a + [] == a;
  }

  lemma FlattenFour(a: seq<Row>, b: seq<Row>, c: seq<Row>, d: seq<Row>)
    ensures Flatten([a, b, c, d]) == a + (b + (c + d))
  {
    FlattenPair(a, [b, c, d]);
    FlattenPair(b, [c, d]);
    FlattenPair(c, [d]);
    FlattenPair(d, []);
    assert d + [] == d;
    assert [a] + [b, c, d] == [a, b, c, d] && [b] + [c, d] == [b, c, d] && [c] + [d] == [c, d] && [d] + [] == [d];
  }

  /** The distances between the bin starts, without the rows. */
  lemma BinWidths(n: nat)
    ensures 0 <= BinStart(1, n) <= BinStart(2, n) <= BinStart(3, n) <= n
    ensures n / 4 <= BinStart(1, n) <= n / 4 + 1
    ensures n / 4 <= BinStart(2, n) - BinStart(1, n) <= n / 4 + 1
    ensures n / 4 <= BinStart(3, n) - BinStart(2, n) <= n / 4 + 1
    ensures n / 4 <= n - BinStart(3, n) <= n / 4 + 1
  {
  }

  lemma CutInFour(ordered: seq<Row>, a: nat, b: nat, c: nat)
    requires a <= b <= c <= |ordered|
    ensures Flatten([ordered[..a], ordered[a..b], ordered[b..c], ordered[c..]]) == ordered
  {
    FlattenFour(ordered[..a], ordered[a..b], ordered[b..c], ordered[c..]);
    assert ordered[b..c] + ordered[c..] == ordered[b..];
    assert ordered[a..b] + ordered[b..] == ordered[a..];
    assert ordered[..a] + ordered[a..] == ordered;
  }

  /** Consecutive pieces between the bin starts rebuild the order and are equally long up to one row. */
  lemma PiecesBalanced(ordered: seq<Row>, s: seq<seq<Row>>)
    requires |s| == 4
    requires BinStart(1, |ordered|) <= BinStart(2, |ordered|) <= BinStart(3, |ordered|) <= |ordered|
    requires s[0] == ordered[..BinStart(1, |ordered|)]
    requires s[1] == ordered[BinStart(1, |ordered|)..BinStart(2, |ordered|)]
    requires s[2] == ordered[BinStart(2, |ordered|)..BinStart(3, |ordered|)]
    requires s[3] == ordered[BinStart(3, |ordered|)..]
    ensures Flatten(s) == ordered
    ensures forall a, b :: 0 <= a < 4 && 0 <= b < 4 ==> |s[a]| <= |s[b]| + 1
  {
    hide BinStart, Flatten;
    var n := |ordered|;
    BinWidths(n);
    CutInFour(ordered, BinStart(1, n), BinStart(2, n), BinStart(3, n));
    assert s == [s[0], s[1], s[2], s[3]];
    assert forall a :: 0 <= a < 4 ==> n / 4 <= |s[a]| <= n / 4 + 1;
  }

  lemma BinEnds(n: nat)
    ensures BinStart(0, n) == 0 && BinStart(4, n) == n
  {
  }

  /** The four bins cut the complexity order into consecutive pieces whose sizes differ by at most one. */
  lemma BinsBalanced(ordered: seq<Row>)
    ensures Flatten(Bins(ordered)) == ordered
    ensures forall a, b :: 0 <= a < 4 && 0 <= b < 4 ==> |Bins(ordered)[a]| <= |Bins(ordered)[b]| + 1
  {
    hide BinStart, BinRows;
    BinRowsSlice(ordered, 0, 0);
    BinRowsSlice(ordered, 1, 0);
    BinRowsSlice(ordered, 2, 0);
    BinRowsSlice(ordered, 3, 0);
    BinEnds(|ordered|);
    PiecesBalanced(ordered, Bins(ordered));
  }

  lemma ScoreOrder(rows: seq<Row>, tie: TaskId -> int)
    ensures TotalOrder(ByScore(rows, tie))
  {
    hide Score;
  }

  lemma BinOfAtMost(index: nat, n: nat)
    requires index < n
    ensures BinOf(index, n) <= 3
  {
  }

  lemma BinStartMonotone(a: nat, b: nat, n: nat)
    requires a <= b
    ensures BinStart(a, n) <= BinStart(b, n)
  {
    assert a * n <= b * n;
  }

  ghost predicate NoLargerAt(row: Row, field: Complexity -> int, c: Complexity) {
    row.complexity.Some?
    && (field(row.complexity.value) <= field(c) || field(row.complexity.value) <= 0)
  }

  /** How many rows have a field no larger than it is here, negative values read as zero. */
  ghost function NoLarger(rows: seq<Row>, field: Complexity -> int, c: Complexity): nat {
    |set i | 0 <= i < |rows| && NoLargerAt(rows[i], field, c)|
  }

  /** The counts of the three fields together: where a row stands among the rows of its repository. */
  ghost function Standing(rows: seq<Row>, c: Complexity): nat {
    NoLarger(rows, (x: Complexity) => x.files, c)
    + NoLarger(rows, (x: Complexity) => x.functions, c)
    + NoLarger(rows, (x: Complexity) => x.lines, c)
  }

  lemma NoLargerSnoc(rows: seq<Row>, field: Complexity -> int, c: Complexity)
    requires |rows| > 0
    ensures var n := |rows| - 1;
            NoLarger(rows, field, c)
            == NoLarger(rows[..n], field, c) + if NoLargerAt(rows[n], field, c) then 1 else 0
  {
    hide NoLargerAt;
    var n := |rows| - 1;
    var all := set i | 0 <= i < |rows| && NoLargerAt(rows[i], field, c);
    var rest := set i | 0 <= i < |rows[..n]| && NoLargerAt(rows[..n][i], field, c);
    assert forall i :: 0 <= i < n ==> rows[..n][i] == rows[i];
    if NoLargerAt(rows[n], field, c) {
      assert all == rest + {n};
    } else {
      assert all == rest;
    }
  }

  lemma {:induction false} AtMostCounts(rows: seq<Row>, field: Complexity -> int, c: Complexity)
    ensures AtMost(rows, field, Numeric(field(c))) == NoLarger(rows, field, c)
  {
    if |rows| > 0 {
      hide NoLarger;
      AtMostCounts(rows[..|rows| - 1], field, c);
      AtMostSnoc(rows, field, Numeric(field(c)));
      NoLargerSnoc(rows, field, c);
    }
  }

  lemma {:induction false} AtMostSnoc(rows: seq<Row>, field: Complexity -> int, v: int)
    requires |rows| > 0
    ensures var last := rows[|rows| - 1].complexity;
            AtMost(rows, field, v) == AtMost(rows[..|rows| - 1], field, v)
                                      + if last.Some? && Numeric(field(last.value)) <= v then 1 else 0
  {
    if |rows| > 1 {
      AtMostSnoc(rows[1..], field, v);
      assert rows[..|rows| - 1][1..] == rows[1..][..|rows[1..]| - 1];
    }
  }

  lemma PercentileCounts(rows: seq<Row>, row: Row, field: Complexity -> int)
    requires |rows| > 0 && row.complexity.Some?
    ensures |rows| as real * Percentile(rows, row, field) == NoLarger(rows, field, row.complexity.value) as real
  {
    AtMostCounts(rows, field, row.complexity.value);
  }

  /** The score is a third of the standing, relative to the number of rows. */
  lemma ScoreIsStanding(rows: seq<Row>, row: Row)
    requires |rows| > 0 && row.complexity.Some?
    ensures 3.0 * (|rows| as real * Score(rows, row)) == Standing(rows, row.complexity.value) as real
  {
    hide Percentile, NoLarger;
    var files, functions, lines :=
      (x: Complexity) => x.files, (x: Complexity) => x.functions, (x: Complexity) => x.lines;
    PercentileCounts(rows, row, files);
    PercentileCounts(rows, row, functions);
    PercentileCounts(rows, row, lines);
    ThirdOfSum(|rows| as real, Percentile(rows, row, files), Percentile(rows, row, functions),
               Percentile(rows, row, lines));
  }

  lemma ThirdOfSum(n: real, a: real, b: real, c: real)
    ensures 3.0 * (n * ((a + b + c) / 3.0)) == n * a + n * b + n * c
  {
  }

  lemma ScoreComparesStanding(rows: seq<Row>, a: Row, b: Row)
    requires |rows| > 0 && a.complexity.Some? && b.complexity.Some?
    ensures Score(rows, a) <= Score(rows, b)
            <==> Standing(rows, a.complexity.value) <= Standing(rows, b.complexity.value)
  {
    hide Score, Standing;
    ScoreIsStanding(rows, a);
    ScoreIsStanding(rows, b);
    ScalingKeepsOrder(|rows| as real, Score(rows, a), Score(rows, b));
  }

  lemma ScalingKeepsOrder(n: real, x: real, y: real)
    requires n > 0.0
    ensures 3.0 * (n * x) <= 3.0 * (n * y) <==> x <= y
  {
    if x <= y {
      assert n * (y - x) >= 0.0;
    } else {
      assert n * (x - y) > 0.0;
    }
  }

  /** No row of a later bin scores or stands below a row of an earlier one. */
  lemma BinsFollowScore(rows: seq<Row>, tie: TaskId -> int, i: nat, j: nat)
    requires i < |rows| && j < |rows|
    requires BinOf(i, |rows|) < BinOf(j, |rows|)
    ensures |ComplexityOrder(rows, tie)| == |rows|
    ensures var x, y := ComplexityOrder(rows, tie)[i], ComplexityOrder(rows, tie)[j];
            && Score(rows, x) <= Score(rows, y)
            && (x.complexity.Some? && y.complexity.Some?
                ==> Standing(rows, x.complexity.value) <= Standing(rows, y.complexity.value))
  {
    hide BinStart, BinOf, Score, Standing;
    var le := ByScore(rows, tie);
    SortCorrect(le, rows);
    BinOfAtMost(i, |rows|);
    BinOfAtMost(j, |rows|);
    BinOfBounds(i, |rows|, BinOf(i, |rows|));
    BinOfBounds(j, |rows|, BinOf(j, |rows|));
    BinStartMonotone(BinOf(i, |rows|) + 1, BinOf(j, |rows|), |rows|);
    ScoreOrder(rows, tie);
    assert i < j;
    var x, y := ComplexityOrder(rows, tie)[i], ComplexityOrder(rows, tie)[j];
    assert le(x, y);
    if x.complexity.Some? && y.complexity.Some? {
      ScoreComparesStanding(rows, x, y);
    }
  }

  /** At most as large in all three fields and smaller in one, negative values read as zero. */
  predicate Simpler(a: Complexity, b: Complexity) {
    && (a.files <= b.files || a.files <= 0)
    && (a.functions <= b.functions || a.functions <= 0)
    && (a.lines <= b.lines || a.lines <= 0)
    && ((0 < b.files && a.files < b.files) || (0 < b.functions && a.functions < b.functions)
        || (0 < b.lines && a.lines < b.lines))
  }

  lemma NoLargerGrows(rows: seq<Row>, field: Complexity -> int, a: Complexity, b: Complexity, j: nat)
    requires field(a) <= field(b) || field(a) <= 0
    requires j < |rows| && rows[j].complexity == Some(b)
    ensures NoLarger(rows, field, a) <= NoLarger(rows, field, b)
    ensures 0 < field(b) && field(a) < field(b) ==> NoLarger(rows, field, a) < NoLarger(rows, field, b)
  {
    var small := set i | 0 <= i < |rows| && NoLargerAt(rows[i], field, a);
    var large := set i | 0 <= i < |rows| && NoLargerAt(rows[i], field, b);
    assert small <= large;
    SubsetSize(small, large);
    if 0 < field(b) && field(a) < field(b) {
      assert j in large && j !in small;
      SubsetSize(small, large - {j});
    }
  }

  lemma {:induction false} SubsetSize(a: set<int>, b: set<int>)
    requires a <= b
    ensures |a| <= |b|
  {
    assert b == a + (b - a);
  }

  lemma SimplerStandsLower(rows: seq<Row>, a: Row, b: Row)
    requires a.complexity.Some? && b.complexity.Some? && b in rows
    requires Simpler(a.complexity.value, b.complexity.value)
    ensures Standing(rows, a.complexity.value) < Standing(rows, b.complexity.value)
  {
    hide NoLarger;
    var j :| 0 <= j < |rows| && rows[j] == b;
    NoLargerGrows(rows, (x: Complexity) => x.files, a.complexity.value, b.complexity.value, j);
    NoLargerGrows(rows, (x: Complexity) => x.functions, a.complexity.value, b.complexity.value, j);
    NoLargerGrows(rows, (x: Complexity) => x.lines, a.complexity.value, b.complexity.value, j);
  }

  /** A repository's rows by ascending standing, ties by rank. */
  ghost predicate InComplexityOrder(rows: seq<Row>, tie: TaskId -> int, ordered: seq<Row>) {
    && multiset(ordered) == multiset(rows)
    && (forall i :: 0 <= i < |ordered| ==> ordered[i].complexity.Some?)
    && forall i, j :: 0 <= i < j < |ordered| ==>
         var a, b := Standing(rows, ordered[i].complexity.value), Standing(rows, ordered[j].complexity.value);
         a < b || (a == b && tie(ordered[i].id) <= tie(ordered[j].id))
  }

  /** Four consecutive pieces of the complexity order: a row at position p of n is in piece 4p / n. */
  ghost predicate Quartered(rows: seq<Row>, tie: TaskId -> int, bins: seq<seq<Row>>) {
    && |bins| == 4
    && InComplexityOrder(rows, tie, Flatten(bins))
    && forall b :: 0 <= b <= 4 ==> |Flatten(bins[..b])| == (b * |rows| + 3) / 4
  }

  lemma OrderFollowsStanding(rows: seq<Row>, tie: TaskId -> int)
    requires forall r :: r in rows ==> r.complexity.Some?
    ensures InComplexityOrder(rows, tie, ComplexityOrder(rows, tie))
  {
    hide Score, Standing;
    var le, ordered := ByScore(rows, tie), ComplexityOrder(rows, tie);
    SortCorrect(le, rows);
    ScoreOrder(rows, tie);
    forall i | 0 <= i < |ordered|
      ensures ordered[i].complexity.Some?
    {
      assert ordered[i] in multiset(ordered);
    }
    forall i, j | 0 <= i < j < |ordered|
      ensures var a, b := Standing(rows, ordered[i].complexity.value), Standing(rows, ordered[j].complexity.value);
              a < b || (a == b && tie(ordered[i].id) <= tie(ordered[j].id))
    {
      assert le(ordered[i], ordered[j]);
      ScoreComparesStanding(rows, ordered[i], ordered[j]);
      ScoreComparesStanding(rows, ordered[j], ordered[i]);
    }
  }

  lemma PieceStarts(ordered: seq<Row>, b: nat)
    requires b <= 4
    ensures |Flatten(Bins(ordered)[..b])| == BinStart(b, |ordered|)
  {
    hide BinRows, BinStart;
    BinEnds(|ordered|);
    if b > 0 {
      PieceStarts(ordered, b - 1);
      BinRowsSlice(ordered, b - 1, 0);
      var bins := Bins(ordered);
      assert bins[..b] == bins[..b - 1] + [bins[b - 1]];
      FlattenAppend(bins[..b - 1], [bins[b - 1]]);
      FlattenPair(bins[b - 1], []);
    }
  }

  lemma BinsQuarter(rows: seq<Row>, tie: TaskId -> int)
    requires forall r :: r in rows ==> r.complexity.Some?
    ensures Quartered(rows, tie, Bins(ComplexityOrder(rows, tie)))
  {
    hide Bins, ComplexityOrder, InComplexityOrder, ByScore;
    var ordered := ComplexityOrder(rows, tie);
    OrderFollowsStanding(rows, tie);
    BinsBalanced(ordered);
    assert |ordered| == |rows| by {
      OrderLength(rows, tie);
    }
    forall b | 0 <= b <= 4
      ensures |Flatten(Bins(ordered)[..b])| == (b * |rows| + 3) / 4
    {
      PieceStarts(ordered, b);
    }
  }

  lemma OrderLength(rows: seq<Row>, tie: TaskId -> int)
    ensures |ComplexityOrder(rows, tie)| == |rows|
  {
    SortCorrect(ByScore(rows, tie), rows);
  }

  /** No row of a later bin is simpler than a row of an earlier one. */
  lemma BinsFollowComplexity(rows: seq<Row>, tie: TaskId -> int, bins: seq<seq<Row>>, a: nat, b: nat, x: Row, y: Row)
    requires Quartered(rows, tie, bins) && a < b < 4 && x in bins[a] && y in bins[b]
    ensures x.complexity.Some? && y.complexity.Some? && !Simpler(y.complexity.value, x.complexity.value)
  {
    hide Standing, Simpler;
    var ordered := Flatten(bins);
    assert bins == bins[..b] + bins[b..];
    FlattenAppend(bins[..b], bins[b..]);
    FlattenMember(bins[..b], a, x);
    FlattenMember(bins[b..], 0, y);
    var i :| 0 <= i < |Flatten(bins[..b])| && Flatten(bins[..b])[i] == x;
    var j :| 0 <= j < |Flatten(bins[b..])| && Flatten(bins[b..])[j] == y;
    assert ordered[i] == x && ordered[|Flatten(bins[..b])| + j] == y;
    assert x in multiset(ordered);
    if Simpler(y.complexity.value, x.complexity.value) {
      SimplerStandsLower(rows, y, x);
    }
  }

  // ---------------------------------------------------------------------
  // Validation of source rows.

  predicate ValidRows(rows: seq<Row>) {
    DistinctIds(rows) && forall r :: r in rows ==> r.hasStatement && r.hasImage
  }

  method ValidateSourceRows(rows: seq<Row>) returns (r: Result<seq<Row>, PoolError>)
    ensures r == if ValidRows(rows) then Ok(rows) else Err(InvalidRows)
    ensures r == Ok(rows)
            <==> (forall i, j :: 0 <= i < j < |rows| ==> rows[i].id != rows[j].id)
                 && forall i :: 0 <= i < |rows| ==> rows[i].hasStatement && rows[i].hasImage
  {
    var validated: seq<Row> := [];
    var seen: set<TaskId> := {};
    for i := 0 to |rows|
      invariant validated == rows[..i] && seen == Ids(rows[..i])
      invariant ValidRows(rows[..i])
    {
      var row := rows[i];
      assert row in rows;
      if row.id in seen {
        var p :| p in rows[..i] && p.id == row.id;
        assert exists k :: 0 <= k < i && rows[k] == p;
        return Err(InvalidRows);
      }
      if !row.hasStatement || !row.hasImage {
        return Err(InvalidRows);
      }
      assert rows[..i + 1] == rows[..i] + [row];
      assert forall k :: 0 <= k < i ==> rows[k] in rows[..i];
      seen := seen + {row.id};
      validated := validated + [row];
    }
    assert rows[..|rows|] == rows;
    return Ok(validated);
  }

  // ---------------------------------------------------------------------
  // The nested pools.

  /** Quotas are per repository, bin quotas per repository and complexity bin, four to each repository in turn. */
  datatype Subsets = Subsets(small: seq<Row>, large: seq<Row>, smallQuotas: seq<int>, largeQuotas: seq<int>,
                             smallBins: seq<int>, largeBins: seq<int>)

  function Weights(sizes: seq<int>, alpha: real, power: (int, real) -> real): (w: seq<real>)
    ensures |w| == |sizes|
  {
    seq(|sizes|, i requires 0 <= i < |sizes| => power(sizes[i], alpha))
  }

  /** The strata of one repository together with the two nested quota lists. */
  ghost predicate NestedQuotas(strata: seq<seq<Row>>, small: seq<int>, large: seq<int>) {
    && QuotasFit(strata, small) && QuotasFit(strata, large)
    && forall i :: 0 <= i < |small| ==> small[i] <= large[i]
  }

  method BinQuotas(bins: seq<seq<Row>>, smallQuota: int, largeQuota: int)
    returns (small: seq<int>, large: seq<int>)
    requires |bins| == 4 && 0 <= smallQuota <= largeQuota <= Sum(Sizes(bins))
    ensures NestedQuotas(bins, small, large)
    ensures Sum(small) == smallQuota && Sum(large) == largeQuota
    ensures Granted(RealSizes(Sizes(bins)), Sizes(bins), largeQuota, large)
    ensures Granted(RealSizes(Sizes(bins)), large, smallQuota, small)
  {
    var sizes := Sizes(bins);
    var keys: seq<Key> := [0, 1, 2, 3];
    large := Allocate(keys, RealSizes(sizes), sizes, largeQuota);
    small := Allocate(keys, RealSizes(sizes), large, smallQuota);
  }

  /** The bins of one repository hold exactly its rows. */
  lemma BinsOfGroup(rows: seq<Row>, tie: TaskId -> int)
    ensures var bins := Bins(ComplexityOrder(rows, tie));
            multiset(Flatten(bins)) == multiset(rows) && Sum(Sizes(bins)) == |rows|
  {
    SortCorrect(ByScore(rows, tie), rows);
    BinsBalanced(ComplexityOrder(rows, tie));
    FlattenSize(Bins(ComplexityOrder(rows, tie)));
  }

  /** The complexity bins of all repositories, one repository after the other. */
  function AllBins(pool: seq<Row>, ks: seq<Key>, tie: TaskId -> int): (bins: seq<seq<Row>>)
    ensures |bins| == 4 * |ks|
  {
    if |ks| == 0 then []
    else AllBins(pool, ks[..|ks| - 1], tie) + Bins(ComplexityOrder(Group(pool, ks[|ks| - 1]), tie))
  }

  /** Each repository's four strata are the quarters of its complexity order. */
  lemma {:induction false} StrataQuartered(pool: seq<Row>, ks: seq<Key>, tie: TaskId -> int)
    requires forall r :: r in pool ==> r.complexity.Some?
    ensures forall i :: 0 <= i < |ks| ==>
              Quartered(Group(pool, ks[i]), tie, AllBins(pool, ks, tie)[4 * i..4 * i + 4])
  {
    hide Quartered, Bins, ComplexityOrder;
    if |ks| > 0 {
      var n := |ks| - 1;
      var before, last := AllBins(pool, ks[..n], tie), Bins(ComplexityOrder(Group(pool, ks[n]), tie));
      StrataQuartered(pool, ks[..n], tie);
      GroupContents(pool, ks[n]);
      BinsQuarter(Group(pool, ks[n]), tie);
      forall i | 0 <= i < |ks|
        ensures Quartered(Group(pool, ks[i]), tie, AllBins(pool, ks, tie)[4 * i..4 * i + 4])
      {
        if i < n {
          assert (before + last)[4 * i..4 * i + 4] == before[4 * i..4 * i + 4];
          assert ks[..n][i] == ks[i];
        } else {
          assert (before + last)[4 * n..4 * n + 4] == last;
        }
      }
    }
  }

  /** The bin quotas of one repository share out its two quotas, the smaller inside the larger. */
  ghost predicate BinsGranted(bins: seq<seq<Row>>, smallQuota: int, largeQuota: int, small: seq<int>, large: seq<int>) {
    && Granted(RealSizes(Sizes(bins)), Sizes(bins), largeQuota, large)
    && Granted(RealSizes(Sizes(bins)), large, smallQuota, small)
  }

  /** The bin quotas of the first n repositories. */
  ghost predicate StrataGranted(pool: seq<Row>, ks: seq<Key>, n: nat, tie: TaskId -> int, smallQuotas: seq<int>,
                                largeQuotas: seq<int>, small: seq<int>, large: seq<int>)
    requires n <= |ks| == |smallQuotas| == |largeQuotas|
  {
    && |small| == |large| == 4 * n
    && forall i :: 0 <= i < n ==>
         BinsGranted(Bins(ComplexityOrder(Group(pool, ks[i]), tie)), smallQuotas[i], largeQuotas[i],
                     small[4 * i..4 * i + 4], large[4 * i..4 * i + 4])
  }

  lemma StrataGrantedNext(pool: seq<Row>, ks: seq<Key>, n: nat, tie: TaskId -> int, smallQuotas: seq<int>,
                          largeQuotas: seq<int>, small: seq<int>, large: seq<int>, smallBins: seq<int>,
                              largeBins: seq<int>)
    requires n < |ks| == |smallQuotas| == |largeQuotas| && |smallBins| == |largeBins| == 4
    requires StrataGranted(pool, ks, n, tie, smallQuotas, largeQuotas, small, large)
    requires BinsGranted(Bins(ComplexityOrder(Group(pool, ks[n]), tie)), smallQuotas[n], largeQuotas[n],
        smallBins, largeBins)
    ensures StrataGranted(pool, ks, n + 1, tie, smallQuotas, largeQuotas, small + smallBins, large + largeBins)
    ensures AllBins(pool, ks[..n + 1], tie) == AllBins(pool, ks[..n], tie) + Bins(ComplexityOrder(Group(pool,
        ks[n]), tie))
  {
    hide BinsGranted, Bins, ComplexityOrder;
    assert ks[..n + 1][..n] == ks[..n];
    var s, l := small + smallBins, large + largeBins;
    forall i | 0 <= i < n + 1
      ensures BinsGranted(Bins(ComplexityOrder(Group(pool, ks[i]), tie)), smallQuotas[i], largeQuotas[i],
                          s[4 * i..4 * i + 4], l[4 * i..4 * i + 4])
    {
      if i < n {
        assert s[4 * i..4 * i + 4] == small[4 * i..4 * i + 4] && l[4 * i..4 * i + 4] == large[4 * i..4 * i + 4];
      } else {
        assert s[4 * i..4 * i + 4] == smallBins && l[4 * i..4 * i + 4] == largeBins;
      }
    }
  }

  /** What has been chosen after n repositories, as the picks behind the identifier set. */
  ghost predicate Progress(ks: seq<Key>, n: nat, picks: seq<Row>, repoQuotas: seq<int>, ids: set<TaskId>)
    requires n <= |ks| == |repoQuotas|
  {
    && ids == Ids(picks)
    && |picks| == Sum(repoQuotas[..n])
    && forall k :: 0 <= k < |ks| ==> |Group(picks, ks[k])| == if k < n then repoQuotas[k] else 0
  }

  lemma GroupsSnoc(pool: seq<Row>, ks: seq<Key>, n: nat)
    requires n < |ks|
    ensures Flatten(Groups(pool, ks[..n + 1])) == Flatten(Groups(pool, ks[..n])) + Group(pool, ks[n])
  {
    assert Groups(pool, ks[..n + 1]) == Groups(pool, ks[..n]) + [Group(pool, ks[n])];
    FlattenAppend(Groups(pool, ks[..n]), [Group(pool, ks[n])]);
    FlattenPair(Group(pool, ks[n]), []);
  }

  lemma GroupsGrow(pool: seq<Row>, ks: seq<Key>, n: nat, strata: seq<seq<Row>>, bins: seq<seq<Row>>)
    requires n < |ks|
    requires multiset(Flatten(strata)) == multiset(Flatten(Groups(pool, ks[..n])))
    requires multiset(Flatten(bins)) == multiset(Group(pool, ks[n]))
    ensures multiset(Flatten(strata + bins)) == multiset(Flatten(Groups(pool, ks[..n + 1])))
  {
    FlattenAppend(strata, bins);
    GroupsSnoc(pool, ks, n);
  }

  lemma PicksStayInRepo(pool: seq<Row>, k: Key, bins: seq<seq<Row>>, q: seq<int>, rank: TaskId -> int)
    requires multiset(Flatten(bins)) == multiset(Group(pool, k)) && QuotasFit(bins, q)
    ensures forall r :: r in Picks(bins, q, rank) ==> r.repo == k
    ensures |Picks(bins, q, rank)| == Sum(q)
  {
    PicksContents(bins, q, rank);
    GroupContents(pool, k);
    forall r | r in Picks(bins, q, rank)
      ensures r.repo == k
    {
      assert r in multiset(Picks(bins, q, rank)) && r in multiset(Flatten(bins)) && r in multiset(Group(pool, k));
    }
  }

  /** Adding one repository's picks to what has been chosen. */
  lemma ProgressStep(ks: seq<Key>, n: nat, before: seq<Row>, added: seq<Row>, repoQuotas: seq<int>, ids: set<TaskId>)
    requires n < |ks| == |repoQuotas| && Ascending(ks)
    requires Progress(ks, n, before, repoQuotas, ids)
    requires |added| == repoQuotas[n] && forall r :: r in added ==> r.repo == ks[n]
    ensures Progress(ks, n + 1, before + added, repoQuotas, ids + Ids(added))
  {
    SumAppend(repoQuotas[..n], [repoQuotas[n]]);
    assert repoQuotas[..n + 1] == repoQuotas[..n] + [repoQuotas[n]];
    CountsGrow(ks, n, before, added, repoQuotas);
    assert Ids(before + added) == Ids(before) + Ids(added);
  }

  lemma CountsGrow(ks: seq<Key>, n: nat, before: seq<Row>, added: seq<Row>, repoQuotas: seq<int>)
    requires n < |ks| == |repoQuotas| && Ascending(ks)
    requires forall k :: 0 <= k < |ks| ==> |Group(before, ks[k])| == if k < n then repoQuotas[k] else 0
    requires |added| == repoQuotas[n] && forall r :: r in added ==> r.repo == ks[n]
    ensures forall k :: 0 <= k < |ks| ==> |Group(before + added, ks[k])| == if k < n + 1 then repoQuotas[k] else 0
  {
    forall k | 0 <= k < |ks|
      ensures |Group(before + added, ks[k])| == if k < n + 1 then repoQuotas[k] else 0
    {
      GroupAppend(before, added, ks[k]);
      GroupOfOneRepo(added, ks[n], ks[k]);
    }
  }

  function Materialize(pool: seq<Row>, ids: set<TaskId>, order: TaskId -> int): seq<Row> {
    Sort(ByRank(order), Chosen(pool, ids))
  }

  /** Reordering distinct picks with the right repository counts gives a tier. */
  lemma TierFromPicks(pool: seq<Row>, picks: seq<Row>, quotas: seq<int>, tier: seq<Row>)
    requires DistinctIds(picks) && |picks| == Sum(quotas) && forall r :: r in picks ==> r in pool
    requires |quotas| == |Repos(pool)|
    requires forall k :: 0 <= k < |quotas| ==> |Group(picks, Repos(pool)[k])| == quotas[k]
    requires multiset(picks) == multiset(tier)
    ensures TierOf(pool, quotas, Ids(picks), tier)
  {
    SameRows(picks, tier);
    forall k | 0 <= k < |quotas|
      ensures |Group(tier, Repos(pool)[k])| == quotas[k]
    {
      GroupSizeInvariant(tier, picks, Repos(pool)[k]);
    }
  }

  /** Once every repository is processed, the identifier set names a tier of the requested size. */
  lemma TierComplete(pool: seq<Row>, strata: seq<seq<Row>>, quotas: seq<int>, repoQuotas: seq<int>,
                     rank: TaskId -> int, order: TaskId -> int, ids: set<TaskId>)
    requires DistinctIds(pool) && |repoQuotas| == |Repos(pool)|
    requires QuotasFit(strata, quotas)
    requires multiset(Flatten(strata)) == multiset(Flatten(Groups(pool, Repos(pool))))
    requires Progress(Repos(pool), |Repos(pool)|, Picks(strata, quotas, rank), repoQuotas, ids)
    ensures |ids| == Sum(repoQuotas) && ids == Ids(Picks(strata, quotas, rank))
    ensures TierOf(pool, repoQuotas, ids, Materialize(pool, ids, order))
    ensures RankedPicks(strata, quotas, rank, Materialize(pool, ids, order))
    ensures SortedBy(ByRank(order), Materialize(pool, ids, order))
  {
    assert TotalOrder(ByRank(order));
    var ks := Repos(pool);
    var picks := Picks(strata, quotas, rank);
    assert repoQuotas[..|ks|] == repoQuotas;
    GroupsPartition(pool);
    SameRows(pool, Flatten(strata));
    PicksSound(strata, quotas, rank);
    ChosenRestores(pool, picks);
    SortCorrect(ByRank(order), Chosen(pool, ids));
    TierFromPicks(pool, picks, repoQuotas, Materialize(pool, ids, order));
    PicksAreRanked(strata, quotas, rank, Materialize(pool, ids, order));
  }

  /** A tier: distinct pool rows with these identifiers, and the quota of every repository. */
  predicate TierOf(pool: seq<Row>, repoQuotas: seq<int>, ids: set<TaskId>, tier: seq<Row>) {
    && DistinctIds(tier) && Ids(tier) == ids && |tier| == Sum(repoQuotas)
    && (forall r :: r in tier ==> r in pool)
    && |repoQuotas| == |Repos(pool)|
    && (forall k :: 0 <= k < |repoQuotas| ==> |Group(tier, Repos(pool)[k])| == repoQuotas[k])
  }

  lemma WeightsPositive(sizes: seq<int>, c: seq<int>, alpha: real, power: (int, real) -> real, total: int)
    requires |sizes| == |c| && |sizes| > 0 && forall i :: 0 <= i < |sizes| ==> sizes[i] >= 1 && c[i] >= 0
    requires forall n :: n >= 1 ==> power(n, alpha) > 0.0
    requires 0 <= total <= Sum(c)
    ensures Grantable(Weights(sizes, alpha, power), c, total)
  {
  }

  lemma TierNames(pool: seq<Row>, quotas: seq<int>, ids: set<TaskId>, tier: seq<Row>)
    requires TierOf(pool, quotas, ids, tier)
    ensures Ids(tier) == ids && |tier| == Sum(quotas)
  {
  }

  /** The groups' sizes and the temperature weights, repository by repository. */
  lemma RepoWeights(pool: seq<Row>, ks: seq<Key>, alpha: real, power: (int, real) -> real)
    ensures Sizes(Groups(pool, ks)) == seq(|ks|, i requires 0 <= i < |ks| => |Group(pool, ks[i])|)
    ensures Weights(Sizes(Groups(pool, ks)), alpha, power)
         == seq(|ks|, i requires 0 <= i < |ks| => power(|Group(pool, ks[i])|, alpha))
  {
  }

  /**
   * Nested pools. The assertion errors about tier sizes and nesting never
   * occur: a valid request always yields exactly the requested sizes.
   */
  method BuildNestedSubsets(rows: seq<Row>, smallSize: int, largeSize: int, alpha: real, power: (int, real) -> real,
                            rank: TaskId -> int, tie: TaskId -> int, smallOrder: TaskId -> int,
                                largeOrder: TaskId -> int)
    returns (r: Result<Subsets, PoolError>)
    requires forall n :: n >= 1 ==> power(n, alpha) > 0.0
    ensures r.Err? ==> r.error in {InvalidRows, InvalidSizes, MissingComplexity, InvalidAlpha}
    ensures r.Ok? <==> DistinctIds(rows) && 0 < smallSize <= largeSize <= |rows| && 0.0 <= alpha <= 1.0
                       && forall row :: row in rows ==> row.hasStatement && row.hasImage && row.complexity.Some?
    ensures r.Ok? ==>
              var s := r.value;
              var ks, strata := Repos(rows), AllBins(rows, Repos(rows), tie);
              var sizes := seq(|ks|, i requires 0 <= i < |ks| => |Group(rows, ks[i])|);
              var weights := seq(|ks|, i requires 0 <= i < |ks| => power(|Group(rows, ks[i])|, alpha));
              && |s.small| == smallSize && |s.large| == largeSize && Ids(s.small) <= Ids(s.large)
              && TierOf(rows, s.smallQuotas, Ids(s.small), s.small)
              && TierOf(rows, s.largeQuotas, Ids(s.large), s.large)
              && Granted(weights, sizes, largeSize, s.largeQuotas)
              && Granted(weights, s.largeQuotas, smallSize, s.smallQuotas)
              && (forall i :: 0 <= i < |ks| ==> Quartered(Group(rows, ks[i]), tie, strata[4 * i..4 * i + 4]))
              && StrataGranted(rows, ks, |ks|, tie, s.smallQuotas, s.largeQuotas, s.smallBins, s.largeBins)
              && NestedQuotas(strata, s.smallBins, s.largeBins)
              && RankedPicks(strata, s.smallBins, rank, s.small) && SortedBy(ByRank(smallOrder), s.small)
              && RankedPicks(strata, s.largeBins, rank, s.large) && SortedBy(ByRank(largeOrder), s.large)
  {
    hide Quartered, StrataGranted, RankedPicks, TierOf, Materialize, AllBins, Weights, FairAllocation, Shares, SortedBy;
    var validated := ValidateSourceRows(rows);
    if validated.Err? {
      return Err(validated.error);
    }
    var pool := validated.value;
    if !(0 < smallSize <= largeSize <= |pool|) {
      return Err(InvalidSizes);
    }
    if exists row :: row in pool && row.complexity.None? {
      return Err(MissingComplexity);
    }
    if !(0.0 <= alpha <= 1.0) {
      return Err(InvalidAlpha);
    }
    GroupsPartition(pool);
    var ks := Repos(pool);
    assert |ks| > 0;
    var sizes := Sizes(Groups(pool, ks));
    var weights := Weights(sizes, alpha, power);
    WeightsPositive(sizes, sizes, alpha, power, largeSize);
    var largeQuotas := Allocate(ks, weights, sizes, largeSize);
    WeightsPositive(sizes, largeQuotas, alpha, power, smallSize);
    var smallQuotas := Allocate(ks, weights, largeQuotas, smallSize);
    var smallIds, largeIds, smallBins, largeBins :=
      CollectIds(pool, ks, smallQuotas, largeQuotas, rank, tie, smallOrder, largeOrder);
    if |smallIds| != smallSize || |largeIds| != largeSize {
      return Err(TierSizeMismatch);
    }
    if !(smallIds <= largeIds) {
      return Err(NotNested);
    }
    StrataQuartered(pool, ks, tie);
    RepoWeights(pool, ks, alpha, power);
    var small, large := Materialize(pool, smallIds, smallOrder), Materialize(pool, largeIds, largeOrder);
    TierNames(pool, smallQuotas, smallIds, small);
    TierNames(pool, largeQuotas, largeIds, large);
    return Ok(Subsets(small, large, smallQuotas, largeQuotas, smallBins, largeBins));
  }

  method CollectBins(bins: seq<seq<Row>>, smallBins: seq<int>, largeBins: seq<int>, rank: TaskId -> int,
                     smallBefore: set<TaskId>, largeBefore: set<TaskId>)
    returns (smallIds: set<TaskId>, largeIds: set<TaskId>)
    requires |bins| == 4 && NestedQuotas(bins, smallBins, largeBins)
    ensures smallIds == smallBefore + Ids(Picks(bins, smallBins, rank))
    ensures largeIds == largeBefore + Ids(Picks(bins, largeBins, rank))
  {
    smallIds, largeIds := smallBefore, largeBefore;
    for index := 0 to 4
      invariant smallIds == smallBefore + Ids(Picks(bins[..index], smallBins[..index], rank))
      invariant largeIds == largeBefore + Ids(Picks(bins[..index], largeBins[..index], rank))
    {
      var smallSelected := Pick(bins[index], smallBins[index], rank);
      var largeSelected := Pick(bins[index], largeBins[index], rank);
      PicksSnoc(bins, smallBins, index, rank);
      PicksSnoc(bins, largeBins, index, rank);
      smallIds := smallIds + Ids(smallSelected);
      largeIds := largeIds + Ids(largeSelected);
    }
    assert bins[..4] == bins && smallBins[..4] == smallBins && largeBins[..4] == largeBins;
  }

  lemma NestedAppend(strata: seq<seq<Row>>, small: seq<int>, large: seq<int>, bins: seq<seq<Row>>,
                     smallBins: seq<int>, largeBins: seq<int>, rank: TaskId -> int)
    requires NestedQuotas(strata, small, large) && NestedQuotas(bins, smallBins, largeBins)
    ensures NestedQuotas(strata + bins, small + smallBins, large + largeBins)
    ensures Picks(strata + bins, small + smallBins, rank) == Picks(strata, small, rank) + Picks(bins, smallBins, rank)
    ensures Picks(strata + bins, large + largeBins, rank) == Picks(strata, large, rank) + Picks(bins, largeBins, rank)
  {
    PicksAppend(strata, small, bins, smallBins, rank);
    PicksAppend(strata, large, bins, largeBins, rank);
    PointwiseAppend(small, smallBins, large, largeBins);
  }

  lemma PointwiseAppend(a: seq<int>, b: seq<int>, c: seq<int>, d: seq<int>)
    requires |a| == |c| && |b| == |d|
    requires (forall i :: 0 <= i < |a| ==> a[i] <= c[i]) && (forall i :: 0 <= i < |b| ==> b[i] <= d[i])
    ensures forall i :: 0 <= i < |a + b| ==> (a + b)[i] <= (c + d)[i]
  {
  }

  /** One turn of the loop over repositories. */
  method CollectRepo(pool: seq<Row>, repo: Key, smallQuota: int, largeQuota: int, rank: TaskId -> int,
                     tie: TaskId -> int, smallBefore: set<TaskId>, largeBefore: set<TaskId>)
    returns (smallIds: set<TaskId>, largeIds: set<TaskId>, ghost bins: seq<seq<Row>>, smallBins: seq<int>,
             largeBins: seq<int>)
    requires 0 <= smallQuota <= largeQuota <= |Group(pool, repo)|
    ensures bins == Bins(ComplexityOrder(Group(pool, repo), tie)) && NestedQuotas(bins, smallBins, largeBins)
    ensures BinsGranted(bins, smallQuota, largeQuota, smallBins, largeBins) && |smallBins| == |largeBins| == 4
    ensures multiset(Flatten(bins)) == multiset(Group(pool, repo))
    ensures smallIds == smallBefore + Ids(Picks(bins, smallBins, rank)) && |Picks(bins, smallBins, rank)| == smallQuota
    ensures largeIds == largeBefore + Ids(Picks(bins, largeBins, rank)) && |Picks(bins, largeBins, rank)| == largeQuota
    ensures forall r :: r in Picks(bins, smallBins, rank) || r in Picks(bins, largeBins, rank) ==> r.repo == repo
  {
    var group := Group(pool, repo);
    var strata := Bins(ComplexityOrder(group, tie));
    BinsOfGroup(group, tie);
    var small, large := BinQuotas(strata, smallQuota, largeQuota);
    smallIds, largeIds := CollectBins(strata, small, large, rank, smallBefore, largeBefore);
    bins, smallBins, largeBins := strata, small, large;
    PicksStayInRepo(pool, repo, bins, smallBins, rank);
    PicksStayInRepo(pool, repo, bins, largeBins, rank);
  }

  lemma NothingCollected(pool: seq<Row>, ks: seq<Key>, rank: TaskId -> int, tie: TaskId -> int, smallQuotas: seq<int>,
                         largeQuotas: seq<int>)
    requires |smallQuotas| == |largeQuotas| == |ks|
    ensures NestedQuotas([], [], []) && Picks([], [], rank) == [] && AllBins(pool, ks[..0], tie) == []
    ensures Flatten([]) == Flatten(Groups(pool, ks[..0]))
    ensures Progress(ks, 0, [], smallQuotas, {}) && Progress(ks, 0, [], largeQuotas, {})
    ensures StrataGranted(pool, ks, 0, tie, smallQuotas, largeQuotas, [], [])
  {
    assert Groups(pool, ks[..0]) == [];
  }

  method CollectIds(pool: seq<Row>, ks: seq<Key>, smallQuotas: seq<int>, largeQuotas: seq<int>, rank: TaskId -> int,
                    tie: TaskId -> int, ghost smallOrder: TaskId -> int, ghost largeOrder: TaskId -> int)
    returns (smallIds: set<TaskId>, largeIds: set<TaskId>, small: seq<int>, large: seq<int>)
    requires DistinctIds(pool) && ks == Repos(pool) && |smallQuotas| == |largeQuotas| == |ks| && Ascending(ks)
    requires forall i :: 0 <= i < |ks| ==> 0 <= smallQuotas[i] <= largeQuotas[i] <= |Group(pool, ks[i])|
    ensures smallIds <= largeIds && |smallIds| == Sum(smallQuotas) && |largeIds| == Sum(largeQuotas)
    ensures TierOf(pool, smallQuotas, smallIds, Materialize(pool, smallIds, smallOrder))
    ensures TierOf(pool, largeQuotas, largeIds, Materialize(pool, largeIds, largeOrder))
    ensures StrataGranted(pool, ks, |ks|, tie, smallQuotas, largeQuotas, small, large)
    ensures var strata := AllBins(pool, ks, tie);
            && NestedQuotas(strata, small, large)
            && RankedPicks(strata, small, rank, Materialize(pool, smallIds, smallOrder))
            && RankedPicks(strata, large, rank, Materialize(pool, largeIds, largeOrder))
    ensures SortedBy(ByRank(smallOrder), Materialize(pool, smallIds, smallOrder))
    ensures SortedBy(ByRank(largeOrder), Materialize(pool, largeIds, largeOrder))
  {
    hide BinsGranted, Bins, ComplexityOrder, Materialize, Group, Groups, Progress, StrataGranted, AllBins,
        Picks, QuotasFit,
         TierOf, RankedPicks, Flatten;
    smallIds, largeIds, small, large := {}, {}, [], [];
    ghost var strata: seq<seq<Row>> := [];
    NothingCollected(pool, ks, rank, tie, smallQuotas, largeQuotas);
    ghost var smallPicks: seq<Row>, largePicks: seq<Row> := [], [];
    for n := 0 to |ks|
      invariant strata == AllBins(pool, ks[..n], tie) && NestedQuotas(strata, small, large)
      invariant StrataGranted(pool, ks, n, tie, smallQuotas, largeQuotas, small, large)
      invariant multiset(Flatten(strata)) == multiset(Flatten(Groups(pool, ks[..n])))
      invariant smallPicks == Picks(strata, small, rank) && largePicks == Picks(strata, large, rank)
      invariant Progress(ks, n, smallPicks, smallQuotas, smallIds)
      invariant Progress(ks, n, largePicks, largeQuotas, largeIds)
    {
      ghost var smallIdsBefore, largeIdsBefore := smallIds, largeIds;
      ghost var bins;
      var smallBins, largeBins;
      smallIds, largeIds, bins, smallBins, largeBins :=
        CollectRepo(pool, ks[n], smallQuotas[n], largeQuotas[n], rank, tie, smallIds, largeIds);
      GroupsGrow(pool, ks, n, strata, bins);
      ProgressStep(ks, n, smallPicks, Picks(bins, smallBins, rank), smallQuotas, smallIdsBefore);
      ProgressStep(ks, n, largePicks, Picks(bins, largeBins, rank), largeQuotas, largeIdsBefore);
      NestedAppend(strata, small, large, bins, smallBins, largeBins, rank);
      StrataGrantedNext(pool, ks, n, tie, smallQuotas, largeQuotas, small, large, smallBins, largeBins);
      smallPicks, largePicks := smallPicks + Picks(bins, smallBins, rank), largePicks + Picks(bins, largeBins, rank);
      strata, small, large := strata + bins, small + smallBins, large + largeBins;
    }
    assert ks[..|ks|] == ks;
    PicksNested(strata, small, large, rank);
    TierComplete(pool, strata, small, smallQuotas, rank, smallOrder, smallIds);
    TierComplete(pool, strata, large, largeQuotas, rank, largeOrder, largeIds);
  }

  lemma PicksSnoc(strata: seq<seq<Row>>, quotas: seq<int>, n: nat, rank: TaskId -> int)
    requires QuotasFit(strata, quotas) && n < |strata|
    ensures QuotasFit(strata[..n], quotas[..n]) && QuotasFit(strata[..n + 1], quotas[..n + 1])
    ensures Ids(Picks(strata[..n + 1], quotas[..n + 1], rank))
         == Ids(Picks(strata[..n], quotas[..n], rank)) + Ids(Pick(strata[n], quotas[n], rank))
  {
    assert strata[..n + 1] == strata[..n] + [strata[n]] && quotas[..n + 1] == quotas[..n] + [quotas[n]];
    PicksAppend(strata[..n], quotas[..n], [strata[n]], [quotas[n]], rank);
    assert Picks([strata[n]], [quotas[n]], rank) == Pick(strata[n], quotas[n], rank);
  }

  /** The loop shared by the quick panel and the proportional splits. */
  method TakeFromGroups(groups: seq<seq<Row>>, quotas: seq<int>, rank: TaskId -> int) returns (selected: seq<Row>)
    requires QuotasFit(groups, quotas)
    ensures selected == Picks(groups, quotas, rank)
  {
    selected := [];
    for n := 0 to |groups|
      invariant selected + Picks(groups[n..], quotas[n..], rank) == Picks(groups, quotas, rank)
    {
      assert groups[n..][1..] == groups[n + 1..] && quotas[n..][1..] == quotas[n + 1..];
      selected := selected + Pick(groups[n], quotas[n], rank);
    }
  }

  /**
   * The picks of all repositories in some order. With distinct identifiers they
   * are a tier of exactly the best-ranked rows of each repository.
   */
  ghost predicate RankedSelection(rows: seq<Row>, quotas: seq<int>, rank: TaskId -> int, selected: seq<Row>) {
    var ks := Repos(rows);
    var groups := Groups(rows, ks);
    && QuotasFit(groups, quotas)
    && multiset(selected) == multiset(Picks(groups, quotas, rank))
    && (forall k :: 0 <= k < |ks| ==> |Group(selected, ks[k])| == quotas[k])
    && (DistinctIds(rows) ==>
          TierOf(rows, quotas, Ids(selected), selected) && RankedPicks(groups, quotas, rank, selected))
  }

  lemma SelectionOfPicks(rows: seq<Row>, quotas: seq<int>, rank: TaskId -> int, selected: seq<Row>)
    requires QuotasFit(Groups(rows, Repos(rows)), quotas)
    requires multiset(selected) == multiset(Picks(Groups(rows, Repos(rows)), quotas, rank))
    ensures |selected| == Sum(quotas) && multiset(selected) <= multiset(rows)
    ensures RankedSelection(rows, quotas, rank, selected)
  {
    hide Picks, Pick, Flatten, Groups, Group, Repos;
    var ks := Repos(rows);
    var groups := Groups(rows, ks);
    var picks := Picks(groups, quotas, rank);
    GroupsPartition(rows);
    PicksContents(groups, quotas, rank);
    PicksPerRepo(rows, ks, quotas, rank);
    assert |multiset(selected)| == |multiset(picks)|;
    forall k | 0 <= k < |ks|
      ensures |Group(selected, ks[k])| == quotas[k]
    {
      GroupSizeInvariant(selected, picks, ks[k]);
    }
    if DistinctIds(rows) {
      SameRows(rows, Flatten(groups));
      PicksSound(groups, quotas, rank);
      TierFromPicks(rows, picks, quotas, selected);
      SameRows(picks, selected);
      PicksAreRanked(groups, quotas, rank, selected);
    }
  }

  /** The best-ranked rows of every repository, reordered for publication. */
  method RankedTier(rows: seq<Row>, quotas: seq<int>, rank: TaskId -> int, order: TaskId -> int)
    returns (ordered: seq<Row>)
    requires QuotasFit(Groups(rows, Repos(rows)), quotas)
    ensures |ordered| == Sum(quotas) && multiset(ordered) <= multiset(rows) && SortedBy(ByRank(order), ordered)
    ensures RankedSelection(rows, quotas, rank, ordered)
  {
    hide RankedSelection;
    var selected := TakeFromGroups(Groups(rows, Repos(rows)), quotas, rank);
    ordered := Sort(ByRank(order), selected);
    SortCorrect(ByRank(order), selected);
    assert TotalOrder(ByRank(order));
    SelectionOfPicks(rows, quotas, rank, ordered);
  }

  // ---------------------------------------------------------------------
  // The Verified quick panel.

  /** One slot each, and the remaining slots shared out by size among those with rows left. */
  ghost predicate ProportionalExtras(sizes: seq<int>, size: int, quotas: seq<int>) {
    Granted(RealSizes(sizes), AddToAll(sizes, -1), size - |sizes|, AddToAll(quotas, -1))
  }

  method QuickQuotas(ks: seq<Key>, sizes: seq<int>, size: int) returns (quotas: seq<int>)
    requires |ks| == |sizes| > 0 && Ascending(ks) && NonEmptyGroups(sizes) && |sizes| <= size <= Sum(sizes)
    ensures |quotas| == |sizes| && Sum(quotas) == size && ProportionalExtras(sizes, size, quotas)
    ensures forall k :: 0 <= k < |quotas| ==> 1 <= quotas[k] <= sizes[k]
  {
    AddToAllSum(sizes, -1);
    var extra := Allocate(ks, RealSizes(sizes), AddToAll(sizes, -1), size - |ks|);
    quotas := AddToAll(extra, 1);
    AddToAllSum(extra, 1);
    assert AddToAll(quotas, -1) == extra;
  }

  /**
   * Every repository keeps one slot and the rest follow its size; exactly
   * `size` distinct rows come back whenever the request is in range.
   */
  method SelectVerifiedQuick(rows: seq<Row>, size: int, rank: TaskId -> int, order: TaskId -> int)
    returns (r: Result<(seq<Row>, seq<int>), PoolError>)
    ensures r.Ok? <==> DistinctIds(rows) && 0 < size <= |rows| && |Repos(rows)| <= size
    ensures r.Ok? ==>
              var (selected, quotas) := r.value;
              && |selected| == size && TierOf(rows, quotas, Ids(selected), selected)
              && SortedBy(ByRank(order), selected)
              && (forall k :: 0 <= k < |quotas| ==> quotas[k] >= 1)
              && QuotasFit(Groups(rows, Repos(rows)), quotas)
              && RankedPicks(Groups(rows, Repos(rows)), quotas, rank, selected)
              && var sizes := Sizes(Groups(rows, Repos(rows)));
                 ProportionalExtras(sizes, size, quotas)
  {
    var distinct := AllDistinct(rows);
    if !distinct {
      return Err(InvalidRows);
    }
    if !(0 < size <= |rows|) {
      return Err(InvalidSizes);
    }
    GroupsPartition(rows);
    var ks := Repos(rows);
    if size < |ks| {
      return Err(InvalidSizes);
    }
    var groups := Groups(rows, ks);
    assert |ks| > 0;
    var quotas := QuickQuotas(ks, Sizes(groups), size);
    var ordered := RankedTier(rows, quotas, rank, order);
    return Ok((ordered, quotas));
  }

  function AddToAll(s: seq<int>, d: int): (t: seq<int>)
    ensures |t| == |s|
  {
    seq(|s|, i requires 0 <= i < |s| => s[i] + d)
  }

  lemma {:induction false} AddToAllSum(s: seq<int>, d: int)
    ensures Sum(AddToAll(s, d)) == Sum(s) + |s| * d
  {
    if |s| > 0 {
      AddToAllSum(s[1..], d);
      assert AddToAll(s, d)[1..] == AddToAll(s[1..], d);
      assert |s| * d == d + (|s| - 1) * d;
    }
  }

  method AllDistinct(rows: seq<Row>) returns (distinct: bool)
    ensures distinct == DistinctIds(rows)
  {
    var seen: set<TaskId> := {};
    for i := 0 to |rows|
      invariant seen == Ids(rows[..i]) && DistinctIds(rows[..i])
    {
      if rows[i].id in seen {
        var p :| p in rows[..i] && p.id == rows[i].id;
        assert exists k :: 0 <= k < i && rows[k] == p;
        return false;
      }
      assert rows[..i + 1] == rows[..i] + [rows[i]];
      assert forall k :: 0 <= k < i ==> rows[k] in rows[..i];
      seen := seen + {rows[i].id};
    }
    assert rows[..|rows|] == rows;
    return true;
  }

  // ---------------------------------------------------------------------
  // Proportional splits.

  /**
   * A proportional subset: `size` rows in publication order, fairly apportioned
   * among the repositories, the best-ranked rows of each.
   */
  ghost predicate Stratified(rows: seq<Row>, size: int, rank: TaskId -> int, order: TaskId -> int, selected: seq<Row>) {
    && |selected| == size && multiset(selected) <= multiset(rows)
    && SortedBy(ByRank(order), selected)
    && (|rows| > 0 ==>
          var sizes := Sizes(Groups(rows, Repos(rows)));
          && Sum(sizes) > 0
          && exists q :: |q| == |sizes| && FairAllocation(Proportional(sizes, size), sizes, size, q)
                         && RankedSelection(rows, q, rank, selected))
  }

  /** Succeeds unless the size is out of range. */
  method StratifiedSelect(rows: seq<Row>, size: int, rank: TaskId -> int, order: TaskId -> int)
    returns (r: Result<seq<Row>, SelectionError>)
    ensures r.Ok? <==> 0 <= size <= |rows|
    ensures r.Ok? ==> Stratified(rows, size, rank, order, r.value)
  {
    hide RankedSelection;
    GroupsPartition(rows);
    var ks := Repos(rows);
    var sizes := Sizes(Groups(rows, ks));
    var c := CyclicQuotas(sizes, size);
    if c.Err? {
      return Err(c.error);
    }
    var quotas := c.value;
    if |ks| > 0 {
      ProportionalQuotasFit(sizes, size, quotas);
    }
    var ordered := RankedTier(rows, quotas, rank, order);
    r := Ok(ordered);
    if |rows| > 0 {
      assert |ks| > 0;
      assert RankedSelection(rows, quotas, rank, ordered);
    }
  }

  lemma ProportionalQuotasFit(sizes: seq<int>, size: int, q: seq<int>)
    requires NonEmptyGroups(sizes) && |sizes| > 0 && 0 <= size <= Sum(sizes) && Sum(sizes) > 0 && |q| == |sizes|
    requires FairAllocation(Proportional(sizes, size), sizes, size, q)
    ensures Sum(q) == size && forall i :: 0 <= i < |q| ==> 0 <= q[i] <= sizes[i]
  {
    ProportionalProblem(sizes, size);
    QuotaRule(Proportional(sizes, size), sizes, size, q);
  }
}
