/** The older R2E splits: a held-out dev set, and pilot, debug and smoke nested inside train. */
module R2eSplits {
  import opened Prelude
  import opened Sorting
  import opened TaskSelection
  import opened NestedPools

  datatype Splits = Splits(train: seq<Row>, dev: seq<Row>, pilot: seq<Row>, debug: Option<seq<Row>>, smoke: seq<Row>)

  datatype SplitError = BadRows | BadSizes | SelectionFailed

  /** Separate rank functions for each label of the source. */
  datatype Ranks = Ranks(task: TaskId -> int, order: TaskId -> int)

  predicate Within(a: seq<Row>, b: seq<Row>) {
    DistinctIds(a) && forall r :: r in a ==> r in b
  }

  /** Removing a subset leaves the rest: distinct rows, disjoint from it, of the complementary number. */
  lemma ExcludingRest(rows: seq<Row>, part: seq<Row>)
    requires DistinctIds(rows) && Within(part, rows)
    ensures var rest := Excluding(rows, Ids(part));
            Within(rest, rows) && |rest| == |rows| - |part| && Ids(rest) !! Ids(part)
  {
    var rest := Excluding(rows, Ids(part));
    ExcludingContents(rows, Ids(part));
    ChosenRestores(rows, part);
    assert multiset(rest) <= multiset(rows);
    SubRows(rest, rows);
    assert |multiset(rest)| + |multiset(part)| == |multiset(rows)|;
  }

  predicate SizesOk(poolSize: nat, train: int, dev: int, pilot: int, debug: Option<int>, smoke: int) {
    && train + dev <= poolSize
    && 0 < smoke <= pilot <= train
    && (debug.Some? ==> smoke <= debug.value <= pilot)
  }

  lemma ValidMeans(rows: seq<Row>)
    ensures ValidRows(rows) <==> DistinctIds(rows) && forall row :: row in rows ==> row.hasStatement && row.hasImage
  {
  }

  /** The smoke rows and as many more pilot rows as the debug split asks for, reordered. */
  ghost predicate DebugOf(pilot: seq<Row>, smoke: seq<Row>, size: int, extra: Ranks, debugOrder: TaskId -> int,
                          debug: seq<Row>)
  {
    exists more ::
      && Stratified(Excluding(pilot, Ids(smoke)), size - |smoke|, extra.task, extra.order, more)
      && multiset(debug) == multiset(smoke + more) && SortedBy(ByRank(debugOrder), debug)
  }

  method DebugSplit(pilot: seq<Row>, smoke: seq<Row>, size: int, extra: Ranks, debugOrder: TaskId -> int)
    returns (debug: seq<Row>)
    requires DistinctIds(pilot) && Within(smoke, pilot) && |smoke| <= size <= |pilot|
    ensures |debug| == size && Within(debug, pilot) && Within(smoke, debug)
    ensures DebugOf(pilot, smoke, size, extra, debugOrder, debug)
  {
    hide Excluding, Stratified;
    var remaining := Excluding(pilot, Ids(smoke));
    ExcludingRest(pilot, smoke);
    var more := StratifiedSelect(remaining, size - |smoke|, extra.task, extra.order);
    StratifiedRows(remaining, size - |smoke|, extra.task, extra.order, more.value);
    var joined := smoke + more.value;
    JoinDistinct(smoke, more.value);
    SortCorrect(ByRank(debugOrder), joined);
    assert TotalOrder(ByRank(debugOrder));
    SameRows(joined, Sort(ByRank(debugOrder), joined));
    return Sort(ByRank(debugOrder), joined);
  }

  lemma StratifiedRows(rows: seq<Row>, size: int, rank: TaskId -> int, order: TaskId -> int, selected: seq<Row>)
    requires Stratified(rows, size, rank, order, selected) && DistinctIds(rows)
    ensures |selected| == size && Within(selected, rows)
  {
    SubRows(selected, rows);
  }

  /**
   * Disjoint train and dev; smoke inside debug inside pilot inside train; every
   * split of its requested size and a proportional subset of what it is drawn from.
   */
  method BuildR2eSplits(rows: seq<Row>, trainSize: int, devSize: int, pilotSize: int, debugSize: Option<int>,
                        smokeSize: int, dev: Ranks, train: Ranks, pilot: Ranks, smoke: Ranks, extra: Ranks,
                        debugOrder: TaskId -> int)
    returns (r: Result<Splits, SplitError>)
    ensures r.Ok? <==>
              && DistinctIds(rows) && (forall row :: row in rows ==> row.hasStatement && row.hasImage)
              && devSize >= 0 && trainSize + devSize <= |rows| && 0 < smokeSize <= pilotSize <= trainSize
              && (debugSize.Some? ==> smokeSize <= debugSize.value <= pilotSize)
    ensures r.Ok? ==>
              var s := r.value;
              && |s.train| == trainSize && |s.dev| == devSize && |s.pilot| == pilotSize && |s.smoke| == smokeSize
              && Within(s.train, rows) && Within(s.dev, rows) && Ids(s.train) !! Ids(s.dev)
              && Within(s.pilot, s.train) && Within(s.smoke, s.pilot)
              && s.debug.Some? == debugSize.Some?
              && (s.debug.Some? ==> |s.debug.value| == debugSize.value
                                    && Within(s.smoke, s.debug.value) && Within(s.debug.value, s.pilot)
                                    && DebugOf(s.pilot, s.smoke, debugSize.value, extra, debugOrder, s.debug.value))
    ensures r.Ok? ==>
              var s := r.value;
              && Stratified(rows, devSize, dev.task, dev.order, s.dev)
              && Stratified(Excluding(rows, Ids(s.dev)), trainSize, train.task, train.order, s.train)
              && Stratified(s.train, pilotSize, pilot.task, pilot.order, s.pilot)
              && Stratified(s.pilot, smokeSize, smoke.task, smoke.order, s.smoke)
  {
    hide Excluding, ValidRows, DistinctIds, Stratified, DebugOf;
    ValidMeans(rows);
    var validated := ValidateSourceRows(rows);
    if validated.Err? {
      return Err(BadRows);
    }
    var pool := validated.value;
    if !SizesOk(|pool|, trainSize, devSize, pilotSize, debugSize, smokeSize) {
      return Err(BadSizes);
    }
    var devRows := StratifiedSelect(pool, devSize, dev.task, dev.order);
    if devRows.Err? {
      return Err(SelectionFailed);
    }
    StratifiedRows(pool, devSize, dev.task, dev.order, devRows.value);
    var candidates := Excluding(pool, Ids(devRows.value));
    ExcludingRest(pool, devRows.value);
    var trainRows := StratifiedSelect(candidates, trainSize, train.task, train.order);
    StratifiedRows(candidates, trainSize, train.task, train.order, trainRows.value);
    var pilotRows := StratifiedSelect(trainRows.value, pilotSize, pilot.task, pilot.order);
    StratifiedRows(trainRows.value, pilotSize, pilot.task, pilot.order, pilotRows.value);
    var smokeRows := StratifiedSelect(pilotRows.value, smokeSize, smoke.task, smoke.order);
    StratifiedRows(pilotRows.value, smokeSize, smoke.task, smoke.order, smokeRows.value);
    var debugRows: Option<seq<Row>> := None;
    if debugSize.Some? {
      var debug := DebugSplit(pilotRows.value, smokeRows.value, debugSize.value, extra, debugOrder);
      debugRows := Some(debug);
    }
    return Ok(Splits(trainRows.value, devRows.value, pilotRows.value, debugRows, smokeRows.value));
  }

  lemma JoinDistinct(a: seq<Row>, b: seq<Row>)
    requires DistinctIds(a) && DistinctIds(b) && Ids(a) !! Ids(b)
    ensures DistinctIds(a + b) && forall r :: r in a + b <==> r in a || r in b
  {
    forall i, j | 0 <= i < j < |a + b|
      ensures (a + b)[i].id != (a + b)[j].id
    {
      if i < |a| <= j {
        assert a[i] in a && b[j - |a|] in b;
        assert a[i].id in Ids(a) && b[j - |a|].id in Ids(b);
      }
    }
  }
}
