/**
 * External evaluation results: the stages of a quick-first run, the writer that
 * scores every task over a fixed number of sessions, and the reader that
 * validates a full result and derives the quick panel from it. The hash of an
 * id list is an injective constructor.
 */
module EvalReporting {
  import opened Prelude
  import opened Sorting

  type TaskId = nat

  datatype Sample = Sample(id: TaskId, prompt: int)

  function Ids(samples: seq<Sample>): (ids: seq<TaskId>)
    ensures |ids| == |samples| && forall i :: 0 <= i < |ids| ==> ids[i] == samples[i].id
  {
    seq(|samples|, i requires 0 <= i < |samples| => samples[i].id)
  }

  // ---------------------------------------------------------------------
  // Stages.

  datatype StageError = PanelNotContained

  /** The dictionary from ids to samples; a later sample replaces an earlier one of the same id. */
  function Find(samples: seq<Sample>, id: TaskId): (s: Sample)
    requires id in Ids(samples)
    ensures s in samples && s.id == id
  {
    var last := samples[|samples| - 1];
    if last.id == id then last
    else
      var rest := samples[..|samples| - 1];
      assert id in Ids(rest) by {
        var i :| 0 <= i < |samples| && Ids(samples)[i] == id;
        assert Ids(rest)[i] == id;
      }
      Find(rest, id)
  }

  predicate Contained(quick: seq<TaskId>, samples: seq<Sample>) {
    forall q :: q in quick ==> q in Ids(samples)
  }

  function Panel(samples: seq<Sample>, quick: seq<TaskId>): (panel: seq<Sample>)
    requires Contained(quick, samples)
    ensures |panel| == |quick| && forall i :: 0 <= i < |quick| ==> panel[i] in samples && panel[i].id == quick[i]
  {
    seq(|quick|, i requires 0 <= i < |quick| => Find(samples, quick[i]))
  }

  function Others(samples: seq<Sample>, quick: seq<TaskId>): seq<Sample> {
    if |samples| == 0 then []
    else (if samples[0].id in quick then [] else [samples[0]]) + Others(samples[1..], quick)
  }

  /** The frozen quick panel first, in its own order, then the other samples in theirs. */
  function EvaluationStages(samples: seq<Sample>, quick: seq<TaskId>): Result<seq<seq<Sample>>, StageError> {
    if |quick| == 0 then Ok([samples])
    else if !Contained(quick, samples) then Err(PanelNotContained)
    else Ok([Panel(samples, quick), Others(samples, quick)])
  }

  lemma {:induction false} OthersCount(samples: seq<Sample>, quick: seq<TaskId>, x: Sample)
    ensures multiset(Others(samples, quick))[x] == if x.id in quick then 0 else multiset(samples)[x]
  {
    if |samples| > 0 {
      assert samples == [samples[0]] + samples[1..];
      OthersCount(samples[1..], quick, x);
    }
  }

  lemma UniqueById(samples: seq<Sample>, x: Sample, y: Sample)
    requires Distinct(Ids(samples)) && x in samples && y in samples && x.id == y.id
    ensures x == y
  {
    var i :| 0 <= i < |samples| && samples[i] == x;
    var j :| 0 <= j < |samples| && samples[j] == y;
    assert Ids(samples)[i] == Ids(samples)[j];
  }

  lemma DistinctById(samples: seq<Sample>)
    requires Distinct(Ids(samples))
    ensures Distinct(samples)
  {
    forall i, j | 0 <= i < j < |samples|
      ensures samples[i] != samples[j]
    {
      assert Ids(samples)[i] != Ids(samples)[j];
    }
  }

  lemma PanelCount(samples: seq<Sample>, quick: seq<TaskId>, x: Sample)
    requires Distinct(Ids(samples)) && Contained(quick, samples) && Distinct(quick)
    ensures multiset(Panel(samples, quick))[x] == if x in samples && x.id in quick then 1 else 0
  {
    var panel := Panel(samples, quick);
    assert Ids(panel) == quick;
    DistinctById(panel);
    DistinctMultiplicity(panel);
    if x in samples && x.id in quick {
      var i :| 0 <= i < |quick| && quick[i] == x.id;
      UniqueById(samples, x, panel[i]);
      assert x in panel;
    } else {
      assert x !in panel;
    }
  }

  lemma DuplicateInPanel(samples: seq<Sample>, quick: seq<TaskId>, i: nat, j: nat)
    requires Distinct(Ids(samples)) && Contained(quick, samples) && i < j < |quick| && quick[i] == quick[j]
    ensures multiset(Panel(samples, quick))[Panel(samples, quick)[i]] >= 2
    ensures multiset(samples)[Panel(samples, quick)[i]] == 1
  {
    var panel := Panel(samples, quick);
    DistinctById(samples);
    DistinctMultiplicity(samples);
    UniqueById(samples, panel[i], panel[j]);
    var x := panel[i];
    TwiceIn(panel, i, j);
  }

  lemma TwiceIn(s: seq<Sample>, i: nat, j: nat)
    requires i < j < |s| && s[i] == s[j]
    ensures multiset(s)[s[i]] >= 2
  {
    assert s == s[..i] + [s[i]] + s[i + 1..];
    assert s[i + 1..][j - i - 1] == s[i];
  }

  lemma PartsRearrange(samples: seq<Sample>, quick: seq<TaskId>)
    requires Distinct(Ids(samples)) && Contained(quick, samples) && Distinct(quick)
    ensures multiset(Panel(samples, quick)) + multiset(Others(samples, quick)) == multiset(samples)
  {
    hide Panel, Others;
    DistinctById(samples);
    DistinctMultiplicity(samples);
    forall x
      ensures multiset(Panel(samples, quick))[x] + multiset(Others(samples, quick))[x] == multiset(samples)[x]
    {
      PanelCount(samples, quick, x);
      OthersCount(samples, quick, x);
      assert x in multiset(samples) <==> x in samples;
    }
  }

  /** One pass over each task: the stages rearrange the samples exactly when the panel has no duplicate. */
  lemma StagesRearrange(samples: seq<Sample>, quick: seq<TaskId>)
    requires Distinct(Ids(samples))
    ensures |quick| == 0 ==> EvaluationStages(samples, quick) == Ok([samples])
    ensures EvaluationStages(samples, quick).Ok? <==> forall q :: q in quick ==> exists s :: s in samples && s.id == q
    ensures |quick| > 0 && Contained(quick, samples) ==>
              && EvaluationStages(samples, quick).value == [Panel(samples, quick), Others(samples, quick)]
              && Ids(Panel(samples, quick)) == quick
              && (multiset(Panel(samples, quick)) + multiset(Others(samples, quick)) == multiset(samples)
                  <==> Distinct(quick))
  {
    if Contained(quick, samples) {
      var panel, others := Panel(samples, quick), Others(samples, quick);
      if Distinct(quick) {
        PartsRearrange(samples, quick);
      } else {
        hide Panel, Others;
        var i, j :| 0 <= i < j < |quick| && quick[i] == quick[j];
        DuplicateInPanel(samples, quick, i, j);
        assert (multiset(panel) + multiset(others))[panel[i]] >= 2;
      }
    }
  }

  lemma {:induction false} OthersSnoc(samples: seq<Sample>, quick: seq<TaskId>)
    requires |samples| > 0
    ensures var last := samples[|samples| - 1];
            Others(samples, quick)
            == Others(samples[..|samples| - 1], quick) + if last.id in quick then [] else [last]
  {
    if |samples| > 1 {
      OthersSnoc(samples[1..], quick);
      assert samples[..|samples| - 1][1..] == samples[1..][..|samples[1..]| - 1];
    }
  }

  /** The second stage keeps the order of the dataset: `at` lists the positions of its samples. */
  lemma {:induction false} OthersInOrder(samples: seq<Sample>, quick: seq<TaskId>) returns (at: seq<nat>)
    ensures |Others(samples, quick)| == |at| && forall k, m :: 0 <= k < m < |at| ==> at[k] < at[m]
    ensures forall k :: 0 <= k < |at| ==>
              at[k] < |samples| && Others(samples, quick)[k] == samples[at[k]] && samples[at[k]].id !in quick
    ensures forall i: nat :: i < |samples| && samples[i].id !in quick ==> i in at
  {
    if |samples| == 0 {
      at := [];
    } else {
      var n := |samples| - 1;
      var before := OthersInOrder(samples[..n], quick);
      OthersSnoc(samples, quick);
      at := before + if samples[n].id in quick then [] else [n];
      forall i: nat | i < |samples| && samples[i].id !in quick
        ensures i in at
      {
        if i < n {
          assert samples[..n][i] == samples[i];
        } else {
          assert at[|before|] == n;
        }
      }
    }
  }

  // ---------------------------------------------------------------------
  // Scoring over a fixed number of sessions.

  datatype TaskRecord = TaskRecord(
    taskId: TaskId, score: real, scoredSessions: nat, sessionScores: seq<real>, status: string)

  datatype EvalResult = EvalResult(
    split: string, numTasks: nat, n: nat, expectedSessions: nat, scoredSessions: nat, completedTasks: nat,
    meanScore: real, tasks: seq<TaskRecord>)

  type Scores = map<TaskId, seq<real>>
  type Statuses = map<TaskId, string>

  function Kept(scores: seq<real>, n: nat): seq<real> {
    if |scores| > n then scores[..n] else scores
  }

  /** A missing session counts as zero. */
  function Padded(scores: seq<real>, n: nat): (padded: seq<real>)
    ensures |padded| == n
  {
    Kept(scores, n) + seq(n - |Kept(scores, n)|, _ => 0.0)
  }

  function Mean(values: seq<real>): real {
    Ratio(SumReal(values), |values|)
  }

  function ScoresOf(scores: Scores, id: TaskId): seq<real> {
    if id in scores then scores[id] else []
  }

  function RecordOf(id: TaskId, scores: Scores, statuses: Statuses, n: nat): TaskRecord {
    var own := ScoresOf(scores, id);
    TaskRecord(id, Mean(Padded(own, n)), |Kept(own, n)|, Kept(own, n),
        if id in statuses then statuses[id] else "missing")
  }

  function Records(ids: seq<TaskId>, scores: Scores, statuses: Statuses, n: nat): (records: seq<TaskRecord>)
    ensures |records| == |ids|
    ensures forall i :: 0 <= i < |ids| ==> records[i] == RecordOf(ids[i], scores, statuses, n)
  {
    seq(|ids|, i requires 0 <= i < |ids| => RecordOf(ids[i], scores, statuses, n))
  }

  function Sessions(ids: seq<TaskId>, scores: Scores, n: nat): seq<real> {
    if |ids| == 0 then []
    else Sessions(ids[..|ids| - 1], scores, n) + Padded(ScoresOf(scores, ids[|ids| - 1]), n)
  }

  function ScoredTotal(records: seq<TaskRecord>): nat {
    if |records| == 0 then 0 else ScoredTotal(records[..|records| - 1]) + records[|records| - 1].scoredSessions
  }

  function CompletedTotal(records: seq<TaskRecord>, n: nat): nat {
    if |records| == 0 then 0
    else CompletedTotal(records[..|records| - 1], n) + if records[|records| - 1].scoredSessions >= n then 1 else 0
  }

  function Written(split: string, ids: seq<TaskId>, scores: Scores, statuses: Statuses, n: nat): EvalResult {
    var records := Records(ids, scores, statuses, n);
    EvalResult(split, |ids|, n, |ids| * n, ScoredTotal(records), CompletedTotal(records, n),
               Mean(Sessions(ids, scores, n)), records)
  }

  lemma OneMoreRecord(ids: seq<TaskId>, scores: Scores, statuses: Statuses, n: nat, i: nat)
    requires i < |ids|
    ensures var before, after := Records(ids[..i], scores, statuses, n), Records(ids[..i + 1], scores, statuses, n);
            && after == before + [RecordOf(ids[i], scores, statuses, n)]
            && ScoredTotal(after) == ScoredTotal(before) + |Kept(ScoresOf(scores, ids[i]), n)|
            && CompletedTotal(after, n)
               == CompletedTotal(before, n) + if |Kept(ScoresOf(scores, ids[i]), n)| >= n then 1 else 0
    ensures Sessions(ids[..i + 1], scores, n) == Sessions(ids[..i], scores, n) + Padded(ScoresOf(scores, ids[i]), n)
  {
    hide Mean, Padded, Kept;
    var before, after := Records(ids[..i], scores, statuses, n), Records(ids[..i + 1], scores, statuses, n);
    assert after == before + [RecordOf(ids[i], scores, statuses, n)];
    assert after[..i] == before && ids[..i + 1][..i] == ids[..i];
  }

  /** The loop that pads, collects and averages. */
  method WriteResult(split: string, ids: seq<TaskId>, scores: Scores, statuses: Statuses, n: nat)
    returns (r: EvalResult)
    ensures r == Written(split, ids, scores, statuses, n)
    ensures n >= 1 ==>
              && |r.tasks| == |ids|
              && forall i :: 0 <= i < |ids| ==> IsRecord(r.tasks[i], ids[i], scores, statuses, n)
  {
    hide IsRecord, Mean, Padded, Kept, Records, Sessions, ScoredTotal, CompletedTotal;
    var records: seq<TaskRecord>, allScores: seq<real> := [], [];
    var scored, completed := 0, 0;
    NoRecords(scores, statuses, n);
    for i := 0 to |ids|
      invariant records == Records(ids[..i], scores, statuses, n)
      invariant allScores == Sessions(ids[..i], scores, n)
      invariant scored == ScoredTotal(records) && completed == CompletedTotal(records, n)
    {
      OneMoreRecord(ids, scores, statuses, n, i);
      var own := if ids[i] in scores then scores[ids[i]] else [];
      var kept := Kept(own, n);
      var padded := Padded(own, n);
      allScores := allScores + padded;
      records := records
      + [TaskRecord(ids[i], Mean(padded), |kept|, kept, if ids[i] in statuses then statuses[ids[i]] else "missing")];
      scored := scored + |kept|;
      completed := completed + if |kept| >= n then 1 else 0;
    }
    assert ids[..|ids|] == ids;
    if n >= 1 {
      WrittenRecords(ids, scores, statuses, n);
    }
    return EvalResult(split, |ids|, n, |ids| * n, scored, completed, Mean(allScores), records);
  }

  lemma NoRecords(scores: Scores, statuses: Statuses, n: nat)
    ensures Records([], scores, statuses, n) == [] && Sessions([], scores, n) == []
    ensures ScoredTotal([]) == 0 && CompletedTotal([], n) == 0
  {
  }

  // ---------------------------------------------------------------------
  // The reader.

  datatype Hash = IdHash(ids: seq<TaskId>)

  datatype Manifest = Manifest(
    fullCount: int, fullHash: Hash, quickIds: seq<TaskId>, quickCount: int, quickHash: Hash)

  datatype Summary = Summary(
    numTasks: nat, hash: Hash, mean: real, percent: real, sum: real,
    expectedSessions: int, scoredSessions: int, missingSessions: int, statusCounts: multiset<string>)

  datatype Report = Report(n: int, full: Summary, quick: Summary, quickTasks: seq<TaskRecord>)

  datatype ReportError =
    | NotFull | DuplicateTasks | WrongCount | WrongOrder | WrongNumTasks
    | WrongQuickCount | WrongQuickOrder | MissingQuick
    | BadN | ScoreOutOfRange | SessionsOutOfRange | WrongMean

  function TaskIds(records: seq<TaskRecord>): (ids: seq<TaskId>)
    ensures |ids| == |records| && forall i :: 0 <= i < |ids| ==> ids[i] == records[i].taskId
  {
    seq(|records|, i requires 0 <= i < |records| => records[i].taskId)
  }

  function TaskScores(records: seq<TaskRecord>): (scores: seq<real>)
    ensures |scores| == |records| && forall i :: 0 <= i < |scores| ==> scores[i] == records[i].score
  {
    seq(|records|, i requires 0 <= i < |records| => records[i].score)
  }

  function TaskStatuses(records: seq<TaskRecord>): seq<string> {
    seq(|records|, i requires 0 <= i < |records| => records[i].status)
  }

  predicate InRange(scores: seq<real>) {
    forall i :: 0 <= i < |scores| ==> 0.0 <= scores[i] <= 1.0
  }

  function Summarize(records: seq<TaskRecord>, n: int): Result<Summary, ReportError> {
    var ids, scores, scored := TaskIds(records), TaskScores(records), ScoredTotal(records);
    if n < 1 then Err(BadN)
    else if !Distinct(ids) then Err(DuplicateTasks)
    else if !InRange(scores) then Err(ScoreOutOfRange)
    else if scored > |records| * n then Err(SessionsOutOfRange)
    else
      var sum := SumReal(scores);
      Ok(Summary(|records|, IdHash(ids), Ratio(sum, |records|),
                 Ratio(100.0 * sum, |records|), sum,
                 |records| * n, scored, |records| * n - scored, multiset(TaskStatuses(records))))
  }

  /** The dictionary from ids to records, read for the panel. */
  function FindRecord(records: seq<TaskRecord>, id: TaskId): (r: TaskRecord)
    requires id in TaskIds(records)
    ensures r in records && r.taskId == id
  {
    var last := records[|records| - 1];
    if last.taskId == id then last
    else
      var rest := records[..|records| - 1];
      assert id in TaskIds(rest) by {
        var i :| 0 <= i < |records| && TaskIds(records)[i] == id;
        assert TaskIds(rest)[i] == id;
      }
      FindRecord(rest, id)
  }

  predicate PanelPresent(quick: seq<TaskId>, records: seq<TaskRecord>) {
    forall i :: 0 <= i < |quick| ==> quick[i] in TaskIds(records)
  }

  function QuickRecords(records: seq<TaskRecord>, quick: seq<TaskId>): (found: seq<TaskRecord>)
    requires PanelPresent(quick, records)
    ensures |found| == |quick|
    ensures forall i :: 0 <= i < |quick| ==> found[i] in records && found[i].taskId == quick[i]
  {
    seq(|quick|, i requires 0 <= i < |quick| => FindRecord(records, quick[i]))
  }

  function Distance(a: real, b: real): real {
    if a < b then b - a else a - b
  }

  function BuildSummary(result: EvalResult, manifest: Manifest): Result<Report, ReportError> {
    var records := result.tasks;
    var ids := TaskIds(records);
    if result.split != "full" then Err(NotFull)
    else if !Distinct(ids) then Err(DuplicateTasks)
    else if |ids| != manifest.fullCount then Err(WrongCount)
    else if IdHash(ids) != manifest.fullHash then Err(WrongOrder)
    else if result.numTasks != |records| then Err(WrongNumTasks)
    else if |manifest.quickIds| != manifest.quickCount then Err(WrongQuickCount)
    else if IdHash(manifest.quickIds) != manifest.quickHash then Err(WrongQuickOrder)
    else if !PanelPresent(manifest.quickIds, records) then Err(MissingQuick)
    else
      var quick := QuickRecords(records, manifest.quickIds);
      match Summarize(records, result.n)
      case Err(error) => Err(error)
      case Ok(full) =>
        match Summarize(quick, result.n)
        case Err(error) => Err(error)
        case Ok(panel) =>
          if Distance(result.meanScore, full.mean) > 0.000000000001 then Err(WrongMean)
          else Ok(Report(result.n, full, panel, quick))
  }

  // ---------------------------------------------------------------------
  // The mean over sessions is the mean of the task means.

  lemma {:induction false} SumOfSum(values: seq<real>, last: real)
    ensures SumReal(values + [last]) == SumReal(values) + last
  {
    SumRealAppend(values, [last]);
    assert [last][1..] == [];
  }

  lemma {:induction false} SessionsSum(ids: seq<TaskId>, scores: Scores, statuses: Statuses, n: nat)
    requires n >= 1
    ensures Ratio(SumReal(Sessions(ids, scores, n)), n) == SumReal(TaskScores(Records(ids, scores, statuses, n)))
    ensures |Sessions(ids, scores, n)| == Times(|ids|, n)
  {
    hide Padded, SumReal;
    if |ids| > 0 {
      var rest, last := ids[..|ids| - 1], ids[|ids| - 1];
      var padded := Padded(ScoresOf(scores, last), n);
      SessionsSum(rest, scores, statuses, n);
      SumRealAppend(Sessions(rest, scores, n), padded);
      AddRatios(SumReal(Sessions(rest, scores, n)), SumReal(padded), n);
      assert TaskScores(Records(ids, scores, statuses, n))
          == TaskScores(Records(rest, scores, statuses, n)) + [Mean(padded)];
      SumOfSum(TaskScores(Records(rest, scores, statuses, n)), Mean(padded));
    } else {
      NothingSummed(n);
      assert TaskScores(Records(ids, scores, statuses, n)) == [];
    }
  }

  lemma NothingSummed(n: nat)
    ensures SumReal([]) == 0.0 && Ratio(0.0, n) == 0.0
  {
  }

  /** Because every task is padded to exactly n sessions. */
  lemma MeanOfMeans(ids: seq<TaskId>, scores: Scores, statuses: Statuses, n: nat)
    requires n >= 1
    ensures Mean(Sessions(ids, scores, n)) == Mean(TaskScores(Records(ids, scores, statuses, n)))
  {
    hide Ratio, SumReal, Sessions, Records, TaskScores;
    SessionsSum(ids, scores, statuses, n);
    RatioTwice(SumReal(Sessions(ids, scores, n)), |ids|, n);
    RatioOfNone(SumReal(TaskScores(Records(ids, scores, statuses, n))));
  }

  lemma RatioOfNone(total: real)
    ensures Ratio(total, 0) == 0.0
  {
  }

  lemma {:induction false} SumInRange(values: seq<real>)
    requires InRange(values)
    ensures 0.0 <= SumReal(values) <= |values| as real
  {
    if |values| > 0 {
      SumInRange(values[1..]);
    }
  }

  /** Session scores in [0, 1] give task scores in [0, 1]. */
  lemma SessionsInRange(ids: seq<TaskId>, scores: Scores, statuses: Statuses, n: nat)
    requires forall id :: id in ids ==> InRange(Kept(ScoresOf(scores, id), n))
    ensures InRange(TaskScores(Records(ids, scores, statuses, n)))
  {
    forall i | 0 <= i < |ids|
      ensures 0.0 <= Mean(Padded(ScoresOf(scores, ids[i]), n)) <= 1.0
    {
      var id := ids[i];
      assert id in ids;
      SumInRange(Padded(ScoresOf(scores, id), n));
      RatioBounds(SumReal(Padded(ScoresOf(scores, id), n)), n);
    }
  }

  // ---------------------------------------------------------------------
  // What the figures of a written result mean.

  /** The record of a task: its first n session scores, their sum over n sessions, and its status. */
  ghost predicate IsRecord(r: TaskRecord, id: TaskId, scores: Scores, statuses: Statuses, n: nat) {
    var own := if id in scores then scores[id] else [];
    && r.taskId == id
    && r.sessionScores <= own && |r.sessionScores| == (if |own| <= n then |own| else n)
    && r.scoredSessions == |r.sessionScores|
    && r.status == (if id in statuses then statuses[id] else "missing")
    && r.score * n as real == SumReal(r.sessionScores)
  }

  lemma {:induction false} SumOfZeros(zeros: seq<real>)
    requires forall i :: 0 <= i < |zeros| ==> zeros[i] == 0.0
    ensures SumReal(zeros) == 0.0
  {
    if |zeros| > 0 {
      SumOfZeros(zeros[1..]);
    }
  }

  lemma PaddedSum(own: seq<real>, n: nat)
    ensures SumReal(Padded(own, n)) == SumReal(Kept(own, n))
  {
    hide SumReal;
    var zeros := seq(n - |Kept(own, n)|, _ => 0.0);
    SumRealAppend(Kept(own, n), zeros);
    SumOfZeros(zeros);
  }

  lemma RatioTimes(sum: real, count: nat)
    requires count > 0
    ensures Ratio(sum, count) * count as real == sum
  {
  }

  lemma RecordFigures(id: TaskId, scores: Scores, statuses: Statuses, n: nat)
    requires n >= 1
    ensures IsRecord(RecordOf(id, scores, statuses, n), id, scores, statuses, n)
  {
    hide SumReal, Padded;
    var own := ScoresOf(scores, id);
    PaddedSum(own, n);
    RatioTimes(SumReal(Padded(own, n)), n);
  }

  /** Session scores summed task by task, and how many each task has. */
  ghost predicate Tallied(tasks: seq<TaskRecord>, sums: seq<real>, counts: seq<int>) {
    && |sums| == |counts| == |tasks|
    && forall i :: 0 <= i < |tasks| ==>
         sums[i] == SumReal(tasks[i].sessionScores) && counts[i] == |tasks[i].sessionScores|
  }

  lemma {:induction false} SessionsTally(ids: seq<TaskId>, scores: Scores, statuses: Statuses, n: nat)
    returns (sums: seq<real>)
    requires n >= 1
    ensures |sums| == |ids| && forall i :: 0 <= i < |ids| ==> sums[i] == SumReal(Kept(ScoresOf(scores, ids[i]), n))
    ensures SumReal(Sessions(ids, scores, n)) == SumReal(sums)
  {
    hide SumReal, Padded, Kept, ScoresOf;
    if |ids| == 0 {
      sums := [];
    } else {
      var k := |ids| - 1;
      var own := ScoresOf(scores, ids[k]);
      var before := SessionsTally(ids[..k], scores, statuses, n);
      sums := before + [SumReal(Kept(own, n))];
      PaddedSum(own, n);
      SumRealAppend(Sessions(ids[..k], scores, n), Padded(own, n));
      SumOfSum(before, SumReal(Kept(own, n)));
    }
  }

  lemma {:induction false} ScoredTally(records: seq<TaskRecord>) returns (counts: seq<int>)
    ensures |counts| == |records| && forall i :: 0 <= i < |records| ==> counts[i] == records[i].scoredSessions
    ensures ScoredTotal(records) == Sum(counts)
  {
    if |records| == 0 {
      counts := [];
    } else {
      var k := |records| - 1;
      var before := ScoredTally(records[..k]);
      counts := before + [records[k].scoredSessions];
      SumSnoc(before, records[k].scoredSessions);
    }
  }

  ghost predicate Done(r: TaskRecord, n: nat) {
    r.scoredSessions >= n
  }

  lemma DoneSnoc(records: seq<TaskRecord>, n: nat)
    requires |records| > 0
    ensures var k := |records| - 1;
            |set i | 0 <= i < |records| && Done(records[i], n)|
            == |set i | 0 <= i < |records[..k]| && Done(records[..k][i], n)| + if Done(records[k], n) then 1 else 0
  {
    hide Done;
    var k := |records| - 1;
    var all := set i | 0 <= i < |records| && Done(records[i], n);
    var rest := set i | 0 <= i < |records[..k]| && Done(records[..k][i], n);
    assert forall i :: 0 <= i < k ==> records[..k][i] == records[i];
    if Done(records[k], n) {
      assert all == rest + {k};
    } else {
      assert all == rest;
    }
  }

  lemma {:induction false} CompletedTally(records: seq<TaskRecord>, n: nat)
    ensures CompletedTotal(records, n) == |set i | 0 <= i < |records| && Done(records[i], n)|
  {
    if |records| > 0 {
      CompletedTally(records[..|records| - 1], n);
      DoneSnoc(records, n);
    }
  }

  lemma SumSnoc(counts: seq<int>, last: int)
    ensures Sum(counts + [last]) == Sum(counts) + last
  {
    SumAppend(counts, [last]);
    assert [last][1..] == [];
  }

  /**
   * A missing session counts as zero: the mean is the sum of all kept session
   * scores over n sessions for every task, and a task is complete with n of them.
   */
  lemma WriterFigures(split: string, ids: seq<TaskId>, scores: Scores, statuses: Statuses, n: nat)
    returns (sums: seq<real>, counts: seq<int>)
    requires n >= 1
    ensures var r := Written(split, ids, scores, statuses, n);
            && r.split == split && r.n == n && r.numTasks == |ids| == |r.tasks| && r.expectedSessions == |ids| * n
            && (forall i :: 0 <= i < |ids| ==> IsRecord(r.tasks[i], ids[i], scores, statuses, n))
            && Tallied(r.tasks, sums, counts)
            && (if |ids| == 0 then r.meanScore == 0.0
                else r.meanScore * (|ids| as real * n as real) == SumReal(sums))
            && r.scoredSessions == Sum(counts)
            && r.completedTasks == |set i | 0 <= i < |r.tasks| && |r.tasks[i].sessionScores| == n|
  {
    hide SumReal, Sum, Padded, RecordOf, ScoredTotal, CompletedTotal, IsRecord, Mean, Sessions, Kept, ScoresOf;
    WrittenRecords(ids, scores, statuses, n);
    sums := SessionsTally(ids, scores, statuses, n);
    counts := CountsTally(Records(ids, scores, statuses, n), n);
    SessionsSum(ids, scores, statuses, n);
    MeanTimes(Sessions(ids, scores, n), |ids|, n);
  }

  lemma CountsTally(tasks: seq<TaskRecord>, n: nat) returns (counts: seq<int>)
    requires forall i :: 0 <= i < |tasks| ==> tasks[i].scoredSessions == |tasks[i].sessionScores| <= n
    ensures |counts| == |tasks| && forall i :: 0 <= i < |tasks| ==> counts[i] == |tasks[i].sessionScores|
    ensures ScoredTotal(tasks) == Sum(counts)
    ensures CompletedTotal(tasks, n) == |set i | 0 <= i < |tasks| && |tasks[i].sessionScores| == n|
  {
    counts := ScoredTally(tasks);
    CompletedTally(tasks, n);
    assert (set i | 0 <= i < |tasks| && Done(tasks[i], n))
        == set i | 0 <= i < |tasks| && |tasks[i].sessionScores| == n;
  }

  lemma WrittenRecords(ids: seq<TaskId>, scores: Scores, statuses: Statuses, n: nat)
    requires n >= 1
    ensures var tasks := Records(ids, scores, statuses, n);
            forall i :: 0 <= i < |ids| ==>
              && IsRecord(tasks[i], ids[i], scores, statuses, n)
              && tasks[i].sessionScores == Kept(ScoresOf(scores, ids[i]), n)
              && tasks[i].scoredSessions == |tasks[i].sessionScores| <= n
  {
    forall i | 0 <= i < |ids|
      ensures IsRecord(RecordOf(ids[i], scores, statuses, n), ids[i], scores, statuses, n)
    {
      RecordFigures(ids[i], scores, statuses, n);
    }
  }

  lemma MeanTimes(values: seq<real>, k: nat, n: nat)
    requires n >= 1 && |values| == Times(k, n)
    ensures if k == 0 then Mean(values) == 0.0 else Mean(values) * (k as real * n as real) == SumReal(values)
  {
    hide SumReal;
    TimesIsProduct(k, n);
    TimesAsReal(k, n);
    if k > 0 {
      assert |values| >= 1 by {
        assert k * n >= 1;
      }
      RatioTimes(SumReal(values), |values|);
    }
  }

  // ---------------------------------------------------------------------
  // What the reader accepts, and what its figures mean.

  /** Records that can be summarised over n sessions each. */
  ghost predicate Summarizable(records: seq<TaskRecord>, n: int) {
    && n >= 1
    && (forall i, j :: 0 <= i < j < |records| ==> records[i].taskId != records[j].taskId)
    && (forall i :: 0 <= i < |records| ==> 0.0 <= records[i].score <= 1.0)
    && exists counts: seq<int> :: CountsOf(records, counts) && Sum(counts) <= |records| * n
  }

  ghost predicate CountsOf(records: seq<TaskRecord>, counts: seq<int>) {
    |counts| == |records| && forall i :: 0 <= i < |records| ==> counts[i] == records[i].scoredSessions
  }

  lemma CountsSum(records: seq<TaskRecord>, counts: seq<int>)
    requires CountsOf(records, counts)
    ensures Sum(counts) == ScoredTotal(records)
  {
    var same := ScoredTally(records);
    assert same == counts;
  }

  ghost predicate ScoresIn(records: seq<TaskRecord>, scores: seq<real>) {
    |scores| == |records| && forall i :: 0 <= i < |records| ==> scores[i] == records[i].score
  }

  lemma SummaryAllowed(records: seq<TaskRecord>, n: int)
    ensures Summarize(records, n).Ok? <==> Summarizable(records, n)
  {
    hide Sum, SumReal, ScoredTotal, Ratio;
    var counts := ScoredTally(records);
    assert CountsOf(records, counts);
    if Summarizable(records, n) {
      var c :| CountsOf(records, c) && Sum(c) <= |records| * n;
      assert c == counts;
    }
  }

  lemma SummaryMeans(records: seq<TaskRecord>, n: int, scores: seq<real>)
    requires Summarize(records, n).Ok? && ScoresIn(records, scores)
    ensures var s := Summarize(records, n).value;
            && s.sum == SumReal(scores)
            && if |records| == 0 then s.mean == s.percent == 0.0
               else s.mean * |records| as real == s.sum && s.percent * |records| as real == 100.0 * s.sum
  {
    hide SumReal, ScoredTotal, Ratio;
    assert TaskScores(records) == scores;
    if |records| > 0 {
      RatioTimes(SumReal(scores), |records|);
      RatioTimes(100.0 * SumReal(scores), |records|);
    } else {
      RatioOfNone(SumReal(scores));
      RatioOfNone(100.0 * SumReal(scores));
    }
  }

  lemma SummaryStatuses(records: seq<TaskRecord>, n: int, status: string)
    requires Summarize(records, n).Ok?
    ensures Summarize(records, n).value.statusCounts[status]
         == |set i | 0 <= i < |records| && records[i].status == status|
  {
    StatusCount(records, status);
    assert (set i | 0 <= i < |records| && records[i].status == status)
        == set i | 0 <= i < |records| && HasStatus(records[i], status);
  }

  /** A summary is made exactly of such records; its figures are sums over them. */
  lemma SummaryFigures(records: seq<TaskRecord>, n: int) returns (scores: seq<real>, counts: seq<int>)
    ensures ScoresIn(records, scores) && CountsOf(records, counts)
    ensures var r := Summarize(records, n);
            && (r.Ok? <==> Summarizable(records, n))
            && (r.Ok? ==>
                  var s := r.value;
                  && s.numTasks == |records| && s.sum == SumReal(scores)
                  && (if |records| == 0 then s.mean == s.percent == 0.0
                      else s.mean * |records| as real == s.sum && s.percent * |records| as real == 100.0 * s.sum)
                  && s.expectedSessions == |records| * n && s.scoredSessions == Sum(counts)
                  && s.missingSessions == |records| * n - Sum(counts)
                  && (forall status :: s.statusCounts[status]
                        == |set i | 0 <= i < |records| && records[i].status == status|)
                  && |s.hash.ids| == |records|
                  && forall i :: 0 <= i < |records| ==> s.hash.ids[i] == records[i].taskId)
  {
    hide SumReal, Sum, Ratio, Summarizable, TaskStatuses;
    scores := TaskScores(records);
    counts := ScoredTally(records);
    SummaryAllowed(records, n);
    if Summarize(records, n).Ok? {
      SummaryMeans(records, n, scores);
      forall status
        ensures Summarize(records, n).value.statusCounts[status]
             == |set i | 0 <= i < |records| && records[i].status == status|
      {
        SummaryStatuses(records, n, status);
      }
    }
  }

  ghost predicate HasStatus(r: TaskRecord, status: string) {
    r.status == status
  }

  lemma StatusSnoc(records: seq<TaskRecord>, status: string)
    requires |records| > 0
    ensures var k := |records| - 1;
            |set i | 0 <= i < |records| && HasStatus(records[i], status)|
            == |set i | 0 <= i < |records[..k]| && HasStatus(records[..k][i], status)|
               + if HasStatus(records[k], status) then 1 else 0
  {
    hide HasStatus;
    var k := |records| - 1;
    var all := set i | 0 <= i < |records| && HasStatus(records[i], status);
    var rest := set i | 0 <= i < |records[..k]| && HasStatus(records[..k][i], status);
    assert forall i :: 0 <= i < k ==> records[..k][i] == records[i];
    if HasStatus(records[k], status) {
      assert all == rest + {k};
    } else {
      assert all == rest;
    }
  }

  lemma {:induction false} StatusCount(records: seq<TaskRecord>, status: string)
    ensures multiset(TaskStatuses(records))[status]
         == |set i | 0 <= i < |records| && HasStatus(records[i], status)|
  {
    if |records| > 0 {
      var k := |records| - 1;
      StatusCount(records[..k], status);
      StatusSnoc(records, status);
      assert TaskStatuses(records) == TaskStatuses(records[..k]) + [records[k].status];
    }
  }

  /** A full result that the reader accepts, and the records that it reads for the panel. */
  ghost predicate Acceptable(result: EvalResult, manifest: Manifest, panel: seq<TaskRecord>) {
    && result.split == "full" && result.numTasks == |result.tasks| == manifest.fullCount
    && |manifest.fullHash.ids| == |result.tasks|
    && (forall i :: 0 <= i < |result.tasks| ==> manifest.fullHash.ids[i] == result.tasks[i].taskId)
    && |manifest.quickIds| == manifest.quickCount && manifest.quickHash.ids == manifest.quickIds
    && |panel| == |manifest.quickIds|
    && (forall i :: 0 <= i < |panel| ==> panel[i] in result.tasks && panel[i].taskId == manifest.quickIds[i])
    && Summarizable(result.tasks, result.n) && Summarizable(panel, result.n)
  }

  /** The reported mean is within 1e-12 of the one that the records give. */
  ghost predicate MeanConfirmed(result: EvalResult) {
    forall s :: Summarize(result.tasks, result.n) == Ok(s)
      ==> -0.000000000001 <= result.meanScore - s.mean <= 0.000000000001
  }

  /** The reader accepts exactly such results, and reports the two summaries and the panel. */
  lemma ReaderAcceptsExactly(result: EvalResult, manifest: Manifest)
    ensures BuildSummary(result, manifest).Ok?
            <==> MeanConfirmed(result) && exists panel :: Acceptable(result, manifest, panel)
    ensures BuildSummary(result, manifest).Ok? ==>
              var report := BuildSummary(result, manifest).value;
              && Acceptable(result, manifest, report.quickTasks) && report.n == result.n
              && Summarize(result.tasks, result.n) == Ok(report.full)
              && Summarize(report.quickTasks, result.n) == Ok(report.quick)
  {
    if BuildSummary(result, manifest).Ok? {
      AcceptedIsAcceptable(result, manifest);
    }
    if panel :| Acceptable(result, manifest, panel) {
      AcceptableIsAccepted(result, manifest, panel);
    }
  }

  lemma HashNamesTasks(records: seq<TaskRecord>, hash: Hash)
    ensures IdHash(TaskIds(records)) == hash
            <==> |hash.ids| == |records| && forall i :: 0 <= i < |records| ==> hash.ids[i] == records[i].taskId
  {
  }

  lemma SummaryExists(records: seq<TaskRecord>, n: int)
    ensures Summarize(records, n).Ok? <==> Summarizable(records, n)
  {
    var scores, counts := SummaryFigures(records, n);
  }

  lemma AcceptedIsAcceptable(result: EvalResult, manifest: Manifest)
    requires BuildSummary(result, manifest).Ok?
    ensures MeanConfirmed(result)
    ensures var report := BuildSummary(result, manifest).value;
            && Acceptable(result, manifest, report.quickTasks) && report.n == result.n
            && Summarize(result.tasks, result.n) == Ok(report.full)
            && Summarize(report.quickTasks, result.n) == Ok(report.quick)
  {
    hide Summarize, Summarizable;
    HashNamesTasks(result.tasks, manifest.fullHash);
    SummaryExists(result.tasks, result.n);
    SummaryExists(QuickRecords(result.tasks, manifest.quickIds), result.n);
  }

  lemma AcceptableIsAccepted(result: EvalResult, manifest: Manifest, panel: seq<TaskRecord>)
    requires Acceptable(result, manifest, panel)
    ensures BuildSummary(result, manifest).Ok? <==> MeanConfirmed(result)
  {
    hide Summarize, Summarizable;
    HashNamesTasks(result.tasks, manifest.fullHash);
    SummaryExists(result.tasks, result.n);
    SummaryExists(panel, result.n);
    SummarizableDistinct(result.tasks, result.n);
    PanelIsRead(result, manifest, panel);
    assert IdHash(manifest.quickIds) == manifest.quickHash;
  }

  lemma SummarizableDistinct(records: seq<TaskRecord>, n: int)
    requires Summarizable(records, n)
    ensures Distinct(TaskIds(records))
  {
  }

  /** With distinct tasks there is only one way to read the panel. */
  lemma PanelIsRead(result: EvalResult, manifest: Manifest, panel: seq<TaskRecord>)
    requires Acceptable(result, manifest, panel)
    ensures PanelPresent(manifest.quickIds, result.tasks)
    ensures QuickRecords(result.tasks, manifest.quickIds) == panel
  {
    forall i | 0 <= i < |panel|
      ensures manifest.quickIds[i] in TaskIds(result.tasks)
    {
      var k :| 0 <= k < |result.tasks| && result.tasks[k] == panel[i];
      assert TaskIds(result.tasks)[k] == manifest.quickIds[i];
    }
    var quick := QuickRecords(result.tasks, manifest.quickIds);
    forall i | 0 <= i < |panel|
      ensures quick[i] == panel[i]
    {
      var k :| 0 <= k < |result.tasks| && result.tasks[k] == panel[i];
      var m :| 0 <= m < |result.tasks| && result.tasks[m] == quick[i];
      assert k == m;
    }
  }

  // ---------------------------------------------------------------------
  // Every written result passes every check of the reader.

  lemma {:induction false} ScoredBound(ids: seq<TaskId>, scores: Scores, statuses: Statuses, n: nat)
    ensures ScoredTotal(Records(ids, scores, statuses, n)) <= Times(|ids|, n)
  {
    hide Records, ScoredTotal;
    if |ids| > 0 {
      OneMoreRecord(ids, scores, statuses, n, |ids| - 1);
      assert ids[..|ids| - 1 + 1] == ids;
      ScoredBound(ids[..|ids| - 1], scores, statuses, n);
    } else {
      NoRecords(scores, statuses, n);
      assert Records(ids, scores, statuses, n) == [];
    }
  }

  /** What the dataset check established before anything was evaluated. */
  predicate ValidatedBy(ids: seq<TaskId>, manifest: Manifest) {
    Distinct(ids) && |ids| == manifest.fullCount && IdHash(ids) == manifest.fullHash
  }

  /** The quick panel of a manifest is what it claims to be, for the given full split. */
  predicate PanelOk(ids: seq<TaskId>, manifest: Manifest) {
    && |manifest.quickIds| == manifest.quickCount && IdHash(manifest.quickIds) == manifest.quickHash
    && Distinct(manifest.quickIds) && forall q :: q in manifest.quickIds ==> q in ids
  }

  /** The summary of written records: the sums that the writer reported. */
  lemma WrittenSummary(split: string, ids: seq<TaskId>, scores: Scores, statuses: Statuses, n: nat)
    requires n >= 1 && Distinct(ids)
    ensures var result := Written(split, ids, scores, statuses, n);
            var summary := Summarize(result.tasks, n);
            && (summary.Ok? <==> InRange(TaskScores(result.tasks)))
            && (summary.Ok? ==>
                  && summary.value.mean == result.meanScore && summary.value.numTasks == result.numTasks
                  && summary.value.hash == IdHash(ids)
                  && summary.value.scoredSessions == result.scoredSessions
                  && summary.value.expectedSessions == result.expectedSessions)
  {
    hide Mean;
    var records := Records(ids, scores, statuses, n);
    assert TaskIds(records) == ids;
    ScoredBound(ids, scores, statuses, n);
    TimesIsProduct(|ids|, n);
    MeanOfMeans(ids, scores, statuses, n);
    MeanIsRatio(TaskScores(records));
  }

  lemma MeanIsRatio(values: seq<real>)
    ensures Mean(values) == Ratio(SumReal(values), |values|)
  {
  }

  lemma PanelRecords(ids: seq<TaskId>, quick: seq<TaskId>, scores: Scores, statuses: Statuses, n: nat)
    ensures var records := Records(ids, scores, statuses, n);
            && (PanelPresent(quick, records) <==> forall q :: q in quick ==> q in ids)
            && (PanelPresent(quick, records) ==> QuickRecords(records, quick) == Records(quick, scores, statuses, n))
  {
    var records := Records(ids, scores, statuses, n);
    assert TaskIds(records) == ids;
    if PanelPresent(quick, records) {
      var found := QuickRecords(records, quick);
      forall i | 0 <= i < |quick|
        ensures found[i] == RecordOf(quick[i], scores, statuses, n)
      {
        var k :| 0 <= k < |records| && records[k] == found[i];
      }
    }
  }

  lemma PanelInRange(ids: seq<TaskId>, quick: seq<TaskId>, scores: Scores, statuses: Statuses, n: nat)
    requires InRange(TaskScores(Records(ids, scores, statuses, n))) && forall q :: q in quick ==> q in ids
    ensures InRange(TaskScores(Records(quick, scores, statuses, n)))
  {
    var all, panel := TaskScores(Records(ids, scores, statuses, n)), TaskScores(Records(quick, scores, statuses, n));
    forall i | 0 <= i < |quick|
      ensures 0.0 <= panel[i] <= 1.0
    {
      var q := quick[i];
      assert q in quick;
      var k :| 0 <= k < |ids| && ids[k] == q;
      assert panel[i] == all[k];
    }
  }

  /**
   * A full result that the writer wrote for a validated dataset passes the
   * reader if and only if the manifest's quick panel is well formed and the
   * task scores are in range. The report then agrees with the writer on the
   * full split, and on the panel with what the writer writes for the panel
   * alone.
   */
  lemma WriterReaderAgree(ids: seq<TaskId>, scores: Scores, statuses: Statuses, n: nat, manifest: Manifest)
    requires n >= 1 && ValidatedBy(ids, manifest)
    ensures var result := Written("full", ids, scores, statuses, n);
            var report := BuildSummary(result, manifest);
            && (report.Ok? <==> PanelOk(ids, manifest) && InRange(TaskScores(result.tasks)))
            && (report.Ok? ==>
                  var quick := Written("quick", manifest.quickIds, scores, statuses, n);
                  && report.value.full.mean == result.meanScore
                  && report.value.full.scoredSessions == result.scoredSessions
                  && report.value.quickTasks == quick.tasks
                  && report.value.quick.mean == quick.meanScore
                  && report.value.quick.scoredSessions == quick.scoredSessions
                  && Summarize(quick.tasks, n) == Ok(report.value.quick))
  {
    hide Summarize, Mean, Ratio, Records, QuickRecords, TaskScores, InRange, PanelPresent;
    var quickIds := manifest.quickIds;
    var records := Records(ids, scores, statuses, n);
    assert TaskIds(records) == ids;
    WrittenSummary("full", ids, scores, statuses, n);
    PanelRecords(ids, quickIds, scores, statuses, n);
    if PanelPresent(quickIds, records) {
      if Distinct(quickIds) {
        WrittenSummary("quick", quickIds, scores, statuses, n);
        if InRange(TaskScores(records)) {
          PanelInRange(ids, quickIds, scores, statuses, n);
        }
      } else {
        DuplicatesRefused(Records(quickIds, scores, statuses, n), quickIds, n);
      }
    }
  }

  lemma DuplicatesRefused(records: seq<TaskRecord>, ids: seq<TaskId>, n: nat)
    requires |records| == |ids| && !Distinct(ids) && forall i :: 0 <= i < |ids| ==> records[i].taskId == ids[i]
    ensures Summarize(records, n).Err?
  {
    assert TaskIds(records) == ids;
  }

  /** A panel that names its one task twice is hashed and counted correctly, and no result of the dataset passes. */
  lemma DuplicatePanelRefused(scores: Scores, statuses: Statuses, n: nat)
    requires n >= 1
    ensures var manifest := Manifest(1, IdHash([0]), [0, 0], 2, IdHash([0, 0]));
            ValidatedBy([0], manifest) && BuildSummary(Written("full", [0], scores, statuses, n), manifest).Err?
  {
    hide BuildSummary;
    var manifest := Manifest(1, IdHash([0]), [0, 0], 2, IdHash([0, 0]));
    assert manifest.quickIds[0] == manifest.quickIds[1];
    WriterReaderAgree([0], scores, statuses, n, manifest);
  }
}
