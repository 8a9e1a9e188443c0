/**
 * A quick-first evaluation run: at most two stages, each submitted once, scores
 * polled into a result file that a later run resumes from.
 *
 * Tasks stand for the fresh identifiers that each run gives them, so a process
 * starts with an empty queue. The environment writes to the queue; a poll
 * returns what is in it.
 */
module QuickFirst {
  import opened Prelude
  import opened Sorting
  import opened EvalReporting
  import opened SessionScores

  /** What a resume compares with the saved result. */
  datatype Settings = Settings(modelPath: string, n: nat, taskConfig: string, manifest: string)

  datatype Dataset = Dataset(samples: seq<Sample>, quickIds: seq<TaskId>) {
    /** Established by the dataset check. */
    predicate Valid() {
      Distinct(Ids(samples))
    }

    function AllIds(): seq<TaskId> {
      Ids(samples)
    }
  }

  datatype Proc = Proc(
    settings: Settings,
    quickFirst: bool,
    stages: seq<seq<TaskId>>,
    index: nat,
    waiting: Option<seq<TaskId>>,   // the pending tasks of the current stage, once submitted
    scores: Scores,
    statuses: Statuses,
    count: int,
    submitted: seq<TaskId>,
    queue: seq<Entry>)

  datatype File = File(settings: Settings, result: EvalResult)

  datatype State = State(file: Option<File>, quickFile: Option<EvalResult>, proc: Option<Proc>)

  datatype Event =
    | Begin(settings: Settings, quickFirst: bool)
    | Enter
    | Write(entry: Entry)
    | Poll(newScores: Scores, newStatuses: Statuses, done: bool, failed: bool)
    | Close
    | Crash

  const FRESH := State(None, None, None)

  // ---------------------------------------------------------------------
  // The run.

  /** Tasks with all sessions scored are taken over; a resume forgets every partial task. */
  function Reloaded(records: seq<TaskRecord>, n: nat): Scores {
    if |records| == 0 then map[]
    else
      var r, before := records[|records| - 1], Reloaded(records[..|records| - 1], n);
      if r.scoredSessions >= n then before[r.taskId := r.sessionScores] else before
  }

  function ReloadedStatuses(records: seq<TaskRecord>, n: nat): Statuses {
    if |records| == 0 then map[]
    else
      var r, before := records[|records| - 1], ReloadedStatuses(records[..|records| - 1], n);
      if r.scoredSessions >= n then before[r.taskId := r.status] else before
  }

  method Reload(records: seq<TaskRecord>, n: nat) returns (scores: Scores, statuses: Statuses)
    ensures scores == Reloaded(records, n) && statuses == ReloadedStatuses(records, n)
  {
    scores, statuses := map[], map[];
    for i := 0 to |records|
      invariant scores == Reloaded(records[..i], n) && statuses == ReloadedStatuses(records[..i], n)
    {
      assert records[..i + 1][..i] == records[..i];
      var r := records[i];
      if r.scoredSessions >= n {
        scores, statuses := scores[r.taskId := r.sessionScores], statuses[r.taskId := r.status];
      }
    }
    assert records[..|records|] == records;
  }

  predicate KnownTasks(records: seq<TaskRecord>, n: nat, ids: seq<TaskId>) {
    forall i :: 0 <= i < |records| && records[i].scoredSessions >= n ==> records[i].taskId in ids
  }

  function StageIds(d: Dataset, quickFirst: bool): Option<seq<seq<TaskId>>> {
    match EvaluationStages(d.samples, if quickFirst then d.quickIds else [])
    case Err(_) => None
    case Ok(stages) => Some(seq(|stages|, i requires 0 <= i < |stages| => Ids(stages[i])))
  }

  function Pending(stage: seq<TaskId>, scores: Scores, n: nat): (pending: seq<TaskId>)
    ensures forall id :: id in pending <==> id in stage && |if id in scores then scores[id] else []| < n
  {
    if |stage| == 0 then []
    else Pending(stage[..|stage| - 1], scores, n)
         + if |ScoresOf(scores, stage[|stage| - 1])| < n then [stage[|stage| - 1]] else []
  }

  function SessionTotal(ids: seq<TaskId>, scores: Scores): nat {
    if |ids| == 0 then 0
    else SessionTotal(ids[..|ids| - 1], scores) + |ScoresOf(scores, ids[|ids| - 1])|
  }

  function FileOf(d: Dataset, p: Proc): File {
    File(p.settings, Written("full", d.AllIds(), p.scores, p.statuses, p.settings.n))
  }

  function TaskSet(ids: seq<TaskId>): set<TaskId> {
    set id | id in ids
  }

  ghost predicate Enabled(d: Dataset, s: State, e: Event) {
    match e
    case Begin(settings, _) => s.proc.None? && settings.n >= 1
    case Enter => s.proc.Some? && s.proc.value.waiting.None? && s.proc.value.index < |s.proc.value.stages|
    case Write(entry) => s.proc.Some? && MayPut(s.proc.value.queue, entry)
    case Poll(scores, statuses, _, _) =>
      && s.proc.Some? && s.proc.value.waiting.Some? && s.proc.value.index < |s.proc.value.stages|
      && IsRead(s.proc.value.queue, TaskSet(s.proc.value.waiting.value), scores, statuses)
    case Close => s.proc.Some? && s.proc.value.waiting.None? && s.proc.value.index == |s.proc.value.stages|
    case Crash => true
  }

  function SavedTasks(s: State): seq<TaskRecord> {
    if s.file.Some? then s.file.value.result.tasks else []
  }

  predicate MayBegin(d: Dataset, s: State, settings: Settings) {
    s.file.Some? ==> s.file.value.settings == settings && KnownTasks(SavedTasks(s), settings.n, d.AllIds())
  }

  function NewProc(settings: Settings, quickFirst: bool, stages: seq<seq<TaskId>>, tasks: seq<TaskRecord>): Proc {
    Proc(settings, quickFirst, stages, 0, None, Reloaded(tasks, settings.n), ReloadedStatuses(tasks, settings.n), -1,
         [], [])
  }

  function Opened(d: Dataset, s: State, p: Proc): State {
    State(Some(FileOf(d, p)), s.quickFile, Some(p))
  }

  function Begun(d: Dataset, s: State, settings: Settings, quickFirst: bool): State {
    if !MayBegin(d, s, settings) then s
    else
      match StageIds(d, quickFirst)
      case None => s
      case Some(stages) => Opened(d, s, NewProc(settings, quickFirst, stages, SavedTasks(s)))
  }

  /** After the first stage of a quick-first run its tasks are written to a file of their own. */
  function Advanced(s: State, p: Proc): State
    requires p.index < |p.stages|
  {
    State(s.file,
          if p.quickFirst && p.index == 0 then Some(Written("quick", p.stages[0], p.scores, p.statuses, p.settings.n))
          else s.quickFile,
          Some(p.(index := p.index + 1, waiting := None)))
  }

  function Entered(s: State, p: Proc): State
    requires p.index < |p.stages|
  {
    var pending := Pending(p.stages[p.index], p.scores, p.settings.n);
    if |pending| == 0 then Advanced(s, p)
    else s.(proc := Some(p.(waiting := Some(pending), submitted := p.submitted + pending, count := -1)))
  }

  function Polled(d: Dataset, s: State, p: Proc, e: Event): State
    requires e.Poll? && p.index < |p.stages|
  {
    var q := p.(scores := p.scores + e.newScores, statuses := p.statuses + e.newStatuses);
    var current := SessionTotal(d.AllIds(), q.scores);
    var saves := current != p.count || e.done;
    var r := if saves then q.(count := current) else q;
    var t := State(if saves then Some(FileOf(d, r)) else s.file, s.quickFile, Some(r));
    if !e.done then t else if e.failed then t.(proc := None) else Advanced(t, r)
  }

  ghost function Apply(d: Dataset, s: State, e: Event): State
    requires Enabled(d, s, e)
  {
    match e
    case Begin(settings, quickFirst) => Begun(d, s, settings, quickFirst)
    case Enter => Entered(s, s.proc.value)
    case Write(entry) => s.(proc := Some(s.proc.value.(queue := Put(s.proc.value.queue, entry))))
    case Poll(_, _, _, _) => Polled(d, s, s.proc.value, e)
    case Close => State(Some(FileOf(d, s.proc.value)), s.quickFile, None)
    case Crash => s.(proc := None)
  }

  ghost function Run(d: Dataset, s: State, events: seq<Event>): Option<State>
    decreases |events|
  {
    if |events| == 0 then Some(s)
    else if !Enabled(d, s, events[0]) then None
    else Run(d, Apply(d, s, events[0]), events[1..])
  }

  // ---------------------------------------------------------------------
  // Fully scored tasks.

  function FullOf(scores: Scores, n: nat): Scores {
    map id | id in scores && |scores[id]| >= n :: scores[id][..n]
  }

  ghost predicate Within(fewer: Scores, more: Scores) {
    forall id :: id in fewer ==> id in more && more[id] == fewer[id]
  }

  /** The fully scored tasks that a resume would find in the result file. */
  function Saved(s: State): Scores {
    if s.file.None? then map[] else Reloaded(s.file.value.result.tasks, s.file.value.settings.n)
  }

  /** A waiting task of which the process already has all sessions. */
  predicate FullyScored(p: Proc, id: TaskId) {
    p.waiting.Some? && id in p.waiting.value && |ScoresOf(p.scores, id)| >= p.settings.n
  }

  /** No success written for a fully scored task opens a session or goes beyond the best index of one. */
  ghost predicate QuietEvent(s: State, e: Event) {
    e.Write? && s.proc.Some? && Success(e.entry) && FullyScored(s.proc.value, e.entry.key.id) ==>
      Quiet(s.proc.value.queue, e.entry)
  }

  ghost predicate QuietRun(d: Dataset, s: State, events: seq<Event>)
    requires Run(d, s, events).Some?
    decreases |events|
  {
    |events| > 0 ==> QuietEvent(s, events[0]) && QuietRun(d, Apply(d, s, events[0]), events[1..])
  }

  lemma RecordIsFull(id: TaskId, scores: Scores, statuses: Statuses, n: nat)
    requires n >= 1
    ensures var r := RecordOf(id, scores, statuses, n);
            && r.taskId == id
            && (r.scoredSessions >= n <==> id in FullOf(scores, n))
            && (id in FullOf(scores, n) ==> r.sessionScores == FullOf(scores, n)[id])
  {
    hide Mean, Padded;
  }

  /** What is written for a fully scored task is read back, and of no other task anything. */
  lemma {:induction false} ReloadRoundTrip(ids: seq<TaskId>, scores: Scores, statuses: Statuses, n: nat)
    requires n >= 1
    ensures var back := Reloaded(Records(ids, scores, statuses, n), n);
            && (forall id :: id in back <==> id in ids && id in FullOf(scores, n))
            && (forall id :: id in back ==> back[id] == FullOf(scores, n)[id])
  {
    hide RecordOf, FullOf;
    var records := Records(ids, scores, statuses, n);
    if |ids| > 0 {
      var k := |ids| - 1;
      ReloadRoundTrip(ids[..k], scores, statuses, n);
      RecordIsFull(ids[k], scores, statuses, n);
      assert records[..k] == Records(ids[..k], scores, statuses, n);
      assert ids == ids[..k] + [ids[k]];
    }
  }

  /** A fully scored record of a result. */
  ghost predicate Full(records: seq<TaskRecord>, r: TaskRecord, n: nat) {
    r in records && r.scoredSessions >= n
  }

  lemma OtherTask(records: seq<TaskRecord>, r: TaskRecord)
    requires |records| > 0 && Distinct(TaskIds(records)) && r in records[..|records| - 1]
    ensures r.taskId != records[|records| - 1].taskId
  {
    var i :| 0 <= i < |records| - 1 && records[i] == r;
    assert TaskIds(records)[i] != TaskIds(records)[|records| - 1];
  }

  /** Exactly the fully scored tasks of a result are taken over, with the scores and the status it lists. */
  lemma {:induction false} ReloadExactly(records: seq<TaskRecord>, n: nat)
    requires Distinct(TaskIds(records))
    ensures var scores, statuses := Reloaded(records, n), ReloadedStatuses(records, n);
            && (forall id :: id in scores ==> exists r :: Full(records, r, n) && r.taskId == id)
            && statuses.Keys == scores.Keys
            && forall r :: Full(records, r, n) ==>
                 && r.taskId in scores && scores[r.taskId] == r.sessionScores
                 && r.taskId in statuses && statuses[r.taskId] == r.status
  {
    if |records| > 0 {
      var k := |records| - 1;
      var last := records[k];
      assert TaskIds(records[..k]) == TaskIds(records)[..k];
      ReloadExactly(records[..k], n);
      assert records == records[..k] + [last];
      forall r | Full(records, r, n)
        ensures r == last || (Full(records[..k], r, n) && r.taskId != last.taskId)
      {
        if r in records[..k] {
          OtherTask(records, r);
        }
      }
      forall id | id in Reloaded(records, n)
        ensures exists r :: Full(records, r, n) && r.taskId == id
      {
        if id in Reloaded(records[..k], n) {
          var r :| Full(records[..k], r, n) && r.taskId == id;
          assert Full(records, r, n);
        } else {
          assert Full(records, last, n);
        }
      }
    }
  }

  lemma PendingStep(stage: seq<TaskId>, scores: Scores, n: nat)
    requires |stage| > 0
    ensures var k := |stage| - 1;
            Pending(stage, scores, n)
            == Pending(stage[..k], scores, n) + if |ScoresOf(scores, stage[k])| < n then [stage[k]] else []
  {
  }

  /** Pending tasks are submitted in the order of their stage: `at` lists their positions. */
  lemma {:induction false} PendingInOrder(stage: seq<TaskId>, scores: Scores, n: nat) returns (at: seq<nat>)
    ensures |Pending(stage, scores, n)| == |at| && forall k, m :: 0 <= k < m < |at| ==> at[k] < at[m]
    ensures forall k :: 0 <= k < |at| ==> at[k] < |stage| && Pending(stage, scores, n)[k] == stage[at[k]]
    ensures forall i :: 0 <= i < |stage| && |ScoresOf(scores, stage[i])| < n ==> exists k :: 0 <= k < |at| && at[k] == i
  {
    hide Pending, ScoresOf;
    if |stage| == 0 {
      at := [];
      NothingPending(scores, n);
    } else {
      var k := |stage| - 1;
      var before := PendingInOrder(stage[..k], scores, n);
      PendingStep(stage, scores, n);
      at := before + if |ScoresOf(scores, stage[k])| < n then [k] else [];
      forall i | 0 <= i < |stage| && |ScoresOf(scores, stage[i])| < n
        ensures exists m :: 0 <= m < |at| && at[m] == i
      {
        if i < k {
          assert stage[..k][i] == stage[i];
          var m :| 0 <= m < |before| && before[m] == i;
          assert at[m] == i;
        } else {
          assert at[|before|] == k;
        }
      }
    }
  }

  lemma NothingPending(scores: Scores, n: nat)
    ensures Pending([], scores, n) == []
  {
  }

  // ---------------------------------------------------------------------
  // Invariants.

  ghost predicate FileOk(d: Dataset, f: File) {
    && f.settings.n >= 1
    && exists scores, statuses :: f.result == Written("full", d.AllIds(), scores, statuses, f.settings.n)
  }

  /** Submitted tasks lie in the stages so far, and if no stage has a duplicate then neither have they. */
  ghost predicate SubmittedOk(d: Dataset, p: Proc) {
    && (!p.quickFirst || Distinct(d.quickIds) ==> Distinct(p.submitted))
    && forall id :: id in p.submitted ==>
         exists k: nat :: k < |p.stages| && id in p.stages[k] && (k < p.index || (k == p.index && p.waiting.Some?))
  }

  ghost predicate ProcOk(d: Dataset, s: State, p: Proc) {
    && s.file.Some? && s.file.value.settings == p.settings && p.settings.n >= 1
    && StageIds(d, p.quickFirst) == Some(p.stages) && p.index <= |p.stages|
    && (p.waiting.Some? ==> p.index < |p.stages| && forall id :: id in p.waiting.value ==> id in p.stages[p.index])
    && SubmittedOk(d, p) && DistinctKeys(p.queue)
    && (p.quickFirst && p.index >= 1 ==>
          |p.stages| >= 1
          && s.quickFile == Some(Written("quick", p.stages[0], p.scores, p.statuses, p.settings.n)))
  }

  ghost predicate Inv(d: Dataset, s: State) {
    (s.file.Some? ==> FileOk(d, s.file.value)) && (s.proc.Some? ==> ProcOk(d, s, s.proc.value))
  }

  /** A process knows every fully scored task of the file. */
  ghost predicate Covers(s: State) {
    s.proc.Some? ==> Within(Saved(s), FullOf(s.proc.value.scores, s.proc.value.settings.n))
  }

  lemma StagesDisjoint(d: Dataset, quickFirst: bool, i: nat, j: nat, id: TaskId)
    requires d.Valid() && StageIds(d, quickFirst).Some?
    requires var stages := StageIds(d, quickFirst).value; i < j < |stages| && id in stages[i]
    ensures id !in StageIds(d, quickFirst).value[j]
  {
    var others := Others(d.samples, d.quickIds);
    if id in Ids(others) {
      var k :| 0 <= k < |others| && others[k].id == id;
      OthersCount(d.samples, d.quickIds, others[k]);
      assert others[k] in multiset(others);
    }
    assert id in d.quickIds by {
      assert StageIds(d, quickFirst).value[0] == Ids(Panel(d.samples, d.quickIds));
    }
  }

  lemma StageDistinct(d: Dataset, quickFirst: bool, k: nat)
    requires d.Valid() && StageIds(d, quickFirst).Some? && k < |StageIds(d, quickFirst).value|
    requires !quickFirst || Distinct(d.quickIds)
    ensures Distinct(StageIds(d, quickFirst).value[k])
  {
    var stage := StageIds(d, quickFirst).value[k];
    if quickFirst && |d.quickIds| > 0 {
      if k == 0 {
        assert stage == Ids(Panel(d.samples, d.quickIds)) == d.quickIds;
      } else {
        OthersDistinct(d.samples, d.quickIds);
      }
    }
  }

  lemma {:induction false} OthersDistinct(samples: seq<Sample>, quick: seq<TaskId>)
    requires Distinct(Ids(samples))
    ensures Distinct(Ids(Others(samples, quick)))
    ensures forall id :: id in Ids(Others(samples, quick)) ==> id in Ids(samples)
  {
    if |samples| > 0 {
      var rest := samples[1..];
      assert Ids(samples) == [samples[0].id] + Ids(rest);
      assert Distinct(Ids(rest)) by {
        assert forall i :: 0 <= i < |rest| ==> Ids(rest)[i] == Ids(samples)[i + 1];
      }
      OthersDistinct(rest, quick);
      assert Ids(Others(samples, quick))
          == (if samples[0].id in quick then [] else [samples[0].id]) + Ids(Others(rest, quick));
      assert samples[0].id !in Ids(rest);
    }
  }

  lemma {:induction false} PendingDistinct(stage: seq<TaskId>, scores: Scores, n: nat)
    requires Distinct(stage)
    ensures Distinct(Pending(stage, scores, n))
  {
    if |stage| > 0 {
      var k := |stage| - 1;
      PendingDistinct(stage[..k], scores, n);
      assert stage[k] !in stage[..k];
    }
  }

  lemma FileOfOk(d: Dataset, p: Proc)
    requires p.settings.n >= 1
    ensures FileOk(d, FileOf(d, p))
  {
  }

  lemma AdvanceOk(d: Dataset, s: State, p: Proc)
    requires ProcOk(d, s, p) && p.index < |p.stages|
    ensures var t := Advanced(s, p); t.proc.Some? && ProcOk(d, t, t.proc.value)
    ensures Advanced(s, p).file == s.file
    ensures Advanced(s, p).proc.value.scores == p.scores && Advanced(s, p).proc.value.settings == p.settings
  {
    hide Written, StageIds;
  }

  lemma EnterOk(d: Dataset, s: State, p: Proc)
    requires d.Valid() && ProcOk(d, s, p) && p.waiting.None? && p.index < |p.stages|
    ensures var t := Entered(s, p);
            && t.proc.Some? && ProcOk(d, t, t.proc.value) && t.file == s.file
            && t.proc.value.scores == p.scores && t.proc.value.settings == p.settings
  {
    hide Written, StageIds, Advanced;
    var stage := p.stages[p.index];
    var pending := Pending(stage, p.scores, p.settings.n);
    if |pending| == 0 {
      AdvanceOk(d, s, p);
    } else {
      SubmitOk(d, p, pending);
    }
  }

  lemma SubmitOk(d: Dataset, p: Proc, pending: seq<TaskId>)
    requires d.Valid() && SubmittedOk(d, p) && StageIds(d, p.quickFirst) == Some(p.stages)
    requires p.waiting.None? && p.index < |p.stages| && pending == Pending(p.stages[p.index], p.scores, p.settings.n)
    ensures SubmittedOk(d, p.(waiting := Some(pending), submitted := p.submitted + pending, count := -1))
  {
    hide StageIds;
    forall id | id in pending
      ensures id !in p.submitted
    {
      if id in p.submitted {
        var k: nat :| k < |p.stages| && id in p.stages[k] && k < p.index;
        StagesDisjoint(d, p.quickFirst, k, p.index, id);
        assert false;
      }
    }
    if !p.quickFirst || Distinct(d.quickIds) {
      StageDistinct(d, p.quickFirst, p.index);
      PendingDistinct(p.stages[p.index], p.scores, p.settings.n);
      DistinctAppend(p.submitted, pending);
    }
    forall id | id in p.submitted + pending
      ensures exists k: nat :: k < |p.stages| && id in p.stages[k] && (k < p.index || k == p.index)
    {
      if id in pending {
        assert id in p.stages[p.index];
      }
    }
  }

  /** Tasks that a poll does not speak of keep their records. */
  lemma RecordsUntouched(ids: seq<TaskId>, p: Proc, newScores: Scores, newStatuses: Statuses)
    requires forall id :: id in ids ==> id !in newScores && id !in newStatuses
    ensures Written("quick", ids, p.scores + newScores, p.statuses + newStatuses, p.settings.n)
            == Written("quick", ids, p.scores, p.statuses, p.settings.n)
  {
    hide Mean, Padded;
    assert Records(ids, p.scores + newScores, p.statuses + newStatuses, p.settings.n)
        == Records(ids, p.scores, p.statuses, p.settings.n);
    SessionsUntouched(ids, p.scores, newScores, p.settings.n);
  }

  lemma {:induction false} SessionsUntouched(ids: seq<TaskId>, scores: Scores, newScores: Scores, n: nat)
    requires forall id :: id in ids ==> id !in newScores
    ensures Sessions(ids, scores + newScores, n) == Sessions(ids, scores, n)
  {
    if |ids| > 0 {
      SessionsUntouched(ids[..|ids| - 1], scores, newScores, n);
      assert ids[|ids| - 1] in ids;
    }
  }

  lemma PollOk(d: Dataset, s: State, p: Proc, e: Event)
    requires d.Valid() && ProcOk(d, s, p) && s.proc == Some(p) && Enabled(d, s, e) && e.Poll?
    requires FileOk(d, s.file.value)
    ensures Inv(d, Polled(d, s, p, e))
  {
    hide Written, StageIds, Advanced, SessionTotal, FileOf, FileOk, DistinctKeys;
    ReadOfWaiting(p, e);
    var q := p.(scores := p.scores + e.newScores, statuses := p.statuses + e.newStatuses);
    if p.quickFirst && p.index >= 1 {
      forall id | id in p.stages[0]
        ensures id !in p.waiting.value
      {
        StagesDisjoint(d, p.quickFirst, 0, p.index, id);
      }
      RecordsUntouched(p.stages[0], p, e.newScores, e.newStatuses);
    }
    var current := SessionTotal(d.AllIds(), q.scores);
    var saves := current != p.count || e.done;
    var r := if saves then q.(count := current) else q;
    var t := State(if saves then Some(FileOf(d, r)) else s.file, s.quickFile, Some(r));
    FileOfOk(d, r);
    FileSettings(d, r);
    assert SubmittedOk(d, r);
    assert ProcOk(d, t, r);
    if e.done && !e.failed {
      AdvanceOk(d, t, r);
    }
  }

  lemma ReadOfWaiting(p: Proc, e: Event)
    requires e.Poll? && p.waiting.Some? && IsRead(p.queue, TaskSet(p.waiting.value), e.newScores, e.newStatuses)
    ensures forall id :: id in e.newScores || id in e.newStatuses ==> id in p.waiting.value
  {
  }

  lemma FileSettings(d: Dataset, p: Proc)
    ensures FileOf(d, p).settings == p.settings
  {
  }

  lemma StepKeepsInv(d: Dataset, s: State, e: Event)
    requires d.Valid() && Inv(d, s) && Enabled(d, s, e)
    ensures Inv(d, Apply(d, s, e))
  {
    hide Written, StageIds, Advanced, SessionTotal, FileOf, FileOk, Reloaded, ReloadedStatuses, Entered, Polled;
    match e
    case Begin(settings, quickFirst) => BeginOk(d, s, settings, quickFirst);
    case Enter => EnterOk(d, s, s.proc.value);
    case Write(entry) => PutMembers(s.proc.value.queue, entry);
    case Poll(_, _, _, _) => PollOk(d, s, s.proc.value, e);
    case Close => FileOfOk(d, s.proc.value);
    case Crash =>
  }

  lemma BeginOk(d: Dataset, s: State, settings: Settings, quickFirst: bool)
    requires Inv(d, s) && s.proc.None? && settings.n >= 1
    ensures Inv(d, Begun(d, s, settings, quickFirst))
  {
    hide Written, StageIds, SessionTotal, FileOf, FileOk, Reloaded, ReloadedStatuses;
    var t := Begun(d, s, settings, quickFirst);
    if t.proc.Some? {
      FileOfOk(d, t.proc.value);
      FileSettings(d, t.proc.value);
    }
  }

  lemma {:induction false} RunKeepsInv(d: Dataset, s: State, events: seq<Event>)
    requires d.Valid() && Inv(d, s) && Run(d, s, events).Some?
    ensures Inv(d, Run(d, s, events).value)
    decreases |events|
  {
    hide Inv, Enabled, Apply;
    if |events| > 0 {
      StepKeepsInv(d, s, events[0]);
      RunKeepsInv(d, Apply(d, s, events[0]), events[1..]);
    }
  }

  ghost predicate Reachable(d: Dataset, s: State) {
    exists events :: Run(d, FRESH, events) == Some(s)
  }

  lemma ReachableInv(d: Dataset, s: State)
    requires d.Valid() && Reachable(d, s)
    ensures Inv(d, s)
  {
    var events :| Run(d, FRESH, events) == Some(s);
    RunKeepsInv(d, FRESH, events);
  }

  /** The fully scored tasks of a written file belong to the dataset and have exactly n scores each. */
  lemma SavedFacts(d: Dataset, f: File)
    requires FileOk(d, f)
    ensures forall id :: id in Reloaded(f.result.tasks, f.settings.n) ==>
              id in d.AllIds() && |Reloaded(f.result.tasks, f.settings.n)[id]| == f.settings.n
  {
    hide Mean, Padded;
    var scores, statuses :| f.result == Written("full", d.AllIds(), scores, statuses, f.settings.n);
    ReloadRoundTrip(d.AllIds(), scores, statuses, f.settings.n);
  }

  /** What a file written by a process saves. */
  lemma SavedByProc(d: Dataset, p: Proc)
    requires p.settings.n >= 1
    ensures var back, full := Reloaded(FileOf(d, p).result.tasks, p.settings.n), FullOf(p.scores, p.settings.n);
            && (forall id :: id in back <==> id in d.AllIds() && id in full)
            && (forall id :: id in back ==> back[id] == full[id])
  {
    ReloadRoundTrip(d.AllIds(), p.scores, p.statuses, p.settings.n);
  }

  /** A process that knows what the file saves writes a file that saves it too. */
  lemma WritingGrows(d: Dataset, s: State, p: Proc)
    requires Inv(d, s) && p.settings.n >= 1
    requires s.file.Some? ==> s.file.value.settings == p.settings
    requires Within(Saved(s), FullOf(p.scores, p.settings.n))
    ensures var t := State(Some(FileOf(d, p)), s.quickFile, Some(p)); Within(Saved(s), Saved(t)) && Covers(t)
  {
    hide FileOk, Reloaded, FullOf, Written, ProcOk;
    SavedByProc(d, p);
    if s.file.Some? {
      SavedFacts(d, s.file.value);
    }
  }

  lemma BeginGrows(d: Dataset, s: State, settings: Settings, quickFirst: bool)
    requires Inv(d, s) && s.proc.None? && settings.n >= 1
    ensures var t := Begun(d, s, settings, quickFirst); Within(Saved(s), Saved(t)) && Covers(t)
  {
    hide FileOk, Reloaded, Written, StageIds, FileOf;
    var t := Begun(d, s, settings, quickFirst);
    if t.proc.Some? {
      if s.file.Some? {
        SavedFacts(d, s.file.value);
      }
      assert Within(Saved(s), FullOf(t.proc.value.scores, settings.n));
      WritingGrows(d, s, t.proc.value);
    }
  }

  /** The queue selects these scores for a task. */
  ghost predicate Selects(queue: seq<Entry>, ids: set<TaskId>, id: TaskId, scores: seq<real>) {
    exists final :: FinalOf(queue, ids, final) && HasScores(final, id, scores)
  }

  /** What a process holds of a fully scored waiting task is what the queue still selects for it. */
  ghost predicate Held(p: Proc) {
    forall id :: FullyScored(p, id) ==> Selects(p.queue, TaskSet(p.waiting.value), id, ScoresOf(p.scores, id))
  }

  ghost predicate Kept(s: State) {
    Covers(s) && (s.proc.Some? ==> Held(s.proc.value))
  }

  lemma WriteKeepsHeld(p: Proc, entry: Entry)
    requires DistinctKeys(p.queue) && MayPut(p.queue, entry) && Held(p)
    requires Success(entry) && FullyScored(p, entry.key.id) ==> Quiet(p.queue, entry)
    ensures Held(p.(queue := Put(p.queue, entry)))
  {
    hide FinalOf, HasScores, Put, DistinctKeys, MayPut, Quiet;
    var q := p.(queue := Put(p.queue, entry));
    forall id | FullyScored(q, id)
      ensures Selects(q.queue, TaskSet(q.waiting.value), id, ScoresOf(q.scores, id))
    {
      var ids := TaskSet(p.waiting.value);
      var first :| FinalOf(p.queue, ids, first) && HasScores(first, id, ScoresOf(p.scores, id));
      var second := FinalExists(q.queue, ids);
      QuietExactly(p.queue, entry, ids, first, second, id);
      SelectionKeepsScores(first, second, id, ScoresOf(p.scores, id));
    }
  }

  /** A poll says of a fully scored task exactly what the process already holds of it. */
  lemma PollRepeatsHeld(p: Proc, e: Event, id: TaskId)
    requires e.Poll? && p.waiting.Some? && IsRead(p.queue, TaskSet(p.waiting.value), e.newScores, e.newStatuses)
    requires DistinctKeys(p.queue) && Held(p) && FullyScored(p, id)
    ensures ScoresOf(e.newScores, id) == ScoresOf(p.scores, id)
  {
    hide FinalOf, HasScores, IsRead, DistinctKeys;
    var ids, held := TaskSet(p.waiting.value), ScoresOf(p.scores, id);
    var final :| FinalOf(p.queue, ids, final) && HasScores(final, id, held);
    ReadRepeats(p.queue, ids, final, id, held, e.newScores, e.newStatuses);
  }

  lemma PollKeepsFull(p: Proc, e: Event)
    requires e.Poll? && p.waiting.Some? && IsRead(p.queue, TaskSet(p.waiting.value), e.newScores, e.newStatuses)
    requires DistinctKeys(p.queue) && Held(p)
    ensures Within(FullOf(p.scores, p.settings.n), FullOf(p.scores + e.newScores, p.settings.n))
  {
    hide IsRead, DistinctKeys, Held;
    ReadOfWaiting(p, e);
    forall id | id in p.scores && |p.scores[id]| >= p.settings.n && id in e.newScores
      ensures e.newScores[id] == p.scores[id]
    {
      PollRepeatsHeld(p, e, id);
    }
  }

  lemma PollKeepsHeld(p: Proc, e: Event)
    requires e.Poll? && p.waiting.Some? && IsRead(p.queue, TaskSet(p.waiting.value), e.newScores, e.newStatuses)
    requires DistinctKeys(p.queue) && Held(p) && p.settings.n >= 1
    ensures Held(p.(scores := p.scores + e.newScores, statuses := p.statuses + e.newStatuses))
  {
    hide FinalOf, HasScores, DistinctKeys;
    var q := p.(scores := p.scores + e.newScores, statuses := p.statuses + e.newStatuses);
    var ids := TaskSet(p.waiting.value);
    var final :| FinalOf(p.queue, ids, final) && forall id :: HasScores(final, id, ScoresOf(e.newScores, id));
    forall id | FullyScored(q, id)
      ensures Selects(q.queue, ids, id, ScoresOf(q.scores, id))
    {
      if id !in e.newScores {
        assert FullyScored(p, id);
        PollRepeatsHeld(p, e, id);
      }
      assert HasScores(final, id, ScoresOf(e.newScores, id));
    }
  }

  lemma PollGrows(d: Dataset, s: State, p: Proc, e: Event)
    requires Inv(d, s) && s.proc == Some(p) && Kept(s) && Enabled(d, s, e) && e.Poll?
    ensures var t := Polled(d, s, p, e); Within(Saved(s), Saved(t)) && Kept(t)
  {
    hide FileOk, Reloaded, FullOf, Written, StageIds, FileOf, SessionTotal, SubmittedOk, IsRead, DistinctKeys, Held;
    PollKeepsFull(p, e);
    PollKeepsHeld(p, e);
    var q := p.(scores := p.scores + e.newScores, statuses := p.statuses + e.newStatuses);
    var current := SessionTotal(d.AllIds(), q.scores);
    HeldElsewhere(q, current);
    if current != p.count || e.done {
      WritingGrows(d, s, q.(count := current));
    }
  }

  /** Counting changes nothing that is held, and a stage that is left waits for nobody. */
  lemma HeldElsewhere(p: Proc, count: int)
    ensures Held(p) ==> Held(p.(count := count))
    ensures forall q: Proc :: q.waiting.None? ==> Held(q)
  {
  }

  lemma EnterKeepsHeld(s: State, p: Proc)
    requires p.index < |p.stages| && p.waiting.None?
    ensures Entered(s, p).proc.Some? && Held(Entered(s, p).proc.value)
  {
    hide Written;
  }

  lemma StepGrows(d: Dataset, s: State, e: Event)
    requires d.Valid() && Inv(d, s) && Kept(s) && Enabled(d, s, e) && QuietEvent(s, e)
    ensures Within(Saved(s), Saved(Apply(d, s, e))) && Kept(Apply(d, s, e))
  {
    hide FileOk, Reloaded, FullOf, Written, StageIds, FileOf, SubmittedOk, Entered, Polled, Begun, Held, Quiet, IsRead,
         DistinctKeys, Put, MayPut;
    match e
    case Begin(settings, quickFirst) =>
      BeginGrows(d, s, settings, quickFirst);
      BeginHeld(d, s, settings, quickFirst);
    case Enter =>
      EnterOk(d, s, s.proc.value);
      EnterKeepsHeld(s, s.proc.value);
    case Write(entry) => WriteKeepsHeld(s.proc.value, entry);
    case Poll(_, _, _, _) => PollGrows(d, s, s.proc.value, e);
    case Close => WritingGrows(d, s, s.proc.value);
    case Crash =>
  }

  lemma BeginHeld(d: Dataset, s: State, settings: Settings, quickFirst: bool)
    requires s.proc.None?
    ensures var t := Begun(d, s, settings, quickFirst); t.proc.Some? ==> Held(t.proc.value)
  {
    hide FileOf;
  }

  lemma {:induction false} RunGrows(d: Dataset, s: State, events: seq<Event>)
    requires d.Valid() && Inv(d, s) && Kept(s) && Run(d, s, events).Some? && QuietRun(d, s, events)
    ensures Within(Saved(s), Saved(Run(d, s, events).value)) && Kept(Run(d, s, events).value)
    decreases |events|
  {
    hide Inv, Kept, Enabled, Apply, Saved, QuietEvent;
    if |events| > 0 {
      StepGrows(d, s, events[0]);
      StepKeepsInv(d, s, events[0]);
      RunGrows(d, Apply(d, s, events[0]), events[1..]);
    }
  }

  // ---------------------------------------------------------------------
  // Main results, over every run with crashes and restarts.

  /** Within one process no task is submitted twice, if a quick-first panel has no duplicate. */
  lemma SubmittedOnce(d: Dataset, s: State)
    requires d.Valid() && Reachable(d, s) && s.proc.Some? && (s.proc.value.quickFirst ==> Distinct(d.quickIds))
    ensures Distinct(s.proc.value.submitted)
  {
    hide Written, StageIds, FileOk;
    ReachableInv(d, s);
  }

  /** Every task of a stage that was entered has been submitted or has all its sessions scored. */
  ghost predicate Accounted(p: Proc) {
    && (p.waiting.Some? ==> forall id :: id in p.waiting.value ==> id in p.submitted)
    && forall k: nat, id ::
         k < |p.stages| && (k < p.index || (k == p.index && p.waiting.Some?)) && id in p.stages[k]
         ==> id in p.submitted || |ScoresOf(p.scores, id)| >= p.settings.n
  }

  lemma EnterAccounts(s: State, p: Proc)
    requires Accounted(p) && p.waiting.None? && p.index < |p.stages|
    ensures Entered(s, p).proc.Some? && Accounted(Entered(s, p).proc.value)
  {
    hide Written;
  }

  lemma PollAccounts(d: Dataset, s: State, p: Proc, e: Event)
    requires Accounted(p) && e.Poll? && p.waiting.Some? && p.index < |p.stages|
    requires IsRead(p.queue, TaskSet(p.waiting.value), e.newScores, e.newStatuses)
    ensures Polled(d, s, p, e).proc.Some? ==> Accounted(Polled(d, s, p, e).proc.value)
  {
    hide Written, SessionTotal, FileOf, IsRead;
    ReadOfWaiting(p, e);
  }

  lemma StepAccounts(d: Dataset, s: State, e: Event)
    requires d.Valid() && Inv(d, s) && Enabled(d, s, e) && (s.proc.Some? ==> Accounted(s.proc.value))
    ensures var t := Apply(d, s, e); t.proc.Some? ==> Accounted(t.proc.value)
  {
    hide Entered, Polled, FileOf, IsRead, Written, StageIds, FileOk;
    match e
    case Enter => EnterAccounts(s, s.proc.value);
    case Poll(_, _, _, _) => PollAccounts(d, s, s.proc.value, e);
    case _ =>
  }

  lemma {:induction false} RunAccounts(d: Dataset, s: State, events: seq<Event>)
    requires d.Valid() && Inv(d, s) && Run(d, s, events).Some? && (s.proc.Some? ==> Accounted(s.proc.value))
    ensures var t := Run(d, s, events).value; t.proc.Some? ==> Accounted(t.proc.value)
    decreases |events|
  {
    hide Inv, Enabled, Apply, Accounted;
    if |events| > 0 {
      StepKeepsInv(d, s, events[0]);
      StepAccounts(d, s, events[0]);
      RunAccounts(d, Apply(d, s, events[0]), events[1..]);
    }
  }

  lemma {:induction false} EverySampleStaged(d: Dataset, quickFirst: bool, id: TaskId) returns (k: nat)
    requires StageIds(d, quickFirst).Some? && id in d.AllIds()
    ensures k < |StageIds(d, quickFirst).value| && id in StageIds(d, quickFirst).value[k]
  {
    var stages := StageIds(d, quickFirst).value;
    if quickFirst && |d.quickIds| > 0 {
      if id in d.quickIds {
        k := 0;
        assert stages[0] == Ids(Panel(d.samples, d.quickIds)) == d.quickIds;
      } else {
        k := 1;
        var i :| 0 <= i < |d.samples| && d.samples[i].id == id;
        var at := OthersInOrder(d.samples, d.quickIds);
        var m :| 0 <= m < |at| && at[m] == i;
        assert Ids(Others(d.samples, d.quickIds))[m] == id;
      }
    } else {
      k := 0;
    }
  }

  /**
   * A process that comes to its end has submitted every task of the dataset, or
   * had all its sessions scored when its stage was entered.
   */
  lemma NothingForgotten(d: Dataset, s: State, id: TaskId)
    requires d.Valid() && Reachable(d, s) && Enabled(d, s, Close) && id in d.AllIds()
    ensures var p := s.proc.value;
            id in p.submitted || |if id in p.scores then p.scores[id] else []| >= p.settings.n
  {
    hide Run, Written, FileOk, StageIds, SubmittedOk;
    ReachableInv(d, s);
    var events :| Run(d, FRESH, events) == Some(s);
    RunAccounts(d, FRESH, events);
    var k := EverySampleStaged(d, s.proc.value.quickFirst, id);
  }

  /** The number of scores that a process has for the tasks of the dataset, task by task. */
  lemma {:induction false} TotalOf(ids: seq<TaskId>, scores: Scores) returns (counts: seq<int>)
    ensures |counts| == |ids|
    ensures forall i :: 0 <= i < |ids| ==> counts[i] == |if ids[i] in scores then scores[ids[i]] else []|
    ensures SessionTotal(ids, scores) == Sum(counts)
  {
    if |ids| == 0 {
      counts := [];
    } else {
      var k := |ids| - 1;
      var before := TotalOf(ids[..k], scores);
      counts := before + [|ScoresOf(scores, ids[k])|];
      SumSnoc(before, |ScoresOf(scores, ids[k])|);
    }
  }

  /** A file holds the settings and one record for each task of the dataset. */
  ghost predicate Holds(d: Dataset, f: File, settings: Settings, scores: Scores, statuses: Statuses) {
    && f.settings == settings && |f.result.tasks| == |d.AllIds()|
    && forall i :: 0 <= i < |d.AllIds()| ==>
         IsRecord(f.result.tasks[i], d.AllIds()[i], scores, statuses, settings.n)
  }

  lemma FileHolds(d: Dataset, p: Proc)
    requires p.settings.n >= 1
    ensures Holds(d, FileOf(d, p), p.settings, p.scores, p.statuses)
  {
    WrittenRecords(d.AllIds(), p.scores, p.statuses, p.settings.n);
  }

  /**
   * A poll brings the scores and statuses it read into the file exactly when the
   * number of scores changed or the work is done, and leaves the file alone
   * otherwise; done work ends the stage, failed work the process.
   */
  lemma PollSaves(d: Dataset, s: State, p: Proc, e: Event) returns (counts: seq<int>)
    requires e.Poll? && p.index < |p.stages| && p.settings.n >= 1
    ensures var t, scores := Polled(d, s, p, e), p.scores + e.newScores;
            && |counts| == |d.AllIds()|
            && (forall i :: 0 <= i < |counts| ==>
                  counts[i] == |if d.AllIds()[i] in scores then scores[d.AllIds()[i]] else []|)
            && (if e.done || Sum(counts) != p.count
                then t.file.Some? && Holds(d, t.file.value, p.settings, scores, p.statuses + e.newStatuses)
                else t.file == s.file)
            && (e.done && e.failed <==> t.proc.None?)
            && (t.proc.Some? ==>
                  && t.proc.value.scores == scores && t.proc.value.statuses == p.statuses + e.newStatuses
                  && t.proc.value.count == Sum(counts) && t.proc.value.submitted == p.submitted
                  && t.proc.value.index == (if e.done then p.index + 1 else p.index)
                  && t.proc.value.waiting == if e.done then None else p.waiting)
  {
    hide Sum, SessionTotal, FileOf, Holds, Written;
    var q := p.(scores := p.scores + e.newScores, statuses := p.statuses + e.newStatuses);
    counts := TotalOf(d.AllIds(), q.scores);
    FileHolds(d, q.(count := SessionTotal(d.AllIds(), q.scores)));
  }

  /**
   * A process starts exactly when a saved result has its settings and only known
   * tasks and the panel can be planned; it then has what was fully scored, has
   * submitted nothing, and has written the file anew. Otherwise nothing changes.
   */
  lemma BeginExactly(d: Dataset, s: State, settings: Settings, quickFirst: bool)
    requires settings.n >= 1
    requires s.proc.None? && (s.file.Some? ==> Distinct(TaskIds(s.file.value.result.tasks)))
    ensures var t, tasks := Begun(d, s, settings, quickFirst), if s.file.Some? then s.file.value.result.tasks else [];
            && (t.proc.Some?
                <==> (s.file.Some? ==> s.file.value.settings == settings)
                     && (forall r :: r in tasks && r.scoredSessions >= settings.n ==> r.taskId in d.AllIds())
                     && (quickFirst ==> forall id :: id in d.quickIds ==> id in d.AllIds()))
            && (t.proc.None? ==> t == s)
            && (t.proc.Some? ==>
                  var p := t.proc.value;
                  && p.settings == settings && p.quickFirst == quickFirst && t.quickFile == s.quickFile
                  && p.index == 0 && p.waiting == None && p.submitted == [] && p.queue == []
                  && (forall id :: id in p.scores
                        <==> exists r :: r in tasks && r.taskId == id && r.scoredSessions >= settings.n)
                  && (forall r :: r in tasks && r.scoredSessions >= settings.n ==>
                        && r.taskId in p.scores && p.scores[r.taskId] == r.sessionScores
                        && r.taskId in p.statuses && p.statuses[r.taskId] == r.status)
                  && t.file.Some? && Holds(d, t.file.value, settings, p.scores, p.statuses))
  {
    hide Written, FileOf, Holds, Reloaded, ReloadedStatuses;
    var tasks := SavedTasks(s);
    ReloadExactly(tasks, settings.n);
    assert forall r :: r in tasks && r.scoredSessions >= settings.n ==> Full(tasks, r, settings.n);
    KnownExactly(tasks, settings.n, d.AllIds());
    var t := Begun(d, s, settings, quickFirst);
    if t.proc.Some? {
      FileHolds(d, t.proc.value);
    }
  }

  lemma KnownExactly(records: seq<TaskRecord>, n: nat, ids: seq<TaskId>)
    ensures KnownTasks(records, n, ids) <==> forall r :: r in records && r.scoredSessions >= n ==> r.taskId in ids
  {
    if forall r :: r in records && r.scoredSessions >= n ==> r.taskId in ids {
      forall i | 0 <= i < |records| && records[i].scoredSessions >= n
        ensures records[i].taskId in ids
      {
        assert records[i] in records;
      }
    }
  }

  lemma {:induction false} AllPending(stage: seq<TaskId>, n: nat)
    requires n >= 1
    ensures Pending(stage, map[], n) == stage
  {
    if |stage| > 0 {
      AllPending(stage[..|stage| - 1], n);
    }
  }

  lemma {:induction false} RunThen(d: Dataset, s: State, events: seq<Event>, t: State, e: Event)
    requires Run(d, s, events) == Some(t) && Enabled(d, t, e)
    ensures Run(d, s, events + [e]) == Some(Apply(d, t, e))
    ensures QuietRun(d, s, events) && QuietEvent(t, e) ==> QuietRun(d, s, events + [e])
    decreases |events|
  {
    hide Enabled, Apply, QuietEvent;
    var all := events + [e];
    if |events| > 0 {
      assert all[0] == events[0] && all[1..] == events[1..] + [e];
      RunThen(d, Apply(d, s, events[0]), events[1..], t, e);
    } else {
      assert all == [e] && all[1..] == [];
      NothingRun(d, Apply(d, t, e));
    }
  }

  lemma NothingRun(d: Dataset, s: State)
    ensures Run(d, s, []) == Some(s) && QuietRun(d, s, [])
  {
  }

  /** The state after a first process has begun and entered its first stage. */
  lemma FirstStage(d: Dataset, settings: Settings, quickFirst: bool, stages: seq<seq<TaskId>>)
    returns (events: seq<Event>, s: State)
    requires settings.n >= 1 && StageIds(d, quickFirst) == Some(stages) && |stages| > 0 && |stages[0]| > 0
    ensures Run(d, FRESH, events) == Some(s) && QuietRun(d, FRESH, events)
    ensures s.proc
            == Some(NewProc(settings, quickFirst, stages, []).(waiting := Some(stages[0]), submitted := stages[0]))
  {
    hide StageIds, FileOf;
    var p := NewProc(settings, quickFirst, stages, []);
    var begin := Begin(settings, quickFirst);
    NothingRun(d, FRESH);
    RunThen(d, FRESH, [], FRESH, begin);
    var begun := Apply(d, FRESH, begin);
    assert begun.proc == Some(p);
    RunThen(d, FRESH, [] + [begin], begun, Enter);
    AllPending(stages[0], settings.n);
    assert p.submitted + stages[0] == stages[0];
    events, s := [] + [begin] + [Enter], Apply(d, begun, Enter);
  }

  /** A first quick-first process submits its whole panel at once, duplicates and all. */
  lemma PanelSubmitted(d: Dataset) returns (s: State)
    requires |d.quickIds| > 0 && Contained(d.quickIds, d.samples)
    ensures Reachable(d, s) && s.proc.Some? && s.proc.value.submitted == d.quickIds
  {
    hide Run;
    var stages := StageIds(d, true).value;
    assert stages[0] == Ids(Panel(d.samples, d.quickIds)) == d.quickIds;
    var events;
    events, s := FirstStage(d, Settings("", 1, "", ""), true, stages);
  }

  /** No process of a dataset ever submits a task twice exactly when a panel that can be planned has no duplicate. */
  lemma SubmittedOnceExactly(d: Dataset)
    requires d.Valid()
    ensures (forall s :: Reachable(d, s) && s.proc.Some? ==> Distinct(s.proc.value.submitted))
            <==> (Contained(d.quickIds, d.samples) ==> Distinct(d.quickIds))
  {
    hide Reachable;
    if Contained(d.quickIds, d.samples) && !Distinct(d.quickIds) {
      var s := PanelSubmitted(d);
    } else {
      forall s | Reachable(d, s) && s.proc.Some?
        ensures Distinct(s.proc.value.submitted)
      {
        ReachablePlan(d, s);
        SubmittedOnce(d, s);
      }
    }
  }

  lemma ReachablePlan(d: Dataset, s: State)
    requires d.Valid() && Reachable(d, s) && s.proc.Some?
    ensures s.proc.value.quickFirst ==> Contained(d.quickIds, d.samples)
  {
    hide Written, FileOk, SubmittedOk;
    ReachableInv(d, s);
  }

  ghost predicate QuietlyReachable(d: Dataset, s: State) {
    exists events :: Run(d, FRESH, events) == Some(s) && QuietRun(d, FRESH, events)
  }

  /**
   * Over every quiet run, what the file says of a fully scored task is there to
   * stay, across saves, crashes and restarts.
   */
  lemma FullyScoredOnlyGrow(d: Dataset, s: State, events: seq<Event>)
    requires d.Valid() && QuietlyReachable(d, s) && Run(d, s, events).Some? && QuietRun(d, s, events)
    ensures forall id :: id in Saved(s) ==>
              var t := Run(d, s, events).value; id in Saved(t) && Saved(t)[id] == Saved(s)[id]
  {
    var before :| Run(d, FRESH, before) == Some(s) && QuietRun(d, FRESH, before);
    hide Inv, Kept, Run, QuietRun, Saved;
    FreshOk(d);
    RunKeepsInv(d, FRESH, before);
    RunGrows(d, FRESH, before);
    RunGrows(d, s, events);
  }

  lemma FreshOk(d: Dataset)
    ensures Inv(d, FRESH) && Kept(FRESH)
  {
  }

  lemma {:induction false} NoPrompts(queue: seq<Entry>, ids: set<TaskId>)
    requires forall x :: x in queue ==> !x.key.Prompt?
    ensures StatusesOf(queue, ids) == map[]
  {
    if |queue| > 0 {
      NoPrompts(queue[..|queue| - 1], ids);
    }
  }

  ghost predicate OneSession(queue: seq<Entry>, best: Entry) {
    && best in queue && best.key.Trajectory?
    && forall x :: x in queue ==> Success(x) && x.key.id == 0 && x.key.session == 0 && x.key.index <= best.key.index
  }

  /** Reading a queue of successes of one session: the score of the highest index. */
  lemma ReadOneSession(queue: seq<Entry>, best: Entry)
    requires OneSession(queue, best)
    ensures IsRead(queue, {0}, map[0 := [best.score]], map[])
  {
    NoPrompts(queue, {0});
    var final := map[(0, 0) := best];
    var scores: Scores := map[0 := [best.score]];
    forall id: TaskId
      ensures HasScores(final, id, ScoresOf(scores, id))
    {
      assert IsScoreList(final, id, if id == 0 then [0] else [], ScoresOf(scores, id));
    }
    assert FinalOf(queue, {0}, final);
  }

  /** A poll that saves puts every full score list of the dataset into the file. */
  lemma SavingPoll(d: Dataset, s: State, p: Proc, e: Event, id: TaskId)
    requires e.Poll? && !e.failed && p.index < |p.stages| && p.settings.n >= 1 && (e.done || p.count < 0)
    requires id in d.AllIds() && id in e.newScores && |e.newScores[id]| == p.settings.n
    ensures var t := Polled(d, s, p, e); id in Saved(t) && Saved(t)[id] == e.newScores[id]
  {
    hide Written, Reloaded, SessionTotal;
    var q := p.(scores := p.scores + e.newScores, statuses := p.statuses + e.newStatuses);
    var r := q.(count := SessionTotal(d.AllIds(), q.scores));
    SavedByProc(d, r);
  }

  /** A rollout reports a success of task 0, and the poll after it saves that score. */
  lemma ReportAndPoll(d: Dataset, from: State, events: seq<Event>, t: State, p: Proc, entry: Entry, done: bool)
    returns (longer: seq<Event>, next: State)
    requires Run(d, from, events) == Some(t) && t.proc == Some(p) && p.waiting == Some([0]) && p.index < |p.stages|
    requires p.settings.n == 1 && 0 in d.AllIds() && (done || p.count < 0)
    requires MayPut(p.queue, entry) && OneSession(Put(p.queue, entry), entry)
    ensures Run(d, from, longer) == Some(next)
    ensures 0 in Saved(next) && Saved(next)[0] == [entry.score]
    ensures QuietRun(d, from, events) && !FullyScored(p, 0) ==> QuietRun(d, from, longer)
    ensures !done ==> next.proc.Some? && next.proc.value.queue == Put(p.queue, entry)
                      && next.proc.value.waiting == p.waiting && next.proc.value.stages == p.stages
                      && next.proc.value.index == p.index && next.proc.value.settings == p.settings
  {
    hide FileOf, Run, QuietRun, Saved, SessionTotal, Put, IsRead, Written;
    var write, poll := Write(entry), Poll(map[0 := [entry.score]], map[], done, false);
    var q := p.(queue := Put(p.queue, entry));
    var u := Apply(d, t, write);
    RunThen(d, from, events, t, write);
    ReadOneSession(q.queue, entry);
    assert TaskSet([0]) == {0};
    next := Polled(d, u, q, poll);
    SavingPoll(d, u, q, poll, 0);
    RunThen(d, from, events + [write], u, poll);
    longer := events + [write] + [poll];
  }

  lemma OneTaskPlan(d: Dataset)
    requires d == Dataset([Sample(0, 0)], [])
    ensures d.Valid() && 0 in d.AllIds() && StageIds(d, false) == Some([[0]])
  {
    var stages := EvaluationStages(d.samples, []).value;
    assert Ids(d.samples) == [0] && Ids(stages[0]) == [0];
    assert StageIds(d, false).value == [[0]];
  }

  /**
   * A run that is not quiet: a success is saved, a later trajectory of the same
   * session succeeds with another score, and the saved score is replaced.
   */
  lemma LaterTrajectoryReplacesAScore() returns (d: Dataset, s: State, events: seq<Event>)
    ensures d.Valid() && QuietlyReachable(d, s) && Run(d, s, events).Some?
    ensures 0 in Saved(s) && Saved(s)[0] == [1.0]
    ensures var t := Run(d, s, events).value; 0 in Saved(t) && Saved(t)[0] == [0.0]
  {
    hide Run, QuietRun, Saved;
    d := Dataset([Sample(0, 0)], []);
    OneTaskPlan(d);
    var early, late := Entry(Trajectory(0, 0, 0), "success", 1.0), Entry(Trajectory(0, 0, 1), "success", 0.0);
    var start, s0 := FirstStage(d, Settings("", 1, "", ""), false, [[0]]);
    assert Put([], early) == [early] && Put([early], late) == [early] + Put([], late) == [early, late];
    assert [early][1..] == [];
    var before;
    before, s := ReportAndPoll(d, FRESH, start, s0, s0.proc.value, early, false);
    NothingRun(d, s);
    var t;
    events, t := ReportAndPoll(d, s, [], s, s.proc.value, late, true);
  }

  /**
   * When a quick-first run is about to end, the quick result it wrote half-way
   * is exactly what the reader derives for the panel from the full result.
   */
  lemma QuickFileIsTheReport(d: Dataset, s: State, manifest: Manifest)
    requires d.Valid() && |d.quickIds| > 0 && Reachable(d, s) && Enabled(d, s, Close) && s.proc.value.quickFirst
    requires ValidatedBy(d.AllIds(), manifest) && manifest.quickIds == d.quickIds
    requires BuildSummary(Apply(d, s, Close).file.value.result, manifest).Ok?
    ensures var report := BuildSummary(Apply(d, s, Close).file.value.result, manifest).value;
            s.quickFile.Some? && report.quickTasks == s.quickFile.value.tasks
            && report.quick.mean == s.quickFile.value.meanScore
  {
    hide Written, BuildSummary, FileOk, SubmittedOk;
    ReachableInv(d, s);
    var p := s.proc.value;
    assert |p.stages| == 2 && p.stages[0] == d.quickIds by {
      StagesRearrange(d.samples, d.quickIds);
    }
    WriterReaderAgree(d.AllIds(), p.scores, p.statuses, p.settings.n, manifest);
  }

  // ---------------------------------------------------------------------
  // The evaluation loop as the program has it.

  class Evaluation {
    const d: Dataset
    var file: Option<File>
    var quickFile: Option<EvalResult>
    var running: bool
    var settings: Settings
    var quickFirst: bool
    var stages: seq<seq<TaskId>>
    var index: nat
    var waiting: Option<seq<TaskId>>
    var scores: Scores
    var statuses: Statuses
    var count: int
    var submitted: seq<TaskId>
    var queue: seq<Entry>

    ghost function Process(): Proc
      reads this
    {
      Proc(settings, quickFirst, stages, index, waiting, scores, statuses, count, submitted, queue)
    }

    ghost function Value(): State
      reads this
    {
      State(file, quickFile, if running then Some(Process()) else None)
    }

    constructor (d: Dataset)
      ensures this.d == d && Value() == FRESH
    {
      this.d, file, quickFile, running := d, None, None, false;
      settings, quickFirst, stages, index, waiting := Settings("", 1, "", ""), false, [], 0, None;
      scores, statuses, count, submitted, queue := map[], map[], -1, [], [];
    }

    /** The result file is replaced in one step. */
    method Save()
      modifies this`file
      ensures file == Some(FileOf(d, Process()))
    {
      var result := WriteResult("full", d.AllIds(), scores, statuses, settings.n);
      file := Some(File(settings, result));
    }

    method OpenPlan(newSettings: Settings, first: bool, planned: seq<seq<TaskId>>)
      modifies this`settings, this`quickFirst, this`stages, this`index, this`waiting, this`count
      ensures settings == newSettings && quickFirst == first && stages == planned
      ensures index == 0 && waiting == None && count == -1
    {
      settings, quickFirst, stages := newSettings, first, planned;
      index, waiting, count := 0, None, -1;
    }

    method OpenScores(tasks: seq<TaskRecord>, n: nat)
      modifies this`scores, this`statuses, this`submitted, this`queue
      ensures scores == Reloaded(tasks, n) && statuses == ReloadedStatuses(tasks, n) && submitted == [] && queue == []
    {
      hide Reloaded, ReloadedStatuses;
      var reloaded, before := Reload(tasks, n);
      scores, statuses := reloaded, before;
      submitted, queue := [], [];
    }

    method Start(newSettings: Settings, first: bool)
      requires !running
      modifies this
      ensures Value() == Begun(d, old(Value()), newSettings, first)
    {
      hide StageIds, FileOf, KnownTasks, Reloaded, ReloadedStatuses;
      if file.Some? {
        if file.value.settings != newSettings {
          return;
        }
        if !KnownTasks(file.value.result.tasks, newSettings.n, d.AllIds()) {
          return;
        }
      }
      var planned := StageIds(d, first);
      if planned.None? {
        return;
      }
      var tasks := if file.Some? then file.value.result.tasks else [];
      OpenPlan(newSettings, first, planned.value);
      OpenScores(tasks, newSettings.n);
      running := true;
      Save();
    }

    /** The end of a stage. */
    method LeaveStage()
      requires running && index < |stages|
      modifies this
      ensures Value() == Advanced(old(Value()), old(Process()))
      ensures index == old(index) + 1 && waiting == None && file == old(file)
      ensures if quickFirst && old(index) == 0
              then quickFile == Some(Written("quick", stages[0], scores, statuses, settings.n))
              else quickFile == old(quickFile)
    {
      if quickFirst && index == 0 {
        var result := WriteResult("quick", stages[0], scores, statuses, settings.n);
        quickFile := Some(result);
      }
      index, waiting := index + 1, None;
    }

    method EnterStage()
      requires running && waiting.None? && index < |stages|
      modifies this
      ensures Value() == Entered(old(Value()), old(Process()))
    {
      var pending := Pending(stages[index], scores, settings.n);
      if |pending| == 0 {
        LeaveStage();
      } else {
        waiting, submitted, count := Some(pending), submitted + pending, -1;
      }
    }

    /** A rollout reports to the queue. */
    method Report(entry: Entry)
      modifies this`queue
      ensures queue == Put(old(queue), entry)
    {
      queue := Put(queue, entry);
    }

    /** One turn of the polling loop; `done` and `failed` are what the submitted work reports. */
    method PollQueue(done: bool, failed: bool) returns (ghost e: Event)
      requires running && waiting.Some? && index < |stages|
      modifies this
      ensures e.Poll? && e.done == done && e.failed == failed && Enabled(d, old(Value()), e)
      ensures Value() == Polled(d, old(Value()), old(Process()), e)
    {
      hide Written, SessionTotal, FinalOf, HasScores, FileOf, StatusesOf, TaskSet;
      var ids := TaskSet(waiting.value);
      var newScores, newStatuses, final := ReadScores(ids, queue);
      e := Poll(newScores, newStatuses, done, failed);
      assert IsRead(queue, ids, newScores, newStatuses);
      scores, statuses := scores + newScores, statuses + newStatuses;
      var current := SessionTotal(d.AllIds(), scores);
      if current != count || done {
        count := current;
        Save();
      }
      if done {
        if failed {
          running := false;
        } else {
          LeaveStage();
        }
      }
    }

    method Finish()
      requires running && waiting.None? && index == |stages|
      modifies this
      ensures Value() == State(Some(FileOf(d, old(Process()))), old(quickFile), None)
    {
      Save();
      running := false;
    }
  }
}
