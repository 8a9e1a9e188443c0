/**
 * Records, identities and results of the restartable Codex evaluation: loading
 * the record files of a run, importing those of a stopped source run, and the
 * aggregate result. SHA-256 of an identity's canonical JSON is an injective
 * constructor.
 */
module CodexRecords {
  import opened Prelude

  type TaskId = string

  datatype Json =
    | Null | Bool(flag: bool) | Num(number: real) | Text(text: string)
    | List(items: seq<Json>) | Obj(fields: map<string, Json>)

  type Identity = map<string, Json>

  datatype Fingerprint = Sha256(identity: Identity)

  datatype Record = Record(taskId: TaskId, fingerprint: Fingerprint, score: real, success: bool)

  type Records = map<TaskId, Record>

  datatype Provenance = Provenance(
    sourceIdentity: Identity,
    sourceFingerprint: Fingerprint,
    inherited: set<Fingerprint>,
    inheritedTasks: nat,
    previous: Option<Provenance>,
    approvedSha: Option<string>,
    reviewedConfig: Option<string>)

  /** The result file. */
  datatype Payload = Payload(
    identity: Identity,
    fingerprint: Fingerprint,
    tasks: seq<Record>,
    provenance: Option<Provenance>,
    complete: bool,
    scoredSessions: nat,
    meanScore: Option<real>,
    lowerBound: real)

  datatype Error =
    | UnexpectedRecord | ForeignRecord | DuplicateRecord
    | SameRun | BadFingerprint | UnreviewedCode | UnreviewedConfig | BadServingConfig | SemanticsChanged
    | InvalidInherited | Disagreement | Rerun

  // ---------------------------------------------------------------------
  // The record files of one run directory.

  function LoadFrom(records: Records, files: seq<Record>, expected: set<TaskId>,
      run: Fingerprint): Result<Records, Error>
    decreases |files|
  {
    if |files| == 0 then Ok(records)
    else
      var r := files[0];
      if r.taskId !in expected then Err(UnexpectedRecord)
      else if r.fingerprint != run then Err(ForeignRecord)
      else if r.taskId in records then Err(DuplicateRecord)
      else LoadFrom(records[r.taskId := r], files[1..], expected, run)
  }

  method LoadRecords(files: seq<Record>, expected: set<TaskId>, run: Fingerprint) returns (r: Result<Records, Error>)
    ensures r == LoadFrom(map[], files, expected, run)
  {
    var records: Records := map[];
    for i := 0 to |files|
      invariant LoadFrom(map[], files, expected, run) == LoadFrom(records, files[i..], expected, run)
    {
      var record := files[i];
      assert files[i..][0] == record && files[i..][1..] == files[i + 1..];
      if record.taskId !in expected {
        return Err(UnexpectedRecord);
      }
      if record.fingerprint != run {
        return Err(ForeignRecord);
      }
      if record.taskId in records {
        return Err(DuplicateRecord);
      }
      records := records[record.taskId := record];
    }
    return Ok(records);
  }

  ghost predicate DistinctTasks(files: seq<Record>) {
    forall i, j :: 0 <= i < j < |files| ==> files[i].taskId != files[j].taskId
  }

  /** `files` is a listing, in some order, of the directory that holds `records`. */
  ghost predicate Lists(files: seq<Record>, records: Records) {
    && DistinctTasks(files)
    && (forall i :: 0 <= i < |files| ==> files[i].taskId in records && records[files[i].taskId] == files[i])
    && (forall t :: t in records ==> exists i :: 0 <= i < |files| && files[i].taskId == t)
  }

  predicate Clean(files: seq<Record>, expected: set<TaskId>, run: Fingerprint) {
    forall i :: 0 <= i < |files| ==> files[i].taskId in expected && files[i].fingerprint == run
  }

  ghost predicate NewTasks(records: Records, files: seq<Record>) {
    DistinctTasks(files) && forall i :: 0 <= i < |files| ==> files[i].taskId !in records
  }

  lemma {:induction false} LoadFromExactly(records: Records, files: seq<Record>, expected: set<TaskId>,
      run: Fingerprint)
    ensures var r := LoadFrom(records, files, expected, run);
            && (r.Ok? <==> Clean(files, expected, run) && NewTasks(records, files))
            && (r.Ok? ==>
                  && (forall t :: t in records ==> t in r.value && r.value[t] == records[t])
                  && (forall i :: 0 <= i < |files| ==>
                        files[i].taskId in r.value && r.value[files[i].taskId] == files[i])
                  && (forall t :: t in r.value && t !in records ==>
                        exists i :: 0 <= i < |files| && files[i].taskId == t))
    decreases |files|
  {
    if |files| > 0 {
      var first, rest := files[0], files[1..];
      if first.taskId in expected && first.fingerprint == run && first.taskId !in records {
        var more := records[first.taskId := first];
        LoadFromExactly(more, rest, expected, run);
        NewTasksStep(records, files);
        assert Clean(files, expected, run) <==> Clean(rest, expected, run) by {
          assert Clean(rest, expected, run) ==> forall i :: 1 <= i < |files| ==> files[i] == rest[i - 1];
        }
        var r := LoadFrom(more, rest, expected, run);
        if r.Ok? {
          forall i | 0 <= i < |files|
            ensures files[i].taskId in r.value && r.value[files[i].taskId] == files[i]
          {
            assert i > 0 ==> files[i] == rest[i - 1];
          }
          forall t | t in r.value && t !in records
            ensures exists i :: 0 <= i < |files| && files[i].taskId == t
          {
            if t != first.taskId {
              var i :| 0 <= i < |rest| && rest[i].taskId == t;
              assert files[i + 1].taskId == t;
            }
          }
        }
      }
    }
  }

  lemma NewTasksStep(records: Records, files: seq<Record>)
    requires |files| > 0 && files[0].taskId !in records
    ensures NewTasks(records, files) <==> NewTasks(records[files[0].taskId := files[0]], files[1..])
  {
    var first, rest := files[0], files[1..];
    var more := records[first.taskId := first];
    if NewTasks(more, rest) {
      forall i, j | 0 <= i < j < |files|
        ensures files[i].taskId != files[j].taskId
      {
        assert files[j] == rest[j - 1];
        assert i > 0 ==> files[i] == rest[i - 1];
      }
      forall i | 0 <= i < |files|
        ensures files[i].taskId !in records
      {
        assert i > 0 ==> files[i] == rest[i - 1];
      }
    }
  }

  /** Loading succeeds exactly when every file is of this run, of an expected task, and of a task of its own. */
  lemma LoadSucceedsExactly(files: seq<Record>, expected: set<TaskId>, run: Fingerprint)
    ensures var r := LoadFrom(map[], files, expected, run);
            && (r.Ok? <==> Clean(files, expected, run) && DistinctTasks(files))
            && (r.Ok? ==> Lists(files, r.value))
  {
    LoadFromExactly(map[], files, expected, run);
  }

  /** A refusal names what is wrong with the first file that cannot be taken. */
  lemma {:induction false} LoadFailsAt(records: Records, files: seq<Record>, expected: set<TaskId>, run: Fingerprint)
    returns (i: nat)
    requires LoadFrom(records, files, expected, run).Err?
    ensures i < |files| && LoadFrom(records, files[..i], expected, run).Ok?
    ensures LoadFrom(records, files, expected, run)
         == Err(if files[i].taskId !in expected then UnexpectedRecord
                else if files[i].fingerprint != run then ForeignRecord
                else DuplicateRecord)
    ensures files[i].taskId in expected && files[i].fingerprint == run
            ==> files[i].taskId in records || exists k :: 0 <= k < i && files[k].taskId == files[i].taskId
    decreases |files|
  {
    var r := files[0];
    if r.taskId !in expected || r.fingerprint != run || r.taskId in records {
      i := 0;
    } else {
      var k := LoadFailsAt(records[r.taskId := r], files[1..], expected, run);
      i := k + 1;
      assert files[..i][1..] == files[1..][..k] && files[..i][0] == r;
      if files[i].taskId in expected && files[i].fingerprint == run && files[i].taskId !in records {
        if files[i].taskId != r.taskId {
          var m :| 0 <= m < k && files[1..][m].taskId == files[1..][k].taskId;
          assert files[m + 1].taskId == files[i].taskId;
        }
      }
    }
  }

  /** In whatever order a consistent directory is listed, exactly its records are loaded. */
  lemma LoadRestores(files: seq<Record>, records: Records, expected: set<TaskId>, run: Fingerprint)
    requires Lists(files, records)
    requires forall t :: t in records ==> t in expected && records[t].fingerprint == run
    ensures LoadFrom(map[], files, expected, run) == Ok(records)
  {
    LoadSucceedsExactly(files, expected, run);
    var loaded := LoadFrom(map[], files, expected, run).value;
    forall t
      ensures t in loaded <==> t in records
      ensures t in loaded ==> loaded[t] == records[t]
    {
      if t in loaded {
        var i :| 0 <= i < |files| && files[i].taskId == t;
      }
      if t in records {
        var i :| 0 <= i < |files| && files[i].taskId == t;
      }
    }
    assert loaded == records;
  }

  // ---------------------------------------------------------------------
  // What a resume may change.

  const GIT := "repo_git_sha"
  const CONFIG := "task_config_sha256"
  const SERVING := "serving_config"
  const RESOURCE_KEYS := {"backend_count", "concurrency", "tasks_per_replica", "task_cpu_threads"}
  const SERVING_RESOURCE_KEYS :=
    {"gpu_groups", "replica_count", "tasks_per_replica", "total_task_concurrency", "max_num_seqs"}

  /** dict.get: a missing key and an explicit null look the same. */
  function Get(identity: Identity, key: string): Json {
    if key in identity then identity[key] else Null
  }

  function WithoutServingResources(identity: Identity): Identity {
    if SERVING in identity && identity[SERVING].Obj? then
      identity[SERVING := Obj(identity[SERVING].fields - SERVING_RESOURCE_KEYS)]
    else identity
  }

  predicate ServingReadable(identity: Identity) {
    SERVING in identity ==> identity[SERVING].Obj?
  }

  /** What must agree between a source and its resume. */
  function Projection(identity: Identity, dropGit: bool, dropConfig: bool): Identity {
    WithoutServingResources(
      identity - RESOURCE_KEYS - (if dropGit then {GIT} else {}) - (if dropConfig then {CONFIG} else {}))
  }

  function Review(before: Identity, after: Identity, approvedSha: Option<string>,
                  reviewedConfig: Option<string>): Option<Error>
  {
    var codeChanged := Get(before, GIT) != Get(after, GIT);
    if codeChanged && (approvedSha.None? || approvedSha.value == "" || Text(approvedSha.value) != Get(before, GIT)) then
      Some(UnreviewedCode)
    else if reviewedConfig.Some? && Text(reviewedConfig.value) != Get(before, CONFIG) then Some(UnreviewedConfig)
    else if !ServingReadable(before) || !ServingReadable(after) then Some(BadServingConfig)
    else if Projection(before, codeChanged, reviewedConfig.Some?)
         != Projection(after, codeChanged, reviewedConfig.Some?) then
      Some(SemanticsChanged)
    else None
  }

  // ---------------------------------------------------------------------
  // The review, field by field.

  /** Missing from both, or in both with one value. */
  ghost predicate SameField(a: map<string, Json>, b: map<string, Json>, key: string) {
    (key in a <==> key in b) && (key in a ==> a[key] == b[key])
  }

  /** Two runs that evaluate the same thing: only allocation differs, and what was reviewed. */
  ghost predicate SameEvaluation(a: Identity, b: Identity, codeReviewed: bool, configReviewed: bool) {
    && (forall key ::
          key !in {"backend_count", "concurrency", "tasks_per_replica", "task_cpu_threads", "serving_config"}
          && !(codeReviewed && key == "repo_git_sha") && !(configReviewed && key == "task_config_sha256")
          ==> SameField(a, b, key))
    && if "serving_config" in a && a["serving_config"].Obj? && "serving_config" in b && b["serving_config"].Obj?
       then forall key ::
              key !in {"gpu_groups", "replica_count", "tasks_per_replica", "total_task_concurrency", "max_num_seqs"}
              ==> SameField(a["serving_config"].fields, b["serving_config"].fields, key)
       else SameField(a, b, "serving_config")
  }

  /** The commit of an identity; a missing one reads like a null. */
  ghost function Commit(identity: Identity): Json {
    if "repo_git_sha" in identity then identity["repo_git_sha"] else Null
  }

  ghost function TaskConfig(identity: Identity): Json {
    if "task_config_sha256" in identity then identity["task_config_sha256"] else Null
  }

  /** A change of the commit needs the full commit of the source. */
  ghost predicate CodeApproved(before: Identity, after: Identity, approvedSha: Option<string>) {
    Commit(before) != Commit(after)
    ==> approvedSha.Some? && approvedSha.value != "" && Commit(before) == Text(approvedSha.value)
  }

  /** A reviewed task configuration must be the source's. */
  ghost predicate ConfigApproved(before: Identity, reviewedConfig: Option<string>) {
    reviewedConfig.Some? ==> TaskConfig(before) == Text(reviewedConfig.value)
  }

  ghost predicate ServingIsObject(identity: Identity) {
    "serving_config" in identity ==> identity["serving_config"].Obj?
  }

  lemma RemovedFields(a: map<string, Json>, b: map<string, Json>, dropped: set<string>)
    ensures a - dropped == b - dropped <==> forall key :: key !in dropped ==> SameField(a, b, key)
  {
    var x, y := a - dropped, b - dropped;
    if x == y {
      forall key | key !in dropped
        ensures SameField(a, b, key)
      {
        assert key in x <==> key in a;
        assert key in y <==> key in b;
      }
    }
    if forall key :: key !in dropped ==> SameField(a, b, key) {
      forall key
        ensures key in x <==> key in y
        ensures key in x ==> x[key] == y[key]
      {
        assert key !in dropped ==> SameField(a, b, key);
      }
      assert x == y;
    }
  }

  /** Cleaning the serving configurations compares their remaining fields and leaves the other keys alone. */
  lemma CleanedServing(a: Identity, b: Identity)
    ensures WithoutServingResources(a) == WithoutServingResources(b)
            <==> (forall key :: key != SERVING ==> SameField(a, b, key))
                 && if SERVING in a && a[SERVING].Obj? && SERVING in b && b[SERVING].Obj?
                    then a[SERVING].fields - SERVING_RESOURCE_KEYS == b[SERVING].fields - SERVING_RESOURCE_KEYS
                    else SameField(a, b, SERVING)
  {
    var x, y := WithoutServingResources(a), WithoutServingResources(b);
    if x == y {
      forall key | key != SERVING
        ensures SameField(a, b, key)
      {
        assert key in x <==> key in y;
      }
      assert SERVING in x <==> SERVING in y;
    }
    if (forall key :: key != SERVING ==> SameField(a, b, key))
       && (if SERVING in a && a[SERVING].Obj? && SERVING in b && b[SERVING].Obj?
           then a[SERVING].fields - SERVING_RESOURCE_KEYS == b[SERVING].fields - SERVING_RESOURCE_KEYS
           else SameField(a, b, SERVING)) {
      forall key
        ensures key in x <==> key in y
        ensures key in x ==> x[key] == y[key]
      {
        assert key != SERVING ==> SameField(a, b, key);
      }
      assert x == y;
    }
  }

  lemma ProjectionExactly(a: Identity, b: Identity, dropGit: bool, dropConfig: bool)
    ensures Projection(a, dropGit, dropConfig) == Projection(b, dropGit, dropConfig)
            <==> SameEvaluation(a, b, dropGit, dropConfig)
  {
    hide WithoutServingResources;
    var dropped := RESOURCE_KEYS + (if dropGit then {GIT} else {}) + (if dropConfig then {CONFIG} else {});
    DroppedTogether(a, dropGit, dropConfig);
    DroppedTogether(b, dropGit, dropConfig);
    CleanedServing(a - dropped, b - dropped);
    assert SERVING !in dropped;
    if SERVING in a && a[SERVING].Obj? && SERVING in b && b[SERVING].Obj? {
      RemovedFields(a[SERVING].fields, b[SERVING].fields, SERVING_RESOURCE_KEYS);
    }
    forall key
      ensures SameField(a - dropped, b - dropped, key) <==> key in dropped || SameField(a, b, key)
    {
      FieldAfter(a, b, dropped, key);
    }
  }

  lemma FieldAfter(a: Identity, b: Identity, dropped: set<string>, key: string)
    ensures SameField(a - dropped, b - dropped, key) <==> key in dropped || SameField(a, b, key)
  {
  }

  lemma DroppedTogether(a: Identity, dropGit: bool, dropConfig: bool)
    ensures a - RESOURCE_KEYS - (if dropGit then {GIT} else {}) - (if dropConfig then {CONFIG} else {})
         == a - (RESOURCE_KEYS + (if dropGit then {GIT} else {}) + (if dropConfig then {CONFIG} else {}))
  {
  }

  /** Which refusal the review gives, and that it gives none exactly when every change was approved. */
  lemma ReviewExactly(before: Identity, after: Identity, approvedSha: Option<string>, reviewedConfig: Option<string>)
    ensures Review(before, after, approvedSha, reviewedConfig)
         == if !CodeApproved(before, after, approvedSha) then Some(UnreviewedCode)
            else if !ConfigApproved(before, reviewedConfig) then Some(UnreviewedConfig)
            else if !ServingIsObject(before) || !ServingIsObject(after) then Some(BadServingConfig)
            else if !SameEvaluation(before, after, Commit(before) != Commit(after), reviewedConfig.Some?)
            then Some(SemanticsChanged)
            else None
  {
    hide Projection, SameEvaluation;
    ProjectionExactly(before, after, Commit(before) != Commit(after), reviewedConfig.Some?);
  }

  // ---------------------------------------------------------------------
  // Importing the records of a stopped source.

  datatype Source = Source(path: string, payload: Payload, files: seq<Record>)

  datatype Args = Args(
    resultPath: string, resumeFrom: Option<Source>, approvedSha: Option<string>, reviewedConfig: Option<string>)

  datatype Import = Import(records: Records, provenance: Option<Provenance>)

  function Allowed(payload: Payload): set<Fingerprint> {
    {payload.fingerprint} + if payload.provenance.Some? then payload.provenance.value.inherited else {}
  }

  /** Records of earlier phases come from the result; where both speak, file and result must agree. */
  function MergeFrom(records: Records, tasks: seq<Record>, expected: set<TaskId>, allowed: set<Fingerprint>)
    : Result<Records, Error>
    decreases |tasks|
  {
    if |tasks| == 0 then Ok(records)
    else
      var r := tasks[0];
      if r.taskId !in expected || r.fingerprint !in allowed then Err(InvalidInherited)
      else if r.taskId in records && records[r.taskId] != r then Err(Disagreement)
      else MergeFrom(records[r.taskId := r], tasks[1..], expected, allowed)
  }

  method MergeTasks(loaded: Records, tasks: seq<Record>, expected: set<TaskId>, allowed: set<Fingerprint>)
    returns (r: Result<Records, Error>)
    ensures r == MergeFrom(loaded, tasks, expected, allowed)
  {
    var records := loaded;
    for i := 0 to |tasks|
      invariant MergeFrom(loaded, tasks, expected, allowed) == MergeFrom(records, tasks[i..], expected, allowed)
    {
      var record := tasks[i];
      assert tasks[i..][0] == record && tasks[i..][1..] == tasks[i + 1..];
      if record.taskId !in expected || record.fingerprint !in allowed {
        return Err(InvalidInherited);
      }
      if record.taskId in records && records[record.taskId] != record {
        return Err(Disagreement);
      }
      records := records[record.taskId := record];
    }
    return Ok(records);
  }

  /** A listed record may be taken over: of an expected task, written by an allowed run, and not contradicted. */
  ghost predicate Mergeable(records: Records, tasks: seq<Record>, expected: set<TaskId>, allowed: set<Fingerprint>) {
    && (forall i :: 0 <= i < |tasks| ==> tasks[i].taskId in expected && tasks[i].fingerprint in allowed)
    && (forall i :: 0 <= i < |tasks| ==> tasks[i].taskId in records ==> records[tasks[i].taskId] == tasks[i])
    && (forall i, j :: 0 <= i < j < |tasks| && tasks[i].taskId == tasks[j].taskId ==> tasks[i] == tasks[j])
  }

  lemma MergeableStep(records: Records, tasks: seq<Record>, expected: set<TaskId>, allowed: set<Fingerprint>)
    requires |tasks| > 0
    requires tasks[0].taskId in expected && tasks[0].fingerprint in allowed
    requires tasks[0].taskId in records ==> records[tasks[0].taskId] == tasks[0]
    ensures Mergeable(records, tasks, expected, allowed)
            <==> Mergeable(records[tasks[0].taskId := tasks[0]], tasks[1..], expected, allowed)
  {
    var first, rest := tasks[0], tasks[1..];
    var more := records[first.taskId := first];
    assert forall i :: 1 <= i < |tasks| ==> tasks[i] == rest[i - 1];
    assert forall i :: 0 <= i < |rest| ==> rest[i] == tasks[i + 1];
    if Mergeable(more, rest, expected, allowed) {
      forall i | 0 <= i < |tasks|
        ensures tasks[i].taskId in expected && tasks[i].fingerprint in allowed
        ensures tasks[i].taskId in records ==> records[tasks[i].taskId] == tasks[i]
      {
        assert i > 0 ==> tasks[i] == rest[i - 1];
      }
      forall i, j | 0 <= i < j < |tasks| && tasks[i].taskId == tasks[j].taskId
        ensures tasks[i] == tasks[j]
      {
        assert tasks[j] == rest[j - 1];
        assert i > 0 ==> tasks[i] == rest[i - 1];
      }
    }
  }

  /** The merge succeeds exactly on such lists, and then holds both sides and nothing else. */
  lemma {:induction false} MergeExactly(records: Records, tasks: seq<Record>, expected: set<TaskId>,
                                        allowed: set<Fingerprint>)
    ensures var r := MergeFrom(records, tasks, expected, allowed);
            && (r.Ok? <==> Mergeable(records, tasks, expected, allowed))
            && (r.Err? ==> r.error in {InvalidInherited, Disagreement})
            && (r.Err? && (forall i :: 0 <= i < |tasks| ==>
                             tasks[i].taskId in expected && tasks[i].fingerprint in allowed)
                ==> r.error == Disagreement)
            && (r.Ok? ==>
                  && (forall t :: t in r.value
                        <==> t in records || exists i :: 0 <= i < |tasks| && tasks[i].taskId == t)
                  && (forall t :: t in records ==> r.value[t] == records[t])
                  && (forall i :: 0 <= i < |tasks| ==> r.value[tasks[i].taskId] == tasks[i]))
    decreases |tasks|
  {
    if |tasks| > 0 {
      var first, rest := tasks[0], tasks[1..];
      assert forall i :: 1 <= i < |tasks| ==> tasks[i] == rest[i - 1];
      assert forall i :: 0 <= i < |rest| ==> rest[i] == tasks[i + 1];
      if first.taskId in expected && first.fingerprint in allowed
         && (first.taskId in records ==> records[first.taskId] == first) {
        MergeableStep(records, tasks, expected, allowed);
        MergeExactly(records[first.taskId := first], rest, expected, allowed);
      }
    }
  }

  function FingerprintsOf(records: Records): set<Fingerprint> {
    set t | t in records :: records[t].fingerprint
  }

  function ProvenanceOf(args: Args, source: Payload, records: Records): Provenance {
    Provenance(source.identity, source.fingerprint, FingerprintsOf(records), |records|, source.provenance,
               args.approvedSha, args.reviewedConfig)
  }

  function Resumed(args: Args, identity: Identity, expected: set<TaskId>): Result<Import, Error> {
    match args.resumeFrom
    case None => Ok(Import(map[], None))
    case Some(source) =>
      var payload := source.payload;
      if source.path == args.resultPath then Err(SameRun)
      else if Sha256(payload.identity) != payload.fingerprint then Err(BadFingerprint)
      else
        match Review(payload.identity, identity, args.approvedSha, args.reviewedConfig)
        case Some(error) => Err(error)
        case None =>
          match LoadFrom(map[], source.files, expected, payload.fingerprint)
          case Err(error) => Err(error)
          case Ok(loaded) =>
            match MergeFrom(loaded, payload.tasks, expected, Allowed(payload))
            case Err(error) => Err(error)
            case Ok(records) => Ok(Import(records, Some(ProvenanceOf(args, payload, records))))
  }

  method ResumeRecords(args: Args, identity: Identity, expected: set<TaskId>) returns (r: Result<Import, Error>)
    ensures r == Resumed(args, identity, expected)
  {
    if args.resumeFrom.None? {
      return Ok(Import(map[], None));
    }
    var source := args.resumeFrom.value;
    var payload := source.payload;
    if source.path == args.resultPath {
      return Err(SameRun);
    }
    if Sha256(payload.identity) != payload.fingerprint {
      return Err(BadFingerprint);
    }
    var before, after := payload.identity, identity;
    if Get(before, GIT) != Get(after, GIT) {
      if args.approvedSha.None? || args.approvedSha.value == "" || Text(args.approvedSha.value) != Get(before, GIT) {
        return Err(UnreviewedCode);
      }
      before, after := before - {GIT}, after - {GIT};
    }
    if args.reviewedConfig.Some? {
      if Text(args.reviewedConfig.value) != Get(before, CONFIG) {
        return Err(UnreviewedConfig);
      }
      before, after := before - {CONFIG}, after - {CONFIG};
    }
    before, after := before - RESOURCE_KEYS, after - RESOURCE_KEYS;
    if !ServingReadable(before) || !ServingReadable(after) {
      return Err(BadServingConfig);
    }
    before, after := WithoutServingResources(before), WithoutServingResources(after);
    RemovalOrder(payload.identity, Get(payload.identity, GIT) != Get(identity, GIT), args.reviewedConfig.Some?);
    RemovalOrder(identity, Get(payload.identity, GIT) != Get(identity, GIT), args.reviewedConfig.Some?);
    if before != after {
      return Err(SemanticsChanged);
    }
    var loaded := LoadRecords(source.files, expected, payload.fingerprint);
    if loaded.Err? {
      return Err(loaded.error);
    }
    var merged := MergeTasks(loaded.value, payload.tasks, expected, Allowed(payload));
    if merged.Err? {
      return Err(merged.error);
    }
    return Ok(Import(merged.value, Some(ProvenanceOf(args, payload, merged.value))));
  }

  /** The fields may be removed in any order. */
  lemma RemovalOrder(identity: Identity, dropGit: bool, dropConfig: bool)
    ensures var a := if dropGit then identity - {GIT} else identity;
            var b := if dropConfig then a - {CONFIG} else a;
            Projection(identity, dropGit, dropConfig) == WithoutServingResources(b - RESOURCE_KEYS)
  {
    var a := if dropGit then identity - {GIT} else identity;
    var b := if dropConfig then a - {CONFIG} else a;
    assert b - RESOURCE_KEYS
        == identity - RESOURCE_KEYS - (if dropGit then {GIT} else {}) - (if dropConfig then {CONFIG} else {});
  }

  /** The fingerprints that listed records of a source may carry: its own and those it inherited. */
  ghost predicate MayCarry(payload: Payload, run: Fingerprint) {
    run == payload.fingerprint || (payload.provenance.Some? && run in payload.provenance.value.inherited)
  }

  /** A source whose records may all be imported. */
  ghost predicate Importable(args: Args, source: Source, identity: Identity, expected: set<TaskId>) {
    var payload := source.payload;
    && source.path != args.resultPath
    && payload.fingerprint == Sha256(payload.identity)
    && CodeApproved(payload.identity, identity, args.approvedSha)
    && ConfigApproved(payload.identity, args.reviewedConfig)
    && ServingIsObject(payload.identity) && ServingIsObject(identity)
    && SameEvaluation(payload.identity, identity, Commit(payload.identity) != Commit(identity),
                      args.reviewedConfig.Some?)
    && DistinctTasks(source.files)
    && (forall i :: 0 <= i < |source.files| ==>
          source.files[i].taskId in expected && source.files[i].fingerprint == payload.fingerprint)
    && (forall i :: 0 <= i < |payload.tasks| ==>
          payload.tasks[i].taskId in expected && MayCarry(payload, payload.tasks[i].fingerprint))
    && (forall i, j ::
          0 <= i < |source.files| && 0 <= j < |payload.tasks| && source.files[i].taskId == payload.tasks[j].taskId
          ==> source.files[i] == payload.tasks[j])
    && (forall i, j :: 0 <= i < j < |payload.tasks| && payload.tasks[i].taskId == payload.tasks[j].taskId
          ==> payload.tasks[i] == payload.tasks[j])
  }

  lemma MergeableFiles(files: seq<Record>, loaded: Records, payload: Payload, expected: set<TaskId>)
    requires Lists(files, loaded)
    ensures Mergeable(loaded, payload.tasks, expected, Allowed(payload))
            <==> (forall i :: 0 <= i < |payload.tasks| ==>
                    payload.tasks[i].taskId in expected && MayCarry(payload, payload.tasks[i].fingerprint))
                 && (forall i, j ::
                       0 <= i < |files| && 0 <= j < |payload.tasks| && files[i].taskId == payload.tasks[j].taskId
                       ==> files[i] == payload.tasks[j])
                 && (forall i, j :: 0 <= i < j < |payload.tasks| && payload.tasks[i].taskId == payload.tasks[j].taskId
                       ==> payload.tasks[i] == payload.tasks[j])
  {
    var tasks := payload.tasks;
    assert forall run :: run in Allowed(payload) <==> MayCarry(payload, run);
    assert (forall i :: 0 <= i < |tasks| ==> tasks[i].taskId in loaded ==> loaded[tasks[i].taskId] == tasks[i])
           <==> forall i, j :: 0 <= i < |files| && 0 <= j < |tasks| && files[i].taskId == tasks[j].taskId
                  ==> files[i] == tasks[j];
  }

  /**
   * The import succeeds exactly on an importable source, and then holds every
   * record of its files and its result, nothing else, and the provenance.
   */
  lemma ResumedExactly(args: Args, identity: Identity, expected: set<TaskId>)
    requires args.resumeFrom.Some?
    ensures var source, r := args.resumeFrom.value, Resumed(args, identity, expected);
            && (r.Ok? <==> Importable(args, source, identity, expected))
            && (r.Ok? ==>
                  var records := r.value.records;
                  && (forall t :: t in records
                        <==> (exists i :: 0 <= i < |source.files| && source.files[i].taskId == t)
                             || exists i :: 0 <= i < |source.payload.tasks| && source.payload.tasks[i].taskId == t)
                  && (forall i :: 0 <= i < |source.files| ==> records[source.files[i].taskId] == source.files[i])
                  && (forall i :: 0 <= i < |source.payload.tasks| ==>
                        records[source.payload.tasks[i].taskId] == source.payload.tasks[i]))
  {
    hide Review, LoadFrom, MergeFrom, CodeApproved, ConfigApproved, ServingIsObject, SameEvaluation, Mergeable, Allowed;
    var source := args.resumeFrom.value;
    var payload := source.payload;
    ReviewExactly(payload.identity, identity, args.approvedSha, args.reviewedConfig);
    LoadSucceedsExactly(source.files, expected, payload.fingerprint);
    var loaded := LoadFrom(map[], source.files, expected, payload.fingerprint);
    if loaded.Ok? {
      MergeableFiles(source.files, loaded.value, payload, expected);
      MergeExactly(loaded.value, payload.tasks, expected, Allowed(payload));
    }
  }

  /** What an import says of its own origin. */
  lemma ResumedProvenance(args: Args, identity: Identity, expected: set<TaskId>)
    requires args.resumeFrom.Some? && Resumed(args, identity, expected).Ok?
    ensures var payload, r := args.resumeFrom.value.payload, Resumed(args, identity, expected).value;
            && r.provenance.Some?
            && var p := r.provenance.value;
            && p.sourceIdentity == payload.identity && p.sourceFingerprint == payload.fingerprint
            && (forall run :: run in p.inherited <==> exists t :: t in r.records && r.records[t].fingerprint == run)
            && p.inheritedTasks == |r.records.Keys| && p.previous == payload.provenance
            && p.approvedSha == args.approvedSha && p.reviewedConfig == args.reviewedConfig
  {
    hide Review, LoadFrom, MergeFrom;
  }

  // ---------------------------------------------------------------------
  // The aggregate result.

  /** The completed records in dataset order. */
  function Ordered(samples: seq<TaskId>, records: Records): seq<Record> {
    if |samples| == 0 then []
    else (if samples[0] in records then [records[samples[0]]] else []) + Ordered(samples[1..], records)
  }

  function Scores(records: seq<Record>): seq<real> {
    seq(|records|, i requires 0 <= i < |records| => records[i].score)
  }

  /** The sum of the scores of the completed samples. */
  function ScoreSum(samples: seq<TaskId>, records: Records): real {
    SumReal(Scores(Ordered(samples, records)))
  }

  function Successes(records: seq<Record>): nat {
    if |records| == 0 then 0 else (if records[0].success then 1 else 0) + Successes(records[1..])
  }

  function ResultPayload(samples: seq<TaskId>, records: Records, identity: Identity,
                         provenance: Option<Provenance>): Payload
  {
    var ordered := Ordered(samples, records);
    var total := ScoreSum(samples, records);
    var complete := |ordered| == |samples|;
    Payload(identity, Sha256(identity), ordered, provenance, complete, Successes(ordered),
            if complete then Some(Ratio(total, |ordered|)) else None, Ratio(total, |samples|))
  }

  /** Records are filed under their own task. */
  ghost predicate Filed(records: Records) {
    forall t :: t in records ==> records[t].taskId == t
  }

  lemma {:induction false} OrderedHolds(samples: seq<TaskId>, records: Records)
    requires Filed(records)
    ensures forall r :: r in Ordered(samples, records)
                        <==> r.taskId in samples && r.taskId in records && records[r.taskId] == r
  {
    if |samples| > 0 {
      OrderedHolds(samples[1..], records);
    }
  }

  lemma ScoreSumStep(samples: seq<TaskId>, records: Records)
    requires |samples| > 0
    ensures ScoreSum(samples, records)
            == (if samples[0] in records then records[samples[0]].score else 0.0) + ScoreSum(samples[1..], records)
  {
    var rest := Ordered(samples[1..], records);
    if samples[0] in records {
      assert Scores([records[samples[0]]] + rest)[1..] == Scores(rest);
    } else {
      assert [] + rest == rest;
    }
  }

  lemma {:induction false} OrderedMonotone(samples: seq<TaskId>, fewer: Records, more: Records)
    requires forall t :: t in fewer ==> t in more && more[t] == fewer[t]
    requires forall t :: t in more ==> more[t].score >= 0.0
    ensures ScoreSum(samples, fewer) <= ScoreSum(samples, more)
    ensures |Ordered(samples, fewer)| <= |Ordered(samples, more)|
  {
    if |samples| > 0 {
      OrderedMonotone(samples[1..], fewer, more);
      ScoreSumStep(samples, fewer);
      ScoreSumStep(samples, more);
    }
  }

  lemma RatioMonotone(a: real, b: real, count: nat)
    requires a <= b
    ensures Ratio(a, count) <= Ratio(b, count)
  {
  }

  /** With no negative score, the published lower bound only rises and is the mean of a complete result. */
  lemma LowerBoundHolds(samples: seq<TaskId>, fewer: Records, more: Records)
    requires forall t :: t in fewer ==> t in more && more[t] == fewer[t]
    requires forall t :: t in more ==> more[t].score >= 0.0
    ensures forall a, b, p, q ::
              var early, late := ResultPayload(samples, fewer, a, p), ResultPayload(samples, more, b, q);
              && early.lowerBound <= late.lowerBound
              && (late.complete ==> late.meanScore == Some(late.lowerBound))
              && (early.complete ==> late.complete)
  {
    hide ScoreSum;
    OrderedMonotone(samples, fewer, more);
    OrderedShort(samples, more);
    RatioMonotone(ScoreSum(samples, fewer), ScoreSum(samples, more), |samples|);
  }

  lemma {:induction false} OrderedShort(samples: seq<TaskId>, records: Records)
    ensures |Ordered(samples, records)| <= |samples|
    ensures |Ordered(samples, records)| == |samples| <==> forall t :: t in samples ==> t in records
  {
    if |samples| > 0 {
      OrderedShort(samples[1..], records);
    }
  }

  /** The positions of the samples that have a record, in order. */
  ghost predicate PositionsOf(samples: seq<TaskId>, records: Records, at: seq<nat>) {
    && (forall k :: 0 <= k < |at| ==> at[k] < |samples| && samples[at[k]] in records)
    && (forall k, m :: 0 <= k < m < |at| ==> at[k] < at[m])
    && (forall i: nat :: i < |samples| && samples[i] in records ==> i in at)
  }

  lemma {:induction false} OrderedSnoc(samples: seq<TaskId>, records: Records)
    requires |samples| > 0
    ensures var n := |samples| - 1;
            Ordered(samples, records)
            == Ordered(samples[..n], records) + if samples[n] in records then [records[samples[n]]] else []
  {
    if |samples| > 1 {
      OrderedSnoc(samples[1..], records);
      assert samples[..|samples| - 1][1..] == samples[1..][..|samples[1..]| - 1];
    }
  }

  lemma {:induction false} OrderedAt(samples: seq<TaskId>, records: Records) returns (at: seq<nat>)
    ensures PositionsOf(samples, records, at) && |Ordered(samples, records)| == |at|
    ensures forall k :: 0 <= k < |at| ==>
              at[k] < |samples| && samples[at[k]] in records && Ordered(samples, records)[k] == records[samples[at[k]]]
  {
    if |samples| == 0 {
      at := [];
    } else {
      var n := |samples| - 1;
      var before := OrderedAt(samples[..n], records);
      OrderedSnoc(samples, records);
      at := before + if samples[n] in records then [n] else [];
      forall i: nat | i < |samples| && samples[i] in records
        ensures i in at
      {
        if i < n {
          assert samples[..n][i] == samples[i];
        } else {
          assert at[|before|] == n;
        }
      }
    }
  }

  ghost predicate Succeeded(r: Record) {
    r.success
  }

  lemma SuccessfulSnoc(records: seq<Record>)
    requires |records| > 0
    ensures var n := |records| - 1;
            |set k | 0 <= k < |records| && Succeeded(records[k])|
            == |set k | 0 <= k < |records[..n]| && Succeeded(records[..n][k])| + if Succeeded(records[n]) then 1 else 0
  {
    hide Succeeded;
    var n := |records| - 1;
    var all := set k | 0 <= k < |records| && Succeeded(records[k]);
    var rest := set k | 0 <= k < |records[..n]| && Succeeded(records[..n][k]);
    assert forall k :: 0 <= k < n ==> records[..n][k] == records[k];
    if Succeeded(records[n]) {
      assert all == rest + {n};
    } else {
      assert all == rest;
    }
  }

  lemma {:induction false} SuccessesCount(records: seq<Record>)
    ensures Successes(records) == |set k | 0 <= k < |records| && Succeeded(records[k])|
  {
    if |records| > 0 {
      SuccessesCount(records[..|records| - 1]);
      SuccessesSnoc(records);
      SuccessfulSnoc(records);
    }
  }

  lemma {:induction false} SuccessesSnoc(records: seq<Record>)
    requires |records| > 0
    ensures Successes(records)
         == Successes(records[..|records| - 1]) + if records[|records| - 1].success then 1 else 0
  {
    if |records| > 1 {
      SuccessesSnoc(records[1..]);
      assert records[..|records| - 1][1..] == records[1..][..|records[1..]| - 1];
    }
  }

  lemma RatioTimes(sum: real, count: nat)
    requires count > 0
    ensures Ratio(sum, count) * count as real == sum
  {
  }

  /** The published sums: the listed scores over all samples. */
  ghost predicate SumsShown(p: Payload, total: nat, scores: seq<real>) {
    && |scores| == |p.tasks| && (forall k :: 0 <= k < |p.tasks| ==> scores[k] == p.tasks[k].score)
    && (if total == 0 then p.lowerBound == 0.0 else p.lowerBound * total as real == SumReal(scores))
    && p.meanScore == if p.complete then Some(p.lowerBound) else None
  }

  lemma PayloadSums(samples: seq<TaskId>, records: Records, identity: Identity, provenance: Option<Provenance>)
    returns (scores: seq<real>)
    ensures SumsShown(ResultPayload(samples, records, identity, provenance), |samples|, scores)
  {
    hide SumReal, Ratio, Ordered, Successes;
    scores := Scores(Ordered(samples, records));
    if |samples| > 0 {
      RatioTimes(ScoreSum(samples, records), |samples|);
    } else {
      RatioOfNone(ScoreSum(samples, records));
    }
  }

  lemma RatioOfNone(sum: real)
    ensures Ratio(sum, 0) == 0.0
  {
  }

  /**
   * The result file: the records in dataset order, complete exactly when no
   * sample lacks one, and figures that are sums of the listed scores over all
   * samples.
   */
  lemma PayloadFigures(samples: seq<TaskId>, records: Records, identity: Identity, provenance: Option<Provenance>)
    returns (at: seq<nat>, scores: seq<real>)
    ensures var p := ResultPayload(samples, records, identity, provenance);
            && p.identity == identity && p.fingerprint == Sha256(identity) && p.provenance == provenance
            && PositionsOf(samples, records, at) && |p.tasks| == |at|
            && (forall k :: 0 <= k < |at| ==>
                  at[k] < |samples| && samples[at[k]] in records && p.tasks[k] == records[samples[at[k]]])
            && (p.complete <==> forall t :: t in samples ==> t in records)
            && p.scoredSessions == |set k | 0 <= k < |p.tasks| && p.tasks[k].success|
            && SumsShown(p, |samples|, scores)
  {
    hide PositionsOf, Ordered, ScoreSum, SumsShown, Successes, Ratio;
    at := OrderedAt(samples, records);
    OrderedShort(samples, records);
    var tasks := Ordered(samples, records);
    SuccessesCount(tasks);
    assert (set k | 0 <= k < |tasks| && tasks[k].success) == set k | 0 <= k < |tasks| && Succeeded(tasks[k]);
    scores := PayloadSums(samples, records, identity, provenance);
  }
}
