/**
 * Restarts and chained resumes of the Codex evaluation.
 *
 * A campaign is a chain of phases. Each phase has a directory of its own with
 * record files and a result file, and resumes from the phase before it, which
 * has been stopped for good. Within a phase tasks start and finish in any
 * order, the process may stop at any moment, and the same command may be
 * started again in the same directory. Only what is on disk survives a stop.
 */
module CodexEval {
  import opened Prelude
  import opened CodexRecords

  /** The command line of a phase. */
  datatype Command = Command(
    identity: Identity, resultPath: string, approvedSha: Option<string>, reviewedConfig: Option<string>)

  datatype Phase = Phase(command: Command, disk: Records, payload: Payload) {
    function Run(): Fingerprint {
      Sha256(command.identity)
    }
  }

  /** `finished` holds records that are on disk but not yet in the result. */
  datatype Process = Stopped | Running(memory: Records, inFlight: set<TaskId>, finished: Records)

  /** `history` is every record ever written, whatever became of the process that wrote it. */
  datatype State = State(phases: seq<Phase>, process: Process, history: Records)

  datatype Event =
    | Launch(command: Command, sourceFiles: seq<Record>)
    | Restart(ownFiles: seq<Record>, sourceFiles: seq<Record>, resume: bool)
    | Start(task: TaskId)
    | Finish(task: TaskId, score: real, success: bool)
    | Collect(task: TaskId)
    | Stop

  const NOTHING := State([], Stopped, map[])

  // ---------------------------------------------------------------------
  // The program.

  function Expected(samples: seq<TaskId>): set<TaskId> {
    set t | t in samples
  }

  function SourceOf(past: seq<Phase>, files: seq<Record>): Option<Source> {
    if |past| == 0 then None
    else
      var last := past[|past| - 1];
      Some(Source(last.command.resultPath, last.payload, files))
  }

  /** Loading, importing and the check that no inherited task was run again. */
  function Boot(samples: seq<TaskId>, command: Command, own: seq<Record>,
                source: Option<Source>): Result<Import, Error>
  {
    match LoadFrom(map[], own, Expected(samples), Sha256(command.identity))
    case Err(error) => Err(error)
    case Ok(records) =>
      match Resumed(Args(command.resultPath, source, command.approvedSha, command.reviewedConfig), command.identity,
                    Expected(samples))
      case Err(error) => Err(error)
      case Ok(inherited) =>
        if records.Keys * inherited.records.Keys != {} then Err(Rerun)
        else Ok(Import(inherited.records + records, inherited.provenance))
  }

  function Last(s: State): Phase
    requires |s.phases| > 0
  {
    s.phases[|s.phases| - 1]
  }

  function Past(s: State): seq<Phase>
    requires |s.phases| > 0
  {
    s.phases[..|s.phases| - 1]
  }

  ghost predicate Enabled(samples: seq<TaskId>, s: State, e: Event) {
    match e
    case Launch(command, files) =>
      s.process.Stopped? && (|s.phases| > 0 ==> Lists(files, Last(s).disk))
    case Restart(own, files, _) =>
      && s.process.Stopped? && |s.phases| > 0 && Lists(own, Last(s).disk)
      && (|s.phases| > 1 ==> Lists(files, s.phases[|s.phases| - 2].disk))
    case Start(task) =>
      && s.process.Running? && |s.phases| > 0
      && task in samples && task !in s.process.memory && task !in s.process.finished && task !in s.process.inFlight
    case Finish(task, _, _) => s.process.Running? && |s.phases| > 0 && task in s.process.inFlight
    case Collect(task) => s.process.Running? && |s.phases| > 0 && task in s.process.finished
    case Stop => s.process.Running?
  }

  function Launched(samples: seq<TaskId>, s: State, command: Command, files: seq<Record>): State {
    match Boot(samples, command, [], SourceOf(s.phases, files))
    case Err(_) => s
    case Ok(start) =>
      var payload := ResultPayload(samples, start.records, command.identity, start.provenance);
      State(s.phases + [Phase(command, map[], payload)], Running(start.records, {}, map[]), s.history)
  }

  /** `resume` says whether the command line still names the source that the phase was launched from. */
  function Restarted(samples: seq<TaskId>, s: State, own: seq<Record>, files: seq<Record>, resume: bool): State
    requires |s.phases| > 0
  {
    var phase := Last(s);
    match Boot(samples, phase.command, own, if resume then SourceOf(Past(s), files) else None)
    case Err(_) => s
    case Ok(start) =>
      var payload := ResultPayload(samples, start.records, phase.command.identity, start.provenance);
      State(Past(s) + [phase.(payload := payload)], Running(start.records, {}, map[]), s.history)
  }

  function Finished(s: State, task: TaskId, score: real, success: bool): State
    requires |s.phases| > 0 && s.process.Running?
  {
    var phase, p := Last(s), s.process;
    var record := Record(task, phase.Run(), score, success);
    State(Past(s) + [phase.(disk := phase.disk[task := record])],
          p.(inFlight := p.inFlight - {task}, finished := p.finished[task := record]),
          s.history[task := record])
  }

  function Collected(samples: seq<TaskId>, s: State, task: TaskId): State
    requires |s.phases| > 0 && s.process.Running? && task in s.process.finished
  {
    var phase, p := Last(s), s.process;
    var memory := p.memory[task := p.finished[task]];
    var payload := ResultPayload(samples, memory, phase.command.identity, phase.payload.provenance);
    State(Past(s) + [phase.(payload := payload)], p.(memory := memory, finished := p.finished - {task}), s.history)
  }

  ghost function Apply(samples: seq<TaskId>, s: State, e: Event): State
    requires Enabled(samples, s, e)
  {
    match e
    case Launch(command, files) => Launched(samples, s, command, files)
    case Restart(own, files, resume) => Restarted(samples, s, own, files, resume)
    case Start(task) => s.(process := s.process.(inFlight := s.process.inFlight + {task}))
    case Finish(task, score, success) => Finished(s, task, score, success)
    case Collect(task) => Collected(samples, s, task)
    case Stop => s.(process := Stopped)
  }

  ghost function Run(samples: seq<TaskId>, s: State, events: seq<Event>): Option<State>
    decreases |events|
  {
    if |events| == 0 then Some(s)
    else if !Enabled(samples, s, events[0]) then None
    else Run(samples, Apply(samples, s, events[0]), events[1..])
  }

  /** A restart of a resumed phase repeats its resume option. */
  predicate KeepsOption(s: State, e: Event) {
    e.Restart? && |s.phases| > 1 ==> e.resume
  }

  ghost predicate KeepsOptions(samples: seq<TaskId>, s: State, events: seq<Event>)
    requires Run(samples, s, events).Some?
    decreases |events|
  {
    |events| > 0 ==> KeepsOption(s, events[0]) && KeepsOptions(samples, Apply(samples, s, events[0]), events[1..])
  }

  ghost predicate Reachable(samples: seq<TaskId>, s: State) {
    exists events :: Run(samples, NOTHING, events) == Some(s) && KeepsOptions(samples, NOTHING, events)
  }

  // ---------------------------------------------------------------------
  // Invariants.

  /** All records on the disks of a chain of phases. */
  function Completed(phases: seq<Phase>): Records {
    if |phases| == 0 then map[] else Completed(phases[..|phases| - 1]) + phases[|phases| - 1].disk
  }

  ghost predicate Within(fewer: Records, more: Records) {
    forall t :: t in fewer ==> t in more && more[t] == fewer[t]
  }

  ghost predicate DiskOk(samples: seq<TaskId>, past: seq<Phase>, phase: Phase) {
    && (forall t :: t in phase.disk ==>
          t in samples && phase.disk[t].taskId == t && phase.disk[t].fingerprint == phase.Run())
    && phase.disk.Keys !! Completed(past).Keys
  }

  function ExpectedProvenance(past: seq<Phase>, command: Command): Option<Provenance> {
    if |past| == 0 then None
    else
      var source := past[|past| - 1];
      Some(ProvenanceOf(Args(command.resultPath, None, command.approvedSha, command.reviewedConfig),
                        source.payload, Completed(past)))
  }

  /** The result file shows all that was inherited and some of what this phase has on disk. */
  ghost predicate PayloadOk(samples: seq<TaskId>, past: seq<Phase>, phase: Phase) {
    exists shown ::
      && Within(Completed(past), shown) && Within(shown, Completed(past) + phase.disk)
      && phase.payload == ResultPayload(samples, shown, phase.command.identity, ExpectedProvenance(past, phase.command))
  }

  ghost predicate Linked(past: seq<Phase>, command: Command) {
    |past| > 0 ==>
      var source := past[|past| - 1].command;
      && source.resultPath != command.resultPath
      && Review(source.identity, command.identity, command.approvedSha, command.reviewedConfig).None?
  }

  ghost predicate PhaseOk(samples: seq<TaskId>, past: seq<Phase>, phase: Phase) {
    DiskOk(samples, past, phase) && PayloadOk(samples, past, phase) && Linked(past, phase.command)
  }

  ghost predicate ChainOk(samples: seq<TaskId>, phases: seq<Phase>) {
    |phases| > 0 ==>
      var n := |phases| - 1;
      ChainOk(samples, phases[..n]) && PhaseOk(samples, phases[..n], phases[n])
  }

  /** What a running process knows: its memory and its uncollected records make up all that is on the disks. */
  ghost predicate MemoryOk(samples: seq<TaskId>, inherited: Records, disk: Records, p: Process)
    requires p.Running?
  {
    && Within(inherited, p.memory) && Within(p.memory, inherited + disk) && Within(p.finished, disk)
    && p.memory.Keys !! p.finished.Keys && (inherited + disk).Keys == p.memory.Keys + p.finished.Keys
    && p.inFlight !! (inherited + disk).Keys && (forall t :: t in p.inFlight ==> t in samples)
  }

  ghost predicate ProcessOk(samples: seq<TaskId>, past: seq<Phase>, phase: Phase, p: Process) {
    p.Running? ==>
      && MemoryOk(samples, Completed(past), phase.disk, p)
      && phase.payload == ResultPayload(samples, p.memory, phase.command.identity, ExpectedProvenance(past,
          phase.command))
  }

  ghost predicate Inv(samples: seq<TaskId>, s: State) {
    && ChainOk(samples, s.phases)
    && s.history == Completed(s.phases)
    && (|s.phases| == 0 ==> s.process.Stopped?)
    && (|s.phases| > 0 ==> ProcessOk(samples, Past(s), Last(s), s.process))
  }

  // ---------------------------------------------------------------------
  // Resuming restores exactly what is on the disks.

  lemma {:induction false} CompletedOk(samples: seq<TaskId>, phases: seq<Phase>)
    requires ChainOk(samples, phases)
    ensures Filed(Completed(phases)) && forall t :: t in Completed(phases) ==> t in samples
  {
    if |phases| > 0 {
      CompletedOk(samples, phases[..|phases| - 1]);
    }
  }

  lemma {:induction false} MergeWithin(records: Records, tasks: seq<Record>, expected: set<TaskId>,
                                       allowed: set<Fingerprint>, total: Records)
    requires Within(records, total)
    requires forall r :: r in tasks ==>
               r.taskId in total && total[r.taskId] == r && r.taskId in expected && r.fingerprint in allowed
    ensures var merged := MergeFrom(records, tasks, expected, allowed);
            && merged.Ok? && Within(records, merged.value) && Within(merged.value, total)
            && forall r :: r in tasks ==> r.taskId in merged.value
    decreases |tasks|
  {
    if |tasks| > 0 {
      var r := tasks[0];
      assert r in tasks;
      assert forall q :: q in tasks[1..] ==> q in tasks;
      MergeWithin(records[r.taskId := r], tasks[1..], expected, allowed, total);
    }
  }

  /** What the result of a phase lists. */
  lemma PayloadLists(samples: seq<TaskId>, past: seq<Phase>, phase: Phase)
    requires ChainOk(samples, past) && PhaseOk(samples, past, phase)
    ensures var all := Completed(past) + phase.disk;
            && (forall r :: r in phase.payload.tasks ==> r.taskId in all && all[r.taskId] == r && r.taskId in samples)
            && (forall t :: t in Completed(past) ==> Completed(past)[t] in phase.payload.tasks)
  {
    hide Review, ChainOk;
    CompletedOk(samples, past);
    var shown :| Within(Completed(past), shown) && Within(shown, Completed(past) + phase.disk)
                 && phase.payload == ResultPayload(samples, shown, phase.command.identity,
                                                   ExpectedProvenance(past, phase.command));
    OrderedHolds(samples, shown);
    forall t | t in Completed(past)
      ensures Completed(past)[t] in phase.payload.tasks
    {
      var r := shown[t];
      assert r in phase.payload.tasks;
    }
  }

  /** Every listed record's fingerprint is one that the next resume allows. */
  lemma PayloadAllowed(samples: seq<TaskId>, past: seq<Phase>, phase: Phase, r: Record)
    requires ChainOk(samples, past) && PhaseOk(samples, past, phase) && r in phase.payload.tasks
    ensures r.fingerprint in Allowed(phase.payload)
    ensures phase.payload.fingerprint == phase.Run() && phase.payload.identity == phase.command.identity
  {
    hide Review, ChainOk;
    PayloadLists(samples, past, phase);
    if r.taskId !in phase.disk {
      assert Completed(past)[r.taskId] == r && r.fingerprint in FingerprintsOf(Completed(past));
    }
  }

  lemma PayloadIdentity(samples: seq<TaskId>, past: seq<Phase>, phase: Phase)
    requires PayloadOk(samples, past, phase)
    ensures phase.payload.fingerprint == phase.Run() && phase.payload.identity == phase.command.identity
    ensures phase.payload.provenance == ExpectedProvenance(past, phase.command)
  {
  }

  lemma MergedIsAll(inherited: Records, disk: Records, tasks: seq<Record>, merged: Records)
    requires Filed(inherited) && (forall t :: t in inherited ==> inherited[t] in tasks)
    requires Within(disk, merged) && Within(merged, inherited + disk) && forall r :: r in tasks ==> r.taskId in merged
    ensures merged == inherited + disk
  {
    forall t | t in inherited + disk
      ensures t in merged
    {
      if t !in disk {
        var r := inherited[t];
        assert r in tasks && r.taskId == t;
      }
    }
  }

  /** Record files and result of a stopped phase together give every record of the chain. */
  lemma MergeRestores(samples: seq<TaskId>, past: seq<Phase>, files: seq<Record>)
    requires ChainOk(samples, past) && |past| > 0 && Lists(files, past[|past| - 1].disk)
    ensures var phase := past[|past| - 1];
            && LoadFrom(map[], files, Expected(samples), phase.payload.fingerprint) == Ok(phase.disk)
            && MergeFrom(phase.disk, phase.payload.tasks, Expected(samples), Allowed(phase.payload))
                == Ok(Completed(past))
  {
    hide Review, ResultPayload, Lists, LoadFrom, MergeFrom, Filed, Allowed, PayloadOk, Linked;
    var n := |past| - 1;
    var before, phase := past[..n], past[n];
    PayloadIdentity(samples, before, phase);
    LoadRestores(files, phase.disk, Expected(samples), phase.Run());
    PayloadLists(samples, before, phase);
    forall r | r in phase.payload.tasks
      ensures r.fingerprint in Allowed(phase.payload)
    {
      PayloadAllowed(samples, before, phase, r);
    }
    MergeWithin(phase.disk, phase.payload.tasks, Expected(samples), Allowed(phase.payload), Completed(past));
    var merged := MergeFrom(phase.disk, phase.payload.tasks, Expected(samples), Allowed(phase.payload)).value;
    CompletedOk(samples, before);
    MergedIsAll(Completed(before), phase.disk, phase.payload.tasks, merged);
  }

  function ArgsFor(past: seq<Phase>, command: Command, files: seq<Record>): Args {
    Args(command.resultPath, SourceOf(past, files), command.approvedSha, command.reviewedConfig)
  }

  /** The import from a stopped chain yields all its records, or the review's refusal. */
  lemma ResumeRestores(samples: seq<TaskId>, past: seq<Phase>, command: Command, files: seq<Record>)
    requires ChainOk(samples, past) && |past| > 0 && Lists(files, past[|past| - 1].disk)
    ensures var source := past[|past| - 1].command;
            var verdict := Review(source.identity, command.identity, command.approvedSha, command.reviewedConfig);
            Resumed(ArgsFor(past, command, files), command.identity, Expected(samples))
            == if source.resultPath == command.resultPath then Err(SameRun)
               else if verdict.Some? then Err(verdict.value)
               else Ok(Import(Completed(past), ExpectedProvenance(past, command)))
  {
    hide Review, ResultPayload, Lists, LoadFrom, MergeFrom, Completed, Allowed;
    PayloadIdentity(samples, past[..|past| - 1], past[|past| - 1]);
    MergeRestores(samples, past, files);
  }

  /** The records of a directory are those of this run, whether or not they repeat inherited tasks. */
  ghost predicate OwnRecords(samples: seq<TaskId>, command: Command, disk: Records) {
    forall t :: t in disk ==> t in samples && disk[t].taskId == t && disk[t].fingerprint == Sha256(command.identity)
  }

  /**
   * What starting a command in a directory of its own records does: it refuses
   * with the rerun error exactly when the directory repeats an inherited task,
   * and otherwise finds all that is on the disks.
   */
  lemma BootOutcome(samples: seq<TaskId>, past: seq<Phase>, command: Command, disk: Records,
                    own: seq<Record>, files: seq<Record>)
    requires ChainOk(samples, past) && OwnRecords(samples, command, disk) && Linked(past, command)
    requires Lists(own, disk) && (|past| > 0 ==> Lists(files, past[|past| - 1].disk))
    ensures Boot(samples, command, own, SourceOf(past, files))
            == if disk.Keys !! Completed(past).Keys
               then Ok(Import(Completed(past) + disk, ExpectedProvenance(past, command)))
               else Err(Rerun)
  {
    hide Review, Lists, LoadFrom, MergeFrom, ChainOk;
    LoadRestores(own, disk, Expected(samples), Sha256(command.identity));
    if |past| > 0 {
      ResumeRestores(samples, past, command, files);
    }
    NoCommonKey(disk.Keys, Completed(past).Keys);
  }

  lemma NoCommonKey(a: set<TaskId>, b: set<TaskId>)
    ensures a * b == {} <==> a !! b
  {
    if a * b == {} {
      forall t | t in a
        ensures t !in b
      {
        assert t in b ==> t in a * b;
      }
    }
  }

  /** Starting the command of a consistent phase directory again finds all its records and all it inherited. */
  lemma BootRestores(samples: seq<TaskId>, past: seq<Phase>, phase: Phase, own: seq<Record>, files: seq<Record>)
    requires ChainOk(samples, past) && DiskOk(samples, past, phase) && Linked(past, phase.command)
    requires Lists(own, phase.disk) && (|past| > 0 ==> Lists(files, past[|past| - 1].disk))
    ensures Boot(samples, phase.command, own, SourceOf(past, files))
            == Ok(Import(Completed(past) + phase.disk, ExpectedProvenance(past, phase.command)))
  {
    hide Boot, ChainOk, Linked, Lists, Completed;
    BootOutcome(samples, past, phase.command, phase.disk, own, files);
  }

  // ---------------------------------------------------------------------
  // Every event keeps the invariant.

  lemma WithLast(past: seq<Phase>, phase: Phase)
    ensures (past + [phase])[..|past + [phase]| - 1] == past
    ensures Completed(past + [phase]) == Completed(past) + phase.disk
  {
    assert (past + [phase])[..|past|] == past;
  }

  lemma Shows(samples: seq<TaskId>, past: seq<Phase>, phase: Phase, shown: Records)
    requires Within(Completed(past), shown) && Within(shown, Completed(past) + phase.disk)
    requires phase.payload == ResultPayload(samples, shown, phase.command.identity, ExpectedProvenance(past,
        phase.command))
    ensures PayloadOk(samples, past, phase)
  {
  }

  lemma BootFresh(samples: seq<TaskId>, command: Command, past: seq<Phase>, files: seq<Record>)
    ensures Boot(samples, command, [], SourceOf(past, files))
            == Resumed(ArgsFor(past, command, files), command.identity, Expected(samples))
  {
    hide Resumed;
    var r := Resumed(ArgsFor(past, command, files), command.identity, Expected(samples));
    if r.Ok? {
      assert r.value.records + map[] == r.value.records;
    }
  }

  /** A new phase starts exactly when the review accepts it, and then with every record of the chain. */
  lemma BootExactly(samples: seq<TaskId>, past: seq<Phase>, command: Command, files: seq<Record>)
    requires ChainOk(samples, past) && (|past| > 0 ==> Lists(files, past[|past| - 1].disk))
    ensures var boot := Boot(samples, command, [], SourceOf(past, files));
            && (boot.Ok? <==> Linked(past, command))
            && (boot.Ok? ==> boot.value == Import(Completed(past), ExpectedProvenance(past, command)))
            && (boot.Err? ==>
                  && |past| > 0
                  && var source := past[|past| - 1].command;
                     boot.error == SameRun
                     || Some(boot.error) == Review(source.identity, command.identity, command.approvedSha,
                         command.reviewedConfig))
  {
    hide Review, Lists, Boot, ChainOk, ExpectedProvenance;
    BootFresh(samples, command, past, files);
    if |past| > 0 {
      hide Resumed;
      ResumeRestores(samples, past, command, files);
    } else {
      assert ExpectedProvenance(past, command) == None by {
        NoProvenance(past, command);
      }
    }
  }

  lemma NoProvenance(past: seq<Phase>, command: Command)
    requires |past| == 0
    ensures ExpectedProvenance(past, command) == None
  {
  }

  /** A started or restarted process has in memory all that is on the disks. */
  lemma FreshMemory(samples: seq<TaskId>, inherited: Records, disk: Records)
    requires inherited.Keys !! disk.Keys
    ensures MemoryOk(samples, inherited, disk, Running(inherited + disk, {}, map[]))
  {
  }

  lemma FinishMemory(samples: seq<TaskId>, inherited: Records, disk: Records, p: Process, task: TaskId, record: Record)
    requires p.Running? && MemoryOk(samples, inherited, disk, p) && task in p.inFlight
    ensures task !in inherited + disk && inherited + disk[task := record] == (inherited + disk)[task := record]
    ensures MemoryOk(samples, inherited, disk[task := record],
                     p.(inFlight := p.inFlight - {task}, finished := p.finished[task := record]))
  {
    RecordAdded(inherited, disk, task, record);
  }

  lemma RecordAdded(inherited: Records, disk: Records, task: TaskId, record: Record)
    ensures inherited + disk[task := record] == (inherited + disk)[task := record]
  {
  }

  lemma CollectMemory(samples: seq<TaskId>, inherited: Records, disk: Records, p: Process, task: TaskId)
    requires p.Running? && MemoryOk(samples, inherited, disk, p) && task in p.finished && inherited.Keys !! disk.Keys
    ensures MemoryOk(samples, inherited, disk,
                     p.(memory := p.memory[task := p.finished[task]], finished := p.finished - {task}))
  {
  }

  lemma MemoryWithin(samples: seq<TaskId>, inherited: Records, disk: Records, p: Process)
    requires p.Running? && MemoryOk(samples, inherited, disk, p)
    ensures Within(inherited, p.memory) && Within(p.memory, inherited + disk)
  {
  }

  /** The invariant after replacing the last phase and its process. */
  lemma Rebuild(samples: seq<TaskId>, past: seq<Phase>, phase: Phase, p: Process)
    requires ChainOk(samples, past) && DiskOk(samples, past, phase) && Linked(past, phase.command)
    requires p.Running? && ProcessOk(samples, past, phase, p)
    ensures Inv(samples, State(past + [phase], p, Completed(past) + phase.disk))
  {
    hide Review, ResultPayload, ProvenanceOf, MemoryOk, DiskOk, Linked;
    WithLast(past, phase);
    MemoryWithin(samples, Completed(past), phase.disk, p);
    Shows(samples, past, phase, p.memory);
  }

  lemma LaunchKeepsInv(samples: seq<TaskId>, s: State, command: Command, files: seq<Record>)
    requires Inv(samples, s) && Enabled(samples, s, Launch(command, files))
    ensures Inv(samples, Launched(samples, s, command, files))
  {
    hide Review, Lists, ResultPayload, Boot, ProvenanceOf, MemoryOk, Linked, ChainOk;
    BootExactly(samples, s.phases, command, files);
    var boot := Boot(samples, command, [], SourceOf(s.phases, files));
    if boot.Ok? {
      var phase := Phase(command, map[], ResultPayload(samples, boot.value.records, command.identity,
          boot.value.provenance));
      assert Completed(s.phases) + phase.disk == Completed(s.phases);
      FreshMemory(samples, Completed(s.phases), phase.disk);
      Rebuild(samples, s.phases, phase, Running(boot.value.records, {}, map[]));
    }
  }

  lemma LastOk(samples: seq<TaskId>, s: State)
    requires Inv(samples, s) && |s.phases| > 0
    ensures ChainOk(samples, Past(s)) && PhaseOk(samples, Past(s), Last(s)) && s.phases == Past(s) + [Last(s)]
    ensures s.history == Completed(Past(s)) + Last(s).disk && Completed(Past(s)).Keys !! Last(s).disk.Keys
  {
    hide Review, ResultPayload, ProvenanceOf, MemoryOk;
  }

  /** With no phase before it there is nothing to resume from. */
  lemma OptionOfFirst(samples: seq<TaskId>, s: State, own: seq<Record>, files: seq<Record>, resume: bool)
    requires |s.phases| > 0 && KeepsOption(s, Restart(own, files, resume))
    ensures Restarted(samples, s, own, files, resume) == Restarted(samples, s, own, files, true)
  {
    hide Boot, ResultPayload;
    assert |s.phases| == 1 ==> SourceOf(Past(s), files) == None;
  }

  lemma RestartKeepsInv(samples: seq<TaskId>, s: State, own: seq<Record>, files: seq<Record>, resume: bool)
    requires Inv(samples, s) && Enabled(samples, s, Restart(own, files, resume))
    requires KeepsOption(s, Restart(own, files, resume))
    ensures Inv(samples, Restarted(samples, s, own, files, resume))
    ensures Restarted(samples, s, own, files, resume).process == Running(s.history, {}, map[])
  {
    hide Review, Lists, ResultPayload, Boot, ProvenanceOf, MemoryOk, ChainOk, PayloadOk;
    OptionOfFirst(samples, s, own, files, resume);
    var past, phase := Past(s), Last(s);
    LastOk(samples, s);
    assert |s.phases| > 1 ==> past[|past| - 1] == s.phases[|s.phases| - 2];
    BootRestores(samples, past, phase, own, files);
    FreshMemory(samples, Completed(past), phase.disk);
    Rebuild(samples, past, Last(Restarted(samples, s, own, files, true)), Running(s.history, {}, map[]));
  }

  lemma FinishDisk(samples: seq<TaskId>, past: seq<Phase>, phase: Phase, task: TaskId, score: real, success: bool)
    requires DiskOk(samples, past, phase) && task in samples && task !in Completed(past)
    ensures DiskOk(samples, past, phase.(disk := phase.disk[task := Record(task, phase.Run(), score, success)]))
  {
    hide Completed;
  }

  lemma FinishKeepsInv(samples: seq<TaskId>, s: State, task: TaskId, score: real, success: bool)
    requires Inv(samples, s) && Enabled(samples, s, Finish(task, score, success))
    ensures Inv(samples, Finished(s, task, score, success))
    ensures task !in s.history
  {
    hide Review, ResultPayload, ProvenanceOf, MemoryOk, ChainOk, PayloadOk, Completed, DiskOk;
    var past, phase := Past(s), Last(s);
    LastOk(samples, s);
    var t := Finished(s, task, score, success);
    var record := Record(task, phase.Run(), score, success);
    InFlightIsSample(samples, Completed(past), phase.disk, s.process, task);
    FinishMemory(samples, Completed(past), phase.disk, s.process, task, record);
    FinishDisk(samples, past, phase, task, score, success);
    Rebuild(samples, past, Last(t), t.process);
  }

  lemma InFlightIsSample(samples: seq<TaskId>, inherited: Records, disk: Records, p: Process, task: TaskId)
    requires p.Running? && MemoryOk(samples, inherited, disk, p) && task in p.inFlight
    ensures task in samples
  {
  }

  lemma CollectKeepsInv(samples: seq<TaskId>, s: State, task: TaskId)
    requires Inv(samples, s) && Enabled(samples, s, Collect(task))
    ensures Inv(samples, Collected(samples, s, task))
  {
    hide Review, ResultPayload, ProvenanceOf, MemoryOk, ChainOk, PayloadOk, Completed;
    var past, phase := Past(s), Last(s);
    LastOk(samples, s);
    PayloadIdentity(samples, past, phase);
    var t := Collected(samples, s, task);
    CollectMemory(samples, Completed(past), phase.disk, s.process, task);
    Rebuild(samples, past, Last(t), t.process);
  }

  lemma StepKeepsInv(samples: seq<TaskId>, s: State, e: Event)
    requires Inv(samples, s) && Enabled(samples, s, e) && KeepsOption(s, e)
    ensures Inv(samples, Apply(samples, s, e))
  {
    hide ChainOk, Lists, Launched, Restarted, Finished, Collected;
    match e
    case Launch(command, files) => LaunchKeepsInv(samples, s, command, files);
    case Restart(own, files, resume) => RestartKeepsInv(samples, s, own, files, resume);
    case Finish(task, score, success) => FinishKeepsInv(samples, s, task, score, success);
    case Collect(task) => CollectKeepsInv(samples, s, task);
    case Start(task) => StartKeepsProcess(samples, Past(s), Last(s), s.process, task);
    case Stop =>
  }

  lemma StartKeepsProcess(samples: seq<TaskId>, past: seq<Phase>, phase: Phase, p: Process, task: TaskId)
    requires ProcessOk(samples, past, phase, p) && p.Running?
    requires task in samples && task !in p.memory && task !in p.finished
    ensures ProcessOk(samples, past, phase, p.(inFlight := p.inFlight + {task}))
  {
    hide ResultPayload;
  }

  lemma {:induction false} RunKeepsInv(samples: seq<TaskId>, s: State, events: seq<Event>)
    requires Inv(samples, s) && Run(samples, s, events).Some? && KeepsOptions(samples, s, events)
    ensures Inv(samples, Run(samples, s, events).value)
    decreases |events|
  {
    hide Inv, Enabled, Apply, KeepsOption;
    if |events| > 0 {
      StepKeepsInv(samples, s, events[0]);
      RunKeepsInv(samples, Apply(samples, s, events[0]), events[1..]);
    }
  }

  lemma ReachableInv(samples: seq<TaskId>, s: State)
    requires Reachable(samples, s)
    ensures Inv(samples, s)
  {
    var events :| Run(samples, NOTHING, events) == Some(s) && KeepsOptions(samples, NOTHING, events);
    assert Inv(samples, NOTHING);
    RunKeepsInv(samples, NOTHING, events);
  }

  // ---------------------------------------------------------------------
  // Main results, over every run of a campaign.

  lemma StepExtends(samples: seq<TaskId>, s: State, e: Event)
    requires Inv(samples, s) && Enabled(samples, s, e)
    ensures Within(s.history, Apply(samples, s, e).history)
  {
    hide Inv, Lists, ResultPayload, Boot;
    if e.Finish? {
      FinishKeepsInv(samples, s, e.task, e.score, e.success);
    }
  }

  lemma {:induction false} RunExtends(samples: seq<TaskId>, s: State, events: seq<Event>)
    requires Inv(samples, s) && Run(samples, s, events).Some? && KeepsOptions(samples, s, events)
    ensures Within(s.history, Run(samples, s, events).value.history)
    decreases |events|
  {
    hide Inv, Enabled, Apply, KeepsOption;
    if |events| > 0 {
      StepExtends(samples, s, events[0]);
      StepKeepsInv(samples, s, events[0]);
      RunExtends(samples, Apply(samples, s, events[0]), events[1..]);
    }
  }

  lemma {:induction false} DiskOf(samples: seq<TaskId>, phases: seq<Phase>, task: TaskId) returns (k: nat)
    requires ChainOk(samples, phases) && task in Completed(phases)
    ensures k < |phases| && task in phases[k].disk && phases[k].disk[task] == Completed(phases)[task]
    ensures phases[k].disk[task].fingerprint == phases[k].Run()
    ensures forall j :: 0 <= j < |phases| && task in phases[j].disk ==> j == k
  {
    hide PayloadOk, Linked;
    var n := |phases| - 1;
    if task in phases[n].disk {
      k := n;
      if j :| 0 <= j < n && task in phases[j].disk {
        OnEarlierDisk(samples, phases[..n], j, task);
        assert false;
      }
    } else {
      k := DiskOf(samples, phases[..n], task);
      assert forall j :: 0 <= j < n ==> phases[..n][j] == phases[j];
    }
  }

  lemma {:induction false} OnEarlierDisk(samples: seq<TaskId>, phases: seq<Phase>, j: nat, task: TaskId)
    requires ChainOk(samples, phases) && j < |phases| && task in phases[j].disk
    ensures task in Completed(phases)
  {
    hide PayloadOk, Linked;
    if j < |phases| - 1 {
      OnEarlierDisk(samples, phases[..|phases| - 1], j, task);
    }
  }

  /** Every completed record is in exactly one phase's directory and carries the fingerprint of that phase. */
  lemma OneRecordPerTask(samples: seq<TaskId>, s: State, task: TaskId) returns (k: nat)
    requires Reachable(samples, s) && task in s.history
    ensures k < |s.phases| && task in s.phases[k].disk && s.phases[k].disk[task] == s.history[task]
    ensures s.history[task].taskId == task && s.history[task].fingerprint == Sha256(s.phases[k].command.identity)
    ensures forall j :: 0 <= j < |s.phases| && task in s.phases[j].disk ==> j == k
  {
    ReachableInv(samples, s);
    k := DiskOf(samples, s.phases, task);
    CompletedOk(samples, s.phases);
  }

  /**
   * Whatever happens next, as long as resumed phases keep their option, every
   * completed record stays on some phase's disk unchanged, zero scores included.
   */
  lemma CompletedNeverLost(samples: seq<TaskId>, s: State, events: seq<Event>, i: nat, task: TaskId) returns (k: nat)
    requires Reachable(samples, s) && Run(samples, s, events).Some? && KeepsOptions(samples, s, events)
    requires i < |s.phases| && task in s.phases[i].disk
    ensures var t := Run(samples, s, events).value;
            && k < |t.phases| && task in t.phases[k].disk && t.phases[k].disk[task] == s.phases[i].disk[task]
            && forall j :: 0 <= j < |t.phases| && task in t.phases[j].disk ==> j == k
  {
    hide Run, KeepsOptions, ChainOk, ProcessOk;
    ReachableInv(samples, s);
    RunExtends(samples, s, events);
    RunKeepsInv(samples, s, events);
    var t := Run(samples, s, events).value;
    OnEarlierDisk(samples, s.phases, i, task);
    var m := DiskOf(samples, s.phases, task);
    k := DiskOf(samples, t.phases, task);
  }

  /**
   * A running process can start exactly the samples without a record that are
   * not in flight; a completed task is neither started nor in flight again.
   */
  lemma NeverRerun(samples: seq<TaskId>, s: State, task: TaskId)
    requires Reachable(samples, s)
    ensures Enabled(samples, s, Start(task))
            <==> s.process.Running? && task in samples && task !in s.history && task !in s.process.inFlight
    ensures s.process.Running? && task in s.history ==> task !in s.process.inFlight
  {
    hide ChainOk, ResultPayload, PhaseOk, Reachable, Completed;
    ReachableInv(samples, s);
    if s.process.Running? {
      LastOk(samples, s);
    }
  }

  /**
   * The same command can always be started again in its directory: no check
   * fails, the one on rerun inherited tasks included, and the new process and
   * the new result have exactly the records ever written.
   */
  lemma RestartFindsEverything(samples: seq<TaskId>, s: State, own: seq<Record>, files: seq<Record>)
    requires Reachable(samples, s) && Enabled(samples, s, Restart(own, files, true))
    ensures var boot := Boot(samples, Last(s).command, own, SourceOf(Past(s), files));
            boot.Ok? && boot.value.records == s.history
    ensures var t := Apply(samples, s, Restart(own, files, true));
            && t.process == Running(s.history, {}, map[])
            && forall r :: r in Last(t).payload.tasks <==> r.taskId in s.history && s.history[r.taskId] == r
  {
    hide Review, Lists, Boot, ChainOk, PayloadOk, DiskOk, Linked, ProvenanceOf, ResultPayload, Inv;
    ReachableInv(samples, s);
    LastOk(samples, s);
    var past, phase := Past(s), Last(s);
    assert |s.phases| > 1 ==> past[|past| - 1] == s.phases[|s.phases| - 2];
    BootRestores(samples, past, phase, own, files);
    HistoryListed(samples, s, phase.command.identity, ExpectedProvenance(past, phase.command));
  }

  lemma HistoryListed(samples: seq<TaskId>, s: State, identity: Identity, provenance: Option<Provenance>)
    requires Inv(samples, s)
    ensures forall r :: r in ResultPayload(samples, s.history, identity, provenance).tasks
                        <==> r.taskId in s.history && s.history[r.taskId] == r
  {
    hide ChainOk, ProcessOk;
    CompletedOk(samples, s.phases);
    OrderedHolds(samples, s.history);
  }

  // ---------------------------------------------------------------------
  // A restart that drops the resume option.

  /**
   * Without the option the checks pass, because the fingerprint does not cover
   * it, and exactly the phase's own records are found: all there are exactly
   * when nothing was inherited.
   */
  lemma DroppedOptionExactly(samples: seq<TaskId>, s: State, own: seq<Record>, files: seq<Record>)
    requires Reachable(samples, s) && Enabled(samples, s, Restart(own, files, false))
    ensures Boot(samples, Last(s).command, own, None) == Ok(Import(Last(s).disk, None))
    ensures Last(s).disk == s.history <==> Completed(Past(s)) == map[]
  {
    hide Review, Lists, Boot, PayloadOk, ResultPayload, ProcessOk, Reachable;
    ReachableInv(samples, s);
    LastOk(samples, s);
    var phase, inherited := Last(s), Completed(Past(s));
    BootOutcome(samples, [], phase.command, phase.disk, own, files);
    assert Completed([]) + phase.disk == phase.disk;
    OwnIsAll(inherited, phase.disk);
  }

  lemma OwnIsAll(inherited: Records, disk: Records)
    requires inherited.Keys !! disk.Keys
    ensures disk == inherited + disk <==> inherited == map[]
  {
    if disk == inherited + disk {
      forall t
        ensures t !in inherited
      {
        assert t in inherited ==> t in inherited + disk;
      }
      assert inherited == map[];
    }
  }

  lemma {:induction false} RunThen(samples: seq<TaskId>, s: State, events: seq<Event>, t: State, e: Event)
    requires Run(samples, s, events) == Some(t) && Enabled(samples, t, e)
    ensures Run(samples, s, events + [e]) == Some(Apply(samples, t, e))
    ensures KeepsOptions(samples, s, events) && KeepsOption(t, e) ==> KeepsOptions(samples, s, events + [e])
    decreases |events|
  {
    hide Enabled, Apply, KeepsOption;
    var all := events + [e];
    if |events| > 0 {
      assert all[0] == events[0] && all[1..] == events[1..] + [e];
      RunThen(samples, Apply(samples, s, events[0]), events[1..], t, e);
    } else {
      assert all == [e] && all[1..] == [];
      NothingRun(samples, Apply(samples, t, e));
    }
  }

  lemma NothingRun(samples: seq<TaskId>, s: State)
    ensures Run(samples, s, []) == Some(s) && KeepsOptions(samples, s, [])
  {
  }

  lemma OneMoreFile(files: seq<Record>, records: Records, r: Record)
    requires Lists(files, records) && r.taskId !in records
    ensures Lists(files + [r], records[r.taskId := r])
  {
    var more, grown := files + [r], records[r.taskId := r];
    forall t | t in grown
      ensures exists i :: 0 <= i < |more| && more[i].taskId == t
    {
      if t == r.taskId {
        assert more[|files|].taskId == t;
      } else {
        var i :| 0 <= i < |files| && files[i].taskId == t;
        assert more[i].taskId == t;
      }
    }
  }

  /** A started, finished and stopped task, as one stretch of a run. */
  lemma RunOneTask(samples: seq<TaskId>, from: State, events: seq<Event>, s: State, task: TaskId)
    returns (longer: seq<Event>, t: State)
    requires Run(samples, from, events) == Some(s) && Enabled(samples, s, Start(task))
    ensures Run(samples, from, longer) == Some(t)
    ensures KeepsOptions(samples, from, events) ==> KeepsOptions(samples, from, longer)
    ensures t.process.Stopped? && |t.phases| == |s.phases| && Past(t) == Past(s) && Last(t).command == Last(s).command
    ensures Last(t).disk == Last(s).disk[task := Record(task, Last(s).Run(), 0.0, false)]
    ensures Last(t).payload == Last(s).payload
  {
    hide Run, KeepsOptions;
    var s1 := Apply(samples, s, Start(task));
    RunThen(samples, from, events, s, Start(task));
    var finish := Finish(task, 0.0, false);
    RunThen(samples, from, events + [Start(task)], s1, finish);
    var s2 := Apply(samples, s1, finish);
    RunThen(samples, from, events + [Start(task)] + [finish], s2, Stop);
    longer := events + [Start(task)] + [finish] + [Stop];
    t := Apply(samples, s2, Stop);
    WithLast(Past(s), Last(t));
  }

  /**
   * One dropped option leads to the error about rerun tasks: an inherited task
   * counts as pending, is completed a second time, and the next restart that
   * names the source again refuses the directory.
   */
  lemma DroppedOptionReachesRerun(samples: seq<TaskId>, s: State, own: seq<Record>, files: seq<Record>, task: TaskId)
    returns (events: seq<Event>, t: State, ownAfter: seq<Record>)
    requires Reachable(samples, s) && Enabled(samples, s, Restart(own, files, false))
    requires task in Completed(Past(s))
    ensures Run(samples, s, events) == Some(t) && Enabled(samples, t, Restart(ownAfter, files, true))
    ensures Boot(samples, Last(t).command, ownAfter, SourceOf(Past(t), files)) == Err(Rerun)
  {
    hide Review, Lists, Boot, PayloadOk, ResultPayload, ProcessOk, Run, Linked, Reachable, ChainOk, DiskOk;
    ReachableInv(samples, s);
    LastOk(samples, s);
    CompletedOk(samples, Past(s));
    var past, phase := Past(s), Last(s);
    var restart := Restart(own, files, false);
    DroppedOptionExactly(samples, s, own, files);
    NothingRun(samples, s);
    RunThen(samples, s, [], s, restart);
    var u := Apply(samples, s, restart);
    WithLast(past, Last(u));
    events, t := RunOneTask(samples, s, [] + [restart], u, task);
    var record := Record(task, phase.Run(), 0.0, false);
    ownAfter := own + [record];
    OneMoreFile(own, phase.disk, record);
    RestartEnabled(samples, s, t, own, files, ownAfter);
    OwnAfterFinish(samples, past, phase, task);
    BootOutcome(samples, past, phase.command, Last(t).disk, ownAfter, files);
    assert task in Last(t).disk.Keys && task in Completed(past).Keys;
  }

  /** A launch that the review accepts, as one step of a run. */
  lemma RunLaunch(samples: seq<TaskId>, events: seq<Event>, s: State, command: Command, files: seq<Record>)
    returns (longer: seq<Event>, t: State)
    requires Run(samples, NOTHING, events) == Some(s) && KeepsOptions(samples, NOTHING, events)
    requires Inv(samples, s) && Enabled(samples, s, Launch(command, files)) && Linked(s.phases, command)
    ensures Run(samples, NOTHING, longer) == Some(t) && KeepsOptions(samples, NOTHING, longer)
    ensures |t.phases| == |s.phases| + 1 && Past(t) == s.phases && Last(t).command == command && Last(t).disk == map[]
    ensures t.process == Running(Completed(s.phases), {}, map[])
  {
    hide Run, KeepsOptions, Lists, Boot, ResultPayload, Linked, ChainOk, ProcessOk;
    var launch := Launch(command, files);
    BootExactly(samples, s.phases, command, files);
    RunThen(samples, NOTHING, events, s, launch);
    longer, t := events + [launch], Apply(samples, s, launch);
    WithLast(s.phases, Last(t));
  }

  /** The first phase completes a task; the second inherits it and is stopped. */
  lemma ResumedRun() returns (events: seq<Event>, s: State, record: Record)
    ensures Run(["a"], NOTHING, events) == Some(s) && KeepsOptions(["a"], NOTHING, events)
    ensures s.process.Stopped? && |s.phases| == 2 && Last(s).disk == map[]
    ensures record.taskId == "a" && s.phases[0].disk == map["a" := record]
  {
    hide Run, KeepsOptions, Inv, ResultPayload, Boot;
    var samples := ["a"];
    var first, second := Command(map[], "first", None, None), Command(map[], "second", None, None);
    NothingRun(samples, NOTHING);
    NothingInv(samples);
    var launched, s1 := RunLaunch(samples, [], NOTHING, first, []);
    var finished, s2 := RunOneTask(samples, NOTHING, launched, s1, "a");
    RunKeepsInv(samples, NOTHING, finished);
    record := Record("a", Last(s1).Run(), 0.0, false);
    assert [record][0] == record;
    assert Lists([record], Last(s2).disk);
    assert Linked(s2.phases, second);
    var resumed, s3 := RunLaunch(samples, finished, s2, second, [record]);
    RunThen(samples, NOTHING, resumed, s3, Stop);
    events, s := resumed + [Stop], Apply(samples, s3, Stop);
  }

  lemma NothingInv(samples: seq<TaskId>)
    ensures Inv(samples, NOTHING)
  {
  }

  /** The error about rerun tasks is reachable once an option is dropped: one task and two phases suffice. */
  lemma RerunIsReachable() returns (events: seq<Event>, t: State, own: seq<Record>, files: seq<Record>)
    ensures Run(["a"], NOTHING, events) == Some(t) && Enabled(["a"], t, Restart(own, files, true))
    ensures Boot(["a"], Last(t).command, own, SourceOf(Past(t), files)) == Err(Rerun)
  {
    hide Run, KeepsOptions, Boot;
    var before, s, record := ResumedRun();
    files := [record];
    assert [record][0] == record;
    assert Completed(Past(s)) == map["a" := record] by {
      assert Past(s) == [] + [s.phases[0]];
      WithLast([], s.phases[0]);
    }
    var after;
    after, t, own := DroppedOptionReachesRerun(["a"], s, [], files, "a");
    RunTogether(["a"], NOTHING, before, s, after);
    events := before + after;
  }

  lemma {:induction false} RunTogether(samples: seq<TaskId>, from: State, first: seq<Event>, s: State,
                                       second: seq<Event>)
    requires Run(samples, from, first) == Some(s)
    ensures Run(samples, from, first + second) == Run(samples, s, second)
    decreases |first|
  {
    hide Enabled, Apply;
    if |first| == 0 {
      assert first + second == second;
    } else {
      assert (first + second)[1..] == first[1..] + second;
      RunTogether(samples, Apply(samples, from, first[0]), first[1..], s, second);
    }
  }

  lemma RestartEnabled(samples: seq<TaskId>, s: State, t: State, own: seq<Record>, files: seq<Record>,
                       ownAfter: seq<Record>)
    requires Enabled(samples, s, Restart(own, files, false)) && |s.phases| == |t.phases| && Past(s) == Past(t)
    requires t.process.Stopped? && Lists(ownAfter, Last(t).disk)
    ensures Enabled(samples, t, Restart(ownAfter, files, true))
    ensures |Past(s)| > 0 ==> Lists(files, Past(s)[|Past(s)| - 1].disk)
  {
    hide Lists;
    if |s.phases| > 1 {
      assert Past(s)[|s.phases| - 2] == s.phases[|s.phases| - 2] && Past(t)[|s.phases| - 2] == t.phases[|s.phases| - 2];
    }
  }

  lemma OwnAfterFinish(samples: seq<TaskId>, past: seq<Phase>, phase: Phase, task: TaskId)
    requires PhaseOk(samples, past, phase) && task in samples
    ensures OwnRecords(samples, phase.command, phase.disk[task := Record(task, phase.Run(), 0.0, false)])
    ensures Linked(past, phase.command)
  {
    hide PayloadOk, Linked;
  }

  /** The review's verdict, in the terms of ReviewExactly. */
  ghost function Verdict(source: Identity, command: Command): Option<Error> {
    if !CodeApproved(source, command.identity, command.approvedSha) then Some(UnreviewedCode)
    else if !ConfigApproved(source, command.reviewedConfig) then Some(UnreviewedConfig)
    else if !ServingIsObject(source) || !ServingIsObject(command.identity) then Some(BadServingConfig)
    else if !SameEvaluation(source, command.identity, Commit(source) != Commit(command.identity),
                            command.reviewedConfig.Some?) then Some(SemanticsChanged)
    else None
  }

  /**
   * A new phase is refused exactly when it names its source's own result or
   * when the two identities differ in something that was not reviewed; otherwise
   * it starts with every record ever written.
   */
  lemma LaunchAcceptedExactly(samples: seq<TaskId>, s: State, command: Command, files: seq<Record>)
    requires Reachable(samples, s) && Enabled(samples, s, Launch(command, files))
    ensures var boot := Boot(samples, command, [], SourceOf(s.phases, files));
            var refusal := if |s.phases| == 0 then None
                           else if Last(s).command.resultPath == command.resultPath then Some(SameRun)
                           else Verdict(Last(s).command.identity, command);
            && (refusal.Some? ==> boot == Err(refusal.value))
            && (refusal.None? ==> boot.Ok? && boot.value.records == s.history)
    ensures var t := Apply(samples, s, Launch(command, files));
            if Boot(samples, command, [], SourceOf(s.phases, files)).Ok?
            then t.process == Running(s.history, {}, map[]) && t.history == s.history
                 && |t.phases| == |s.phases| + 1 && Past(t) == s.phases
                 && Last(t).command == command && Last(t).disk == map[]
            else t == s
  {
    hide Lists, Boot, ChainOk, Review, Verdict;
    ReachableInv(samples, s);
    BootExactly(samples, s.phases, command, files);
    if |s.phases| > 0 {
      VerdictIsReview(Last(s).command.identity, command);
      ResumeOutcome(samples, s.phases, command, files);
    }
  }

  lemma VerdictIsReview(source: Identity, command: Command)
    ensures Verdict(source, command)
         == Review(source, command.identity, command.approvedSha, command.reviewedConfig)
  {
    hide Review, CodeApproved, ConfigApproved, ServingIsObject, SameEvaluation;
    ReviewExactly(source, command.identity, command.approvedSha, command.reviewedConfig);
  }

  lemma ResumeOutcome(samples: seq<TaskId>, past: seq<Phase>, command: Command, files: seq<Record>)
    requires ChainOk(samples, past) && |past| > 0 && Lists(files, past[|past| - 1].disk)
    ensures var source, boot := past[|past| - 1].command, Boot(samples, command, [], SourceOf(past, files));
            var verdict := Review(source.identity, command.identity, command.approvedSha, command.reviewedConfig);
            && (source.resultPath == command.resultPath ==> boot == Err(SameRun))
            && (source.resultPath != command.resultPath && verdict.Some? ==> boot == Err(verdict.value))
  {
    hide Review, Resumed, Boot, ChainOk, Lists, ExpectedProvenance;
    BootFresh(samples, command, past, files);
    ResumeRestores(samples, past, command, files);
  }

  lemma {:induction false} ChainAt(samples: seq<TaskId>, phases: seq<Phase>, k: nat)
    requires ChainOk(samples, phases) && k < |phases|
    ensures ChainOk(samples, phases[..k]) && PhaseOk(samples, phases[..k], phases[k])
  {
    hide PhaseOk;
    if k < |phases| - 1 {
      var rest := phases[..|phases| - 1];
      ChainAt(samples, rest, k);
      assert rest[..k] == phases[..k];
    }
  }

  /**
   * Every record in any phase's result was written by that phase or an earlier
   * one, carries its writer's fingerprint, and passes the next resume's check
   * of allowed fingerprints.
   */
  lemma ProvenanceChain(samples: seq<TaskId>, s: State, k: nat, r: Record) returns (j: nat)
    requires Reachable(samples, s) && k < |s.phases| && r in s.phases[k].payload.tasks
    ensures j <= k && r.taskId in s.phases[j].disk && s.phases[j].disk[r.taskId] == r
    ensures r.fingerprint == Sha256(s.phases[j].command.identity)
    ensures r.fingerprint in Allowed(s.phases[k].payload)
  {
    hide PhaseOk, ProcessOk, ResultPayload, Allowed;
    ReachableInv(samples, s);
    ChainAt(samples, s.phases, k);
    PayloadLists(samples, s.phases[..k], s.phases[k]);
    PayloadAllowed(samples, s.phases[..k], s.phases[k], r);
    var upTo := s.phases[..k + 1];
    assert upTo == s.phases[..k] + [s.phases[k]];
    WithLast(s.phases[..k], s.phases[k]);
    assert ChainOk(samples, upTo);
    j := DiskOf(samples, upTo, r.taskId);
  }

  /** Some phase after i and up to j reviewed and approved the code of the phase before it. */
  ghost predicate CodeReviewed(phases: seq<Phase>, i: nat, j: nat)
    requires i <= j < |phases|
  {
    exists k :: i < k <= j && phases[k].command.approvedSha.Some?
                && Text(phases[k].command.approvedSha.value) == Commit(phases[k - 1].command.identity)
  }

  ghost predicate ConfigReviewed(phases: seq<Phase>, i: nat, j: nat)
    requires i <= j < |phases|
  {
    exists k :: i < k <= j && phases[k].command.reviewedConfig.Some?
                && Text(phases[k].command.reviewedConfig.value) == TaskConfig(phases[k - 1].command.identity)
  }

  /** Equal but for resources, and for code and task configuration where a phase between them reviewed a change. */
  ghost predicate Agree(phases: seq<Phase>, i: nat, j: nat)
    requires i <= j < |phases|
  {
    var a, b := phases[i].command.identity, phases[j].command.identity;
    && SameEvaluation(a, b, true, true)
    && (Commit(a) == Commit(b) || CodeReviewed(phases, i, j))
    && (TaskConfig(a) == TaskConfig(b) || ConfigReviewed(phases, i, j))
  }

  /** A projection that drops more is a function of one that drops less; what is kept can be read off it. */
  lemma ProjectionForgets(a: Identity, b: Identity, dropGit: bool, dropConfig: bool)
    requires Projection(a, dropGit, dropConfig) == Projection(b, dropGit, dropConfig)
    ensures Projection(a, true, true) == Projection(b, true, true)
    ensures !dropGit ==> Get(a, GIT) == Get(b, GIT)
    ensures !dropConfig ==> Get(a, CONFIG) == Get(b, CONFIG)
  {
    ProjectionAgain(a, dropGit, dropConfig);
    ProjectionAgain(b, dropGit, dropConfig);
    ProjectionReads(a, dropGit, dropConfig);
    ProjectionReads(b, dropGit, dropConfig);
  }

  lemma ProjectionAgain(a: Identity, dropGit: bool, dropConfig: bool)
    ensures Projection(a, true, true) == Projection(a, dropGit, dropConfig) - {GIT, CONFIG}
  {
    var kept := a - RESOURCE_KEYS - (if dropGit then {GIT} else {}) - (if dropConfig then {CONFIG} else {});
    assert a - RESOURCE_KEYS - {GIT} - {CONFIG} == kept - {GIT, CONFIG};
    assert WithoutServingResources(kept) - {GIT, CONFIG} == WithoutServingResources(kept - {GIT, CONFIG});
  }

  lemma ProjectionReads(a: Identity, dropGit: bool, dropConfig: bool)
    ensures !dropGit ==> Get(Projection(a, dropGit, dropConfig), GIT) == Get(a, GIT)
    ensures !dropConfig ==> Get(Projection(a, dropGit, dropConfig), CONFIG) == Get(a, CONFIG)
  {
  }

  lemma LinkAgrees(phases: seq<Phase>, k: nat)
    requires 0 < k < |phases| && Linked(phases[..k], phases[k].command)
    ensures Agree(phases, k - 1, k)
  {
    hide Projection, SameEvaluation;
    var a, command := phases[k - 1].command.identity, phases[k].command;
    ProjectionExactly(a, command.identity, true, true);
    assert phases[..k][k - 1] == phases[k - 1];
    ProjectionForgets(a, command.identity, Get(a, GIT) != Get(command.identity, GIT), command.reviewedConfig.Some?);
  }

  lemma AgreeTransitive(phases: seq<Phase>, i: nat, j: nat)
    requires i < j < |phases| && Agree(phases, i, j - 1) && Agree(phases, j - 1, j)
    ensures Agree(phases, i, j)
  {
    hide Projection, SameEvaluation, Commit, TaskConfig;
    ProjectionExactly(phases[i].command.identity, phases[j - 1].command.identity, true, true);
    ProjectionExactly(phases[j - 1].command.identity, phases[j].command.identity, true, true);
    ProjectionExactly(phases[i].command.identity, phases[j].command.identity, true, true);
    if CodeReviewed(phases, i, j - 1) || CodeReviewed(phases, j - 1, j) {
      assert CodeReviewed(phases, i, j);
    }
    if ConfigReviewed(phases, i, j - 1) || ConfigReviewed(phases, j - 1, j) {
      assert ConfigReviewed(phases, i, j);
    }
  }

  lemma {:induction false} ChainAgrees(samples: seq<TaskId>, phases: seq<Phase>, i: nat, j: nat)
    requires ChainOk(samples, phases) && i <= j < |phases|
    ensures Agree(phases, i, j)
    decreases j
  {
    hide Agree, PayloadOk, DiskOk, Linked;
    if i < j {
      ChainAgrees(samples, phases, i, j - 1);
      ChainAt(samples, phases, j);
      LinkAgrees(phases, j);
      AgreeTransitive(phases, i, j);
    } else {
      AgreeReflexive(phases, i);
    }
  }

  lemma AgreeReflexive(phases: seq<Phase>, i: nat)
    requires i < |phases|
    ensures Agree(phases, i, i)
  {
  }

  /** Any two phases of a campaign evaluate the same thing. */
  lemma PhasesAgree(samples: seq<TaskId>, s: State, i: nat, j: nat)
    requires Reachable(samples, s) && i <= j < |s.phases|
    ensures Agree(s.phases, i, j)
  {
    hide Agree, ChainOk;
    ReachableInv(samples, s);
    ChainAgrees(samples, s.phases, i, j);
  }

  /**
   * The lower bound published at any moment is met: a complete result at any
   * later moment, in this phase or another, has at least that mean.
   */
  lemma LowerBoundIsMet(samples: seq<TaskId>, s: State, events: seq<Event>)
    requires Reachable(samples, s) && |s.phases| > 0
    requires Run(samples, s, events).Some? && KeepsOptions(samples, s, events)
    requires var t := Run(samples, s, events).value;
             && |t.phases| > 0 && Last(t).payload.complete
             && forall task :: task in t.history ==> t.history[task].score >= 0.0
    ensures var final := Last(Run(samples, s, events).value).payload.meanScore;
            final.Some? && Last(s).payload.lowerBound <= final.value
  {
    hide Inv, ScoreSum, Review, ProvenanceOf;
    ReachableInv(samples, s);
    RunExtends(samples, s, events);
    RunKeepsInv(samples, s, events);
    var t := Run(samples, s, events).value;
    var early := ShownBy(samples, s);
    var late := ShownBy(samples, t);
    OrderedShort(samples, late);
    assert Within(early, late);
    LowerBoundHolds(samples, early, late);
  }

  lemma ShownBy(samples: seq<TaskId>, s: State) returns (shown: Records)
    requires Inv(samples, s) && |s.phases| > 0
    ensures Within(shown, s.history) && forall t :: t in shown ==> t in samples
    ensures Last(s).payload
            == ResultPayload(samples, shown, Last(s).command.identity, ExpectedProvenance(Past(s), Last(s).command))
  {
    hide ResultPayload, ProvenanceOf, Review;
    LastOk(samples, s);
    CompletedOk(samples, s.phases);
    shown :| Within(Completed(Past(s)), shown) && Within(shown, Completed(Past(s)) + Last(s).disk)
             && Last(s).payload == ResultPayload(samples, shown, Last(s).command.identity,
                                                 ExpectedProvenance(Past(s), Last(s).command));
  }

  // ---------------------------------------------------------------------
  // The program's own form: dictionaries and files updated in place.

  class Campaign {
    const samples: seq<TaskId>
    var phases: seq<Phase>
    var running: bool
    var records: Records
    var inFlight: set<TaskId>
    var finished: Records
    ghost var history: Records

    ghost function Value(): State
      reads this
    {
      State(phases, if running then Running(records, inFlight, finished) else Stopped, history)
    }

    constructor (samples: seq<TaskId>)
      ensures this.samples == samples && Value() == NOTHING && Inv(samples, Value())
    {
      this.samples, phases, running, records, inFlight, finished, history := samples, [], false, map[], {},
          map[], map[];
    }

    /** The loading part of the main program. */
    method LoadAll(command: Command, own: seq<Record>, source: Option<Source>) returns (r: Result<Import, Error>)
      ensures r == Boot(samples, command, own, source)
    {
      var expected := set t | t in samples;
      var loaded := LoadRecords(own, expected, Sha256(command.identity));
      if loaded.Err? {
        return Err(loaded.error);
      }
      var args := Args(command.resultPath, source, command.approvedSha, command.reviewedConfig);
      var inherited := ResumeRecords(args, command.identity, expected);
      if inherited.Err? {
        return Err(inherited.error);
      }
      if loaded.value.Keys * inherited.value.records.Keys != {} {
        return Err(Rerun);
      }
      return Ok(Import(inherited.value.records + loaded.value, inherited.value.provenance));
    }

    method LaunchPhase(command: Command, files: seq<Record>) returns (ok: bool)
      requires !running
      modifies this
      ensures Value() == Launched(samples, old(Value()), command, files)
      ensures ok == Boot(samples, command, [], SourceOf(old(phases), files)).Ok?
    {
      hide Boot, ResultPayload;
      var start := LoadAll(command, [], SourceOf(phases, files));
      if start.Err? {
        return false;
      }
      var payload := ResultPayload(samples, start.value.records, command.identity, start.value.provenance);
      phases := phases + [Phase(command, map[], payload)];
      running, records, inFlight, finished := true, start.value.records, {}, map[];
      return true;
    }

    method RestartPhase(own: seq<Record>, files: seq<Record>, resume: bool) returns (ok: bool)
      requires !running && |phases| > 0
      modifies this
      ensures Value() == Restarted(samples, old(Value()), own, files, resume)
      ensures ok == Boot(samples, old(Last(Value())).command, own,
                         if resume then SourceOf(old(Past(Value())), files) else None).Ok?
    {
      hide Boot, ResultPayload;
      var n := |phases| - 1;
      var phase := phases[n];
      var start := LoadAll(phase.command, own, if resume then SourceOf(phases[..n], files) else None);
      if start.Err? {
        return false;
      }
      var payload := ResultPayload(samples, start.value.records, phase.command.identity, start.value.provenance);
      phases := phases[..n] + [phase.(payload := payload)];
      running, records, inFlight, finished := true, start.value.records, {}, map[];
      return true;
    }

    /** A task's own record is written before anything else is told about it. */
    method FinishTask(task: TaskId, score: real, success: bool)
      requires running && |phases| > 0
      modifies this
      ensures Value() == Finished(old(Value()), task, score, success)
    {
      var n := |phases| - 1;
      var phase := phases[n];
      var record := Record(task, phase.Run(), score, success);
      phases := phases[..n] + [phase.(disk := phase.disk[task := record])];
      inFlight, finished := inFlight - {task}, finished[task := record];
      history := history[task := record];
    }

    /** The main loop takes a finished record and rewrites the result. */
    method CollectTask(task: TaskId)
      requires running && |phases| > 0 && task in finished
      modifies this
      ensures Value() == Collected(samples, old(Value()), task)
    {
      hide ResultPayload;
      var n := |phases| - 1;
      var phase := phases[n];
      records := records[task := finished[task]];
      finished := finished - {task};
      var payload := ResultPayload(samples, records, phase.command.identity, phase.payload.provenance);
      phases := phases[..n] + [phase.(payload := payload)];
    }

    /** One event, carried out on the object; a restart never fails. */
    method Perform(e: Event)
      requires Inv(samples, Value()) && Enabled(samples, Value(), e) && KeepsOption(Value(), e)
      modifies this
      ensures Value() == Apply(samples, old(Value()), e) && Inv(samples, Value())
      ensures Within(old(history), history)
      ensures e.Restart? ==> running && records == old(history)
    {
      hide Inv, Lists, Launched, Restarted, Finished, Collected;
      ghost var before := Value();
      StepKeepsInv(samples, before, e);
      StepExtends(samples, before, e);
      match e
      case Launch(command, files) =>
        var ok := LaunchPhase(command, files);
      case Restart(own, files, resume) =>
        RestartKeepsInv(samples, before, own, files, resume);
        var ok := RestartPhase(own, files, resume);
      case Start(task) => inFlight := inFlight + {task};
      case Finish(task, score, success) => FinishTask(task, score, success);
      case Collect(task) => CollectTask(task);
      case Stop => running := false;
    }
  }
}
