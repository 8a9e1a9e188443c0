/**
 * The one-batch rollout lookahead that drains before a checkpoint is saved.
 *
 * The trainer's base class, the sampler and the dataloader are an environment:
 * a base add dispatches one batch of fresh consecutive dataloader rows, the
 * sampler may take any outstanding rows, any outstanding row may be evicted and
 * is then replaced by one fresh row, and the process may crash at any point and
 * restart from its latest checkpoint with an empty queue.
 */
module AsyncPrefetch {
  import opened Prelude

  type Row = nat

  /** step % freq == 0, by repeated subtraction (MultipleIsModulo). */
  predicate Multiple(step: nat, freq: int)
    requires freq > 0
  {
    if step < freq then step == 0 else Multiple(step - freq, freq)
  }

  lemma SmallProduct(freq: int, k: int)
    requires freq > 0 && -freq < freq * k < freq
    ensures k == 0
  {
    assert k >= 1 ==> freq * k >= freq;
    assert k <= -1 ==> freq * k <= -freq;
  }

  lemma ModuloDrops(a: nat, freq: int)
    requires 0 < freq <= a
    ensures (a - freq) % freq == a % freq
  {
    var d, e := (a - freq) / freq, a / freq;
    assert a == freq * e + a % freq && a - freq == freq * d + (a - freq) % freq;
    var k := d + 1 - e;
    assert freq * k == freq * d + freq - freq * e;
    SmallProduct(freq, k);
  }

  lemma {:induction false} MultipleIsModulo(step: nat, freq: int)
    requires freq > 0
    ensures Multiple(step, freq) <==> step % freq == 0
  {
    if step >= freq {
      MultipleIsModulo(step - freq, freq);
      ModuloDrops(step, freq);
    }
  }

  /** updates * miniBatch rows per step, consumed by `updates` samples of miniBatch rows. */
  datatype Config = Config(miniBatch: nat, updates: nat, saveFreq: int, firstStep: int, total: nat, threshold: int) {
    predicate Valid() {
      miniBatch >= 1 && updates >= 1 && threshold >= 2
    }

    function Batch(): nat {
      Times(updates, miniBatch)
    }
  }

  datatype Phase = StepStart | Sampling(trigger: nat) | StepDone | AfterFitSave | Finished | Refused

  /** What a checkpoint restores; trained and evicted describe the history that the saved model has behind it. */
  datatype Checkpoint = Checkpoint(step: nat, position: nat, trained: multiset<Row>, evicted: multiset<Row>)

  datatype State = State(
    phase: Phase,
    step: nat,
    position: nat,                 // next dataloader row
    outstanding: map<Row, nat>,    // dispatched, unconsumed rows and the step of their dispatch
    prefetched: bool,
    trained: multiset<Row>,
    evicted: multiset<Row>,
    checkpoints: seq<Checkpoint>)

  // ---------------------------------------------------------------------
  // The patched methods as functions of the state.

  function Fresh(position: nat, count: nat): (rows: set<Row>)
    ensures forall r :: r in rows <==> position <= r < position + count
    ensures |rows| == count
  {
    if count == 0 then {} else Fresh(position, count - 1) + {position + count - 1}
  }

  /** The base add: `count` fresh rows, tagged with the current step. */
  function Dispatch(s: State, count: nat): State {
    s.(position := s.position + count,
       outstanding := s.outstanding + map r: nat | r in Fresh(s.position, count) :: s.step)
  }

  function AddBatch(cfg: Config, s: State): State {
    if s.prefetched then s.(prefetched := false) else Dispatch(s, cfg.Batch())
  }

  predicate Boundary(cfg: Config, step: nat) {
    || step >= cfg.total
    || (cfg.saveFreq > 0 && (Multiple(step, cfg.saveFreq) || step == cfg.firstStep))
  }

  function SampleEnd(cfg: Config, s: State, trigger: nat): State {
    if trigger == 0 && !Boundary(cfg, s.step) then Dispatch(s, cfg.Batch()).(prefetched := true) else s
  }

  function Save(s: State): State {
    if s.outstanding.Keys != {} || s.prefetched then s.(phase := Refused)
    else s.(checkpoints := s.checkpoints + [Checkpoint(s.step, s.position, s.trained, s.evicted)])
  }

  /** The regular and final saves of the training loop. */
  predicate FitSaves(cfg: Config, step: nat) {
    cfg.saveFreq > 0 && (Multiple(step, cfg.saveFreq) || step == cfg.total)
  }

  /** The early save of the patched step end. */
  predicate EarlySaves(cfg: Config, step: nat) {
    step == cfg.firstStep && step < cfg.total && cfg.saveFreq > 0 && !Multiple(step, cfg.saveFreq)
  }

  function Restart(cfg: Config, s: State): State {
    if |s.checkpoints| == 0 then
      State(if cfg.total >= 1 then StepStart else Finished, 1, 0, map[], false, multiset{}, multiset{}, [])
    else
      var c := s.checkpoints[|s.checkpoints| - 1];
      State(if c.step + 1 <= cfg.total then StepStart else Finished, c.step + 1, c.position, map[], false,
            c.trained, c.evicted, s.checkpoints)
  }

  function Initial(cfg: Config): State {
    State(if cfg.total >= 1 then StepStart else Finished, 1, 0, map[], false, multiset{}, multiset{}, [])
  }

  datatype Event = Begin | Evict(row: Row) | Sample(rows: set<Row>) | FitSave | StepEnd | Crash

  predicate Enabled(cfg: Config, s: State, e: Event) {
    match e
    case Begin => s.phase.StepStart?
    case Evict(row) => s.phase.Sampling? && row in s.outstanding
    case Sample(rows) => s.phase.Sampling? && rows <= s.outstanding.Keys && |rows| == cfg.miniBatch
    case FitSave => s.phase.StepDone?
    case StepEnd => s.phase.AfterFitSave?
    case Crash => true
  }

  function Evicted(s: State, row: Row): State {
    Dispatch(s.(outstanding := s.outstanding - {row}, evicted := s.evicted + multiset{row}), 1)
  }

  function Sampled(cfg: Config, s: State, rows: set<Row>): State
    requires s.phase.Sampling?
  {
    var k := s.phase.trigger;
    var consumed := s.(outstanding := s.outstanding - rows, trained := s.trained + multiset(rows));
    SampleEnd(cfg, consumed, k).(phase := if k + 1 >= cfg.updates then StepDone else Sampling(k + 1))
  }

  function AfterFit(cfg: Config, s: State): State {
    var saved := if FitSaves(cfg, s.step) then Save(s) else s;
    if saved.phase.Refused? then saved else saved.(phase := AfterFitSave)
  }

  function NextStep(cfg: Config, s: State): State {
    var saved := if EarlySaves(cfg, s.step) then Save(s) else s;
    if saved.phase.Refused? then saved
    else saved.(step := s.step + 1, phase := if s.step + 1 <= cfg.total then StepStart else Finished)
  }

  function Apply(cfg: Config, s: State, e: Event): State
    requires Enabled(cfg, s, e)
  {
    match e
    case Begin => AddBatch(cfg, s).(phase := Sampling(0))
    case Evict(row) => Evicted(s, row)
    case Sample(rows) => Sampled(cfg, s, rows)
    case FitSave => AfterFit(cfg, s)
    case StepEnd => NextStep(cfg, s)
    case Crash => Restart(cfg, s)
  }

  /** The state after a run, if every event of it was possible when it happened. */
  function Run(cfg: Config, s: State, events: seq<Event>): Option<State>
    decreases |events|
  {
    if |events| == 0 then Some(s)
    else if !Enabled(cfg, s, events[0]) then None
    else Run(cfg, Apply(cfg, s, events[0]), events[1..])
  }

  // ---------------------------------------------------------------------
  // Invariants.

  /** Every dataloader row so far is in exactly one place: trained, evicted or outstanding. */
  ghost predicate Conserved(position: nat, outstanding: set<Row>, trained: multiset<Row>, evicted: multiset<Row>) {
    forall r: nat ::
      trained[r] + evicted[r] + (if r in outstanding then 1 else 0) == if r < position then 1 else 0
  }

  /** A checkpoint has nothing in flight: each row below its position was trained or evicted, exactly once. */
  ghost predicate Exact(cfg: Config, c: Checkpoint) {
    && Conserved(c.position, {}, c.trained, c.evicted)
    && |c.trained| == Times(c.step, cfg.Batch())
  }

  predicate Due(cfg: Config, step: nat) {
    cfg.saveFreq > 0 && 1 <= step <= cfg.total
    && (Multiple(step, cfg.saveFreq) || step == cfg.total || step == cfg.firstStep)
  }

  /** The due steps up to n, in order. */
  function DueSteps(cfg: Config, n: nat): seq<nat> {
    if n == 0 then [] else DueSteps(cfg, n - 1) + if Due(cfg, n) then [n] else []
  }

  function SavedSteps(checkpoints: seq<Checkpoint>): (steps: seq<nat>)
    ensures |steps| == |checkpoints|
  {
    seq(|checkpoints|, i requires 0 <= i < |checkpoints| => checkpoints[i].step)
  }

  /** Each checkpoint continues the one before it: nothing trained or evicted is forgotten. */
  ghost predicate Lineage(checkpoints: seq<Checkpoint>) {
    forall i, j :: 0 <= i < j < |checkpoints| ==>
      && checkpoints[i].trained <= checkpoints[j].trained && checkpoints[i].evicted <= checkpoints[j].evicted
      && checkpoints[i].position <= checkpoints[j].position
  }

  ghost predicate ContinuesLast(s: State) {
    |s.checkpoints| > 0 ==>
      var c := s.checkpoints[|s.checkpoints| - 1];
      c.trained <= s.trained && c.evicted <= s.evicted && c.position <= s.position
  }

  /** The rows of the current batch that the remaining samples of the step will take. */
  function Remaining(cfg: Config, samples: nat): nat {
    if samples <= cfg.updates then Times(cfg.updates - samples, cfg.miniBatch) else 0
  }

  /** Queue size, flag and training count in each phase. */
  ghost predicate PhaseInv(cfg: Config, s: State)
    requires s.step >= 1
  {
    var size := |s.outstanding.Keys|;
    var ahead := if s.prefetched then cfg.Batch() else 0;
    match s.phase
    case StepStart => s.step <= cfg.total && size == ahead && |s.trained| == Times(s.step - 1, cfg.Batch())
    case Sampling(k) =>
      && s.step <= cfg.total && k < cfg.updates
      && s.prefetched == (k > 0 && !Boundary(cfg, s.step))
      && size == Remaining(cfg, k) + ahead
      && |s.trained| == Times(s.step - 1, cfg.Batch()) + Times(k, cfg.miniBatch)
    case StepDone =>
      && s.step <= cfg.total && s.prefetched == !Boundary(cfg, s.step)
      && size == ahead && |s.trained| == Times(s.step, cfg.Batch())
    case AfterFitSave =>
      && s.step <= cfg.total && s.prefetched == !Boundary(cfg, s.step)
      && size == ahead && |s.trained| == Times(s.step, cfg.Batch())
    case Finished =>
      s.step == cfg.total + 1 && size == 0 && !s.prefetched && |s.trained| == Times(s.step - 1, cfg.Batch())
    case Refused => false
  }

  /** The steps whose save lies behind the current phase. */
  function SavedSoFar(cfg: Config, s: State): seq<nat>
    requires s.step >= 1
  {
    DueSteps(cfg, s.step - 1) + if s.phase.AfterFitSave? && FitSaves(cfg, s.step) then [s.step] else []
  }

  /** A row survives the end of a step only if that step did not drain. */
  ghost predicate TagsInv(cfg: Config, s: State) {
    forall r :: r in s.outstanding ==>
      && 1 <= s.outstanding[r] <= s.step
      && (forall j: nat :: s.outstanding[r] <= j < s.step ==> !Boundary(cfg, j))
      && (cfg.updates == 1
          ==> s.step <= s.outstanding[r] + (if s.phase.StepDone? || s.phase.AfterFitSave? then 0 else 1))
      && (s.phase.StepStart? ==> s.outstanding[r] < s.step)
  }

  ghost predicate QueueInv(cfg: Config, s: State) {
    && s.step >= 1
    && Conserved(s.position, s.outstanding.Keys, s.trained, s.evicted)
    && PhaseInv(cfg, s)
  }

  ghost predicate HistoryInv(cfg: Config, s: State) {
    && s.step >= 1
    && (forall c :: c in s.checkpoints ==> Exact(cfg, c))
    && SavedSteps(s.checkpoints) == SavedSoFar(cfg, s)
    && Lineage(s.checkpoints) && ContinuesLast(s)
  }

  ghost predicate Inv(cfg: Config, s: State) {
    QueueInv(cfg, s) && TagsInv(cfg, s) && HistoryInv(cfg, s)
  }

  // ---------------------------------------------------------------------
  // Every event keeps the invariant.

  lemma FreshRowsAreNew(s: State, count: nat)
    requires Conserved(s.position, s.outstanding.Keys, s.trained, s.evicted)
    ensures s.outstanding.Keys !! Fresh(s.position, count)
  {
    forall r | r in s.outstanding.Keys
      ensures r < s.position
    {
      assert s.trained[r] + s.evicted[r] + 1 == if r < s.position then 1 else 0;
    }
  }

  lemma DispatchQueue(s: State, count: nat)
    requires s.outstanding.Keys !! Fresh(s.position, count)
    ensures var t := Dispatch(s, count);
            && t.outstanding.Keys == s.outstanding.Keys + Fresh(s.position, count)
            && |t.outstanding.Keys| == |s.outstanding.Keys| + count
            && (forall r :: r in t.outstanding ==>
                  t.outstanding[r] == if r in s.outstanding then s.outstanding[r] else s.step)
  {
    var t := Dispatch(s, count);
    assert t.outstanding.Keys == s.outstanding.Keys + Fresh(s.position, count);
  }

  lemma ConservedByDispatch(position: nat, count: nat, out: set<Row>, trained: multiset<Row>, evicted: multiset<Row>)
    requires Conserved(position, out, trained, evicted)
    ensures Conserved(position + count, out + Fresh(position, count), trained, evicted)
  {
    forall r: nat
      ensures trained[r] + evicted[r] + (if r in out + Fresh(position, count) then 1 else 0)
           == if r < position + count then 1 else 0
    {
      assert trained[r] + evicted[r] + (if r in out then 1 else 0) == if r < position then 1 else 0;
    }
  }

  lemma DispatchFacts(s: State, count: nat)
    requires Conserved(s.position, s.outstanding.Keys, s.trained, s.evicted)
    ensures var t := Dispatch(s, count);
            && Conserved(t.position, t.outstanding.Keys, t.trained, t.evicted)
            && t.outstanding.Keys == s.outstanding.Keys + Fresh(s.position, count)
            && |t.outstanding.Keys| == |s.outstanding.Keys| + count
            && (forall r :: r in t.outstanding ==>
                  t.outstanding[r] == if r in s.outstanding then s.outstanding[r] else s.step)
  {
    FreshRowsAreNew(s, count);
    DispatchQueue(s, count);
    ConservedByDispatch(s.position, count, s.outstanding.Keys, s.trained, s.evicted);
  }

  lemma TakeFacts(s: State, rows: set<Row>)
    requires Conserved(s.position, s.outstanding.Keys, s.trained, s.evicted) && rows <= s.outstanding.Keys
    ensures var out := s.outstanding - rows;
            && Conserved(s.position, out.Keys, s.trained + multiset(rows), s.evicted)
            && Conserved(s.position, out.Keys, s.trained, s.evicted + multiset(rows))
            && |out.Keys| == |s.outstanding.Keys| - |rows|
  {
    var out := s.outstanding - rows;
    assert out.Keys == s.outstanding.Keys - rows;
    forall r: nat
      ensures s.trained[r] + multiset(rows)[r] + s.evicted[r] + (if r in out.Keys then 1 else 0)
           == if r < s.position then 1 else 0
    {
      assert s.trained[r] + s.evicted[r] + (if r in s.outstanding.Keys then 1 else 0)
          == if r < s.position then 1 else 0;
    }
  }

  lemma TimesNext(n: nat, size: nat)
    ensures Times(n + 1, size) == Times(n, size) + size
  {
  }

  ghost predicate TagsFrom(s: State, t: State) {
    forall r :: r in t.outstanding ==>
      (r in s.outstanding && t.outstanding[r] == s.outstanding[r]) || t.outstanding[r] == s.step
  }

  lemma TagsKept(cfg: Config, s: State, t: State)
    requires s.step >= 1 && TagsInv(cfg, s) && t.step == s.step && TagsFrom(s, t)
    requires s.phase.StepStart? || s.phase.Sampling?
    requires t.phase.Sampling? || t.phase.StepDone?
    requires t.phase.StepDone? && cfg.updates == 1 ==> forall r :: r in t.outstanding ==> t.outstanding[r] == s.step
    ensures TagsInv(cfg, t)
  {
  }

  lemma HistoryKept(cfg: Config, s: State, t: State)
    requires HistoryInv(cfg, s) && t.step == s.step && t.checkpoints == s.checkpoints
    requires !s.phase.AfterFitSave? && !t.phase.AfterFitSave?
    requires s.trained <= t.trained && s.evicted <= t.evicted && s.position <= t.position
    ensures HistoryInv(cfg, t)
  {
    hide Conserved, Lineage, Exact, Multiple;
  }

  lemma StartSize(cfg: Config, s: State)
    requires s.step >= 1 && PhaseInv(cfg, s) && s.phase.StepStart?
    ensures s.step <= cfg.total && |s.trained| == Times(s.step - 1, cfg.Batch())
    ensures |s.outstanding.Keys| == if s.prefetched then cfg.Batch() else 0
  {
  }

  lemma FirstSamplePhase(cfg: Config, t: State)
    requires cfg.Valid() && 1 <= t.step <= cfg.total && t.phase == Sampling(0) && !t.prefetched
    requires |t.outstanding.Keys| == cfg.Batch() && |t.trained| == Times(t.step - 1, cfg.Batch())
    ensures PhaseInv(cfg, t)
  {
  }

  /** The batch that the step before dispatched is taken over. */
  lemma BeginAdopts(cfg: Config, s: State)
    requires cfg.Valid() && QueueInv(cfg, s) && s.phase.StepStart? && s.prefetched
    ensures var t := s.(prefetched := false, phase := Sampling(0)); QueueInv(cfg, t) && TagsFrom(s, t)
  {
    hide Conserved, PhaseInv, Times;
    StartSize(cfg, s);
    FirstSamplePhase(cfg, s.(prefetched := false, phase := Sampling(0)));
  }

  lemma DispatchTags(s: State, count: nat, phase: Phase)
    requires s.outstanding.Keys !! Fresh(s.position, count)
    ensures TagsFrom(s, Dispatch(s, count).(phase := phase))
  {
    hide Dispatch, Fresh;
    DispatchQueue(s, count);
  }

  lemma DispatchCounts(s: State, count: nat)
    requires Conserved(s.position, s.outstanding.Keys, s.trained, s.evicted)
    ensures var t := Dispatch(s, count);
            && Conserved(t.position, t.outstanding.Keys, t.trained, t.evicted)
            && |t.outstanding.Keys| == |s.outstanding.Keys| + count
  {
    hide Dispatch, Conserved;
    DispatchFacts(s, count);
  }

  lemma BeginDispatches(cfg: Config, s: State)
    requires cfg.Valid() && QueueInv(cfg, s) && s.phase.StepStart? && !s.prefetched
    ensures var t := Dispatch(s, cfg.Batch()).(phase := Sampling(0)); QueueInv(cfg, t) && TagsFrom(s, t)
  {
    hide Dispatch, Conserved, PhaseInv, Times, Fresh, TagsFrom;
    StartSize(cfg, s);
    FreshRowsAreNew(s, cfg.Batch());
    DispatchTags(s, cfg.Batch(), Sampling(0));
    DispatchCounts(s, cfg.Batch());
    DispatchSame(s, cfg.Batch());
    FirstSamplePhase(cfg, Dispatch(s, cfg.Batch()).(phase := Sampling(0)));
  }

  lemma BeginKeepsQueue(cfg: Config, s: State)
    requires cfg.Valid() && QueueInv(cfg, s) && Enabled(cfg, s, Begin)
    ensures QueueInv(cfg, Apply(cfg, s, Begin)) && TagsFrom(s, Apply(cfg, s, Begin))
  {
    hide Dispatch, QueueInv, TagsFrom;
    if s.prefetched {
      BeginAdopts(cfg, s);
    } else {
      BeginDispatches(cfg, s);
    }
  }

  lemma DispatchSame(s: State, count: nat)
    ensures var t := Dispatch(s, count);
            && t.step == s.step && t.phase == s.phase && t.prefetched == s.prefetched && t.trained == s.trained
            && t.evicted == s.evicted && t.position == s.position + count && t.checkpoints == s.checkpoints
  {
  }

  lemma BeginKeepsInv(cfg: Config, s: State)
    requires cfg.Valid() && Inv(cfg, s) && Enabled(cfg, s, Begin)
    ensures Inv(cfg, Apply(cfg, s, Begin))
  {
    hide Conserved, Lineage, ContinuesLast, TagsInv, PhaseInv, HistoryInv, TagsFrom;
    BeginKeepsQueue(cfg, s);
    TagsKept(cfg, s, Apply(cfg, s, Begin));
    HistoryKept(cfg, s, Apply(cfg, s, Begin));
  }

  lemma EvictEffect(s: State, row: Row)
    requires Conserved(s.position, s.outstanding.Keys, s.trained, s.evicted) && row in s.outstanding
    ensures var t := Evicted(s, row);
            && Conserved(t.position, t.outstanding.Keys, t.trained, t.evicted) && TagsFrom(s, t)
            && |t.outstanding.Keys| == |s.outstanding.Keys|
            && row !in t.outstanding
            && t.outstanding.Keys == s.outstanding.Keys - {row} + Fresh(s.position, 1)
  {
    hide Dispatch, Conserved;
    OutstandingBelow(s, row);
    TakeFacts(s, {row});
    var taken := s.(outstanding := s.outstanding - {row}, evicted := s.evicted + multiset{row});
    assert multiset({row}) == multiset{row};
    DispatchFacts(taken, 1);
    DispatchSame(taken, 1);
  }

  lemma OutstandingBelow(s: State, row: Row)
    requires Conserved(s.position, s.outstanding.Keys, s.trained, s.evicted) && row in s.outstanding
    ensures row < s.position
  {
    assert s.trained[row] + s.evicted[row] + 1 == if row < s.position then 1 else 0;
  }

  lemma EvictKeepsQueue(cfg: Config, s: State, row: Row)
    requires cfg.Valid() && QueueInv(cfg, s) && Enabled(cfg, s, Evict(row))
    ensures QueueInv(cfg, Apply(cfg, s, Evict(row))) && TagsFrom(s, Apply(cfg, s, Evict(row)))
  {
    hide Conserved;
    EvictEffect(s, row);
  }

  lemma EvictKeepsInv(cfg: Config, s: State, row: Row)
    requires cfg.Valid() && Inv(cfg, s) && Enabled(cfg, s, Evict(row))
    ensures Inv(cfg, Apply(cfg, s, Evict(row)))
  {
    hide Conserved, Lineage, ContinuesLast, TagsInv, PhaseInv, HistoryInv, TagsFrom;
    EvictKeepsQueue(cfg, s, row);
    TagsKept(cfg, s, Apply(cfg, s, Evict(row)));
    HistoryKept(cfg, s, Apply(cfg, s, Evict(row)));
  }

  /** What one sample and the hook behind it do to the queue. */
  lemma SampleEffect(cfg: Config, s: State, rows: set<Row>)
    requires Conserved(s.position, s.outstanding.Keys, s.trained, s.evicted) && Enabled(cfg, s, Sample(rows))
    ensures var t := Apply(cfg, s, Sample(rows));
            var ahead := s.phase.trigger == 0 && !Boundary(cfg, s.step);
            && Conserved(t.position, t.outstanding.Keys, t.trained, t.evicted) && TagsFrom(s, t)
            && |t.trained| == |s.trained| + cfg.miniBatch
            && |t.outstanding.Keys| == |s.outstanding.Keys| - cfg.miniBatch + (if ahead then cfg.Batch() else 0)
            && (|s.outstanding.Keys| == cfg.miniBatch ==> forall r :: r in t.outstanding ==> t.outstanding[r] == s.step)
  {
    TakeFacts(s, rows);
    var consumed := s.(outstanding := s.outstanding - rows, trained := s.trained + multiset(rows));
    if s.phase.trigger == 0 && !Boundary(cfg, s.step) {
      DispatchFacts(consumed, cfg.Batch());
    }
    if |s.outstanding.Keys| == cfg.miniBatch {
      assert |consumed.outstanding.Keys| == 0;
    }
  }

  lemma PhaseAfterSample(cfg: Config, s: State, t: State, k: nat)
    requires cfg.Valid() && s.step >= 1 && s.phase == Sampling(k) && PhaseInv(cfg, s)
    requires t.step == s.step && t.phase == if k + 1 >= cfg.updates then StepDone else Sampling(k + 1)
    requires t.prefetched == (s.prefetched || (k == 0 && !Boundary(cfg, s.step)))
    requires |t.trained| == |s.trained| + cfg.miniBatch
    requires |t.outstanding.Keys| == |s.outstanding.Keys| - cfg.miniBatch
                                     + (if k == 0 && !Boundary(cfg, s.step) then cfg.Batch() else 0)
    ensures PhaseInv(cfg, t)
  {
    TimesNext(k, cfg.miniBatch);
    TimesNext(cfg.updates - k - 1, cfg.miniBatch);
    TimesNext(s.step - 1, cfg.Batch());
  }

  lemma OneSampleTakesAll(cfg: Config, s: State)
    requires cfg.Valid() && s.step >= 1 && s.phase.Sampling? && PhaseInv(cfg, s) && cfg.updates == 1
    ensures |s.outstanding.Keys| == cfg.miniBatch
  {
    TimesNext(0, cfg.miniBatch);
  }

  lemma SampleKeepsQueue(cfg: Config, s: State, rows: set<Row>)
    requires cfg.Valid() && QueueInv(cfg, s) && Enabled(cfg, s, Sample(rows))
    ensures var t := Apply(cfg, s, Sample(rows));
            && QueueInv(cfg, t) && TagsFrom(s, t)
            && (cfg.updates == 1 ==> forall r :: r in t.outstanding ==> t.outstanding[r] == s.step)
  {
    hide Conserved, TagsFrom;
    SampleEffect(cfg, s, rows);
    PhaseAfterSample(cfg, s, Apply(cfg, s, Sample(rows)), s.phase.trigger);
    if cfg.updates == 1 {
      OneSampleTakesAll(cfg, s);
    }
  }

  lemma SampleKeepsInv(cfg: Config, s: State, rows: set<Row>)
    requires cfg.Valid() && Inv(cfg, s) && Enabled(cfg, s, Sample(rows))
    ensures Inv(cfg, Apply(cfg, s, Sample(rows)))
  {
    hide Conserved, Lineage, ContinuesLast, TagsInv, PhaseInv, HistoryInv, TagsFrom;
    SampleKeepsQueue(cfg, s, rows);
    TagsKept(cfg, s, Apply(cfg, s, Sample(rows)));
    HistoryKept(cfg, s, Apply(cfg, s, Sample(rows)));
  }

  // ---------------------------------------------------------------------
  // Saving.

  lemma SaveKeepsHistory(cfg: Config, s: State)
    requires QueueInv(cfg, s) && (forall c :: c in s.checkpoints ==> Exact(cfg, c))
    requires Lineage(s.checkpoints) && ContinuesLast(s)
    requires |s.outstanding.Keys| == 0 && !s.prefetched && |s.trained| == Times(s.step, cfg.Batch())
    ensures var t := Save(s);
            && t == s.(checkpoints := t.checkpoints)
            && SavedSteps(t.checkpoints) == SavedSteps(s.checkpoints) + [s.step]
            && (forall c :: c in t.checkpoints ==> Exact(cfg, c))
            && Lineage(t.checkpoints) && ContinuesLast(t)
  {
    var c := Checkpoint(s.step, s.position, s.trained, s.evicted);
    assert Conserved(c.position, {}, c.trained, c.evicted);
    assert s.outstanding.Keys == {};
    LineageGrows(s, c);
  }

  lemma LineageGrows(s: State, c: Checkpoint)
    requires Lineage(s.checkpoints) && ContinuesLast(s)
    requires c.trained == s.trained && c.evicted == s.evicted && c.position == s.position
    ensures Lineage(s.checkpoints + [c])
  {
    var cs := s.checkpoints + [c];
    forall i, j | 0 <= i < j < |cs|
      ensures cs[i].trained <= cs[j].trained && cs[i].evicted <= cs[j].evicted && cs[i].position <= cs[j].position
    {
      if j == |s.checkpoints| {
        var last := s.checkpoints[j - 1];
        assert last.trained <= s.trained && last.evicted <= s.evicted && last.position <= s.position;
        if i < j - 1 {
          assert s.checkpoints[i].trained <= last.trained && s.checkpoints[i].evicted <= last.evicted;
        }
      }
    }
  }

  lemma DueIsSaved(cfg: Config, step: nat)
    requires 1 <= step <= cfg.total
    ensures Due(cfg, step) <==> FitSaves(cfg, step) || EarlySaves(cfg, step)
    ensures !(FitSaves(cfg, step) && EarlySaves(cfg, step))
    ensures Due(cfg, step) ==> Boundary(cfg, step)
  {
  }

  /** The due steps grow by the regular or the early save of the step, never by both. */
  lemma DueStepsNext(cfg: Config, step: nat)
    requires 1 <= step <= cfg.total
    ensures DueSteps(cfg, step) == DueSteps(cfg, step - 1) + (if FitSaves(cfg, step) then [step] else [])
                                   + (if EarlySaves(cfg, step) then [step] else [])
  {
    DueIsSaved(cfg, step);
  }

  /** Everything the history says except which steps were saved. */
  ghost predicate CheckpointsInv(cfg: Config, s: State) {
    && (forall c :: c in s.checkpoints ==> Exact(cfg, c))
    && Lineage(s.checkpoints) && ContinuesLast(s)
  }

  lemma FitSaveEffect(cfg: Config, s: State)
    requires cfg.Valid() && QueueInv(cfg, s) && CheckpointsInv(cfg, s) && s.phase.StepDone?
    ensures var t := Apply(cfg, s, FitSave);
            && t == s.(checkpoints := t.checkpoints, phase := AfterFitSave)
            && SavedSteps(t.checkpoints)
               == SavedSteps(s.checkpoints) + (if FitSaves(cfg, s.step) then [s.step] else [])
            && CheckpointsInv(cfg, t)
  {
    hide Conserved, Multiple;
    if FitSaves(cfg, s.step) {
      DueIsSaved(cfg, s.step);
      SaveKeepsHistory(cfg, s);
    }
  }

  lemma FitSaveKeepsInv(cfg: Config, s: State)
    requires cfg.Valid() && Inv(cfg, s) && Enabled(cfg, s, FitSave)
    ensures Inv(cfg, Apply(cfg, s, FitSave))
  {
    hide Conserved, Lineage, Exact, ContinuesLast, Multiple;
    FitSaveEffect(cfg, s);
    SavedBehind(cfg, s);
  }

  lemma EarlySaveEffect(cfg: Config, s: State)
    requires cfg.Valid() && QueueInv(cfg, s) && CheckpointsInv(cfg, s) && s.phase.AfterFitSave?
    ensures var saved := if EarlySaves(cfg, s.step) then Save(s) else s;
            && saved == s.(checkpoints := saved.checkpoints)
            && SavedSteps(saved.checkpoints)
               == SavedSteps(s.checkpoints) + (if EarlySaves(cfg, s.step) then [s.step] else [])
            && CheckpointsInv(cfg, saved)
  {
    hide Conserved, Multiple;
    if EarlySaves(cfg, s.step) {
      DueIsSaved(cfg, s.step);
      SaveKeepsHistory(cfg, s);
    }
  }

  lemma HistoryAfterStep(cfg: Config, saved: State, t: State)
    requires CheckpointsInv(cfg, saved) && saved.step >= 1
    requires SavedSteps(saved.checkpoints) == DueSteps(cfg, saved.step) + []
    requires t == saved.(step := saved.step + 1, phase := t.phase) && !t.phase.AfterFitSave?
    ensures HistoryInv(cfg, t)
  {
    hide Conserved, Exact, Lineage;
    assert t.step - 1 == saved.step;
  }

  lemma StepEndKeepsHistory(cfg: Config, s: State)
    requires cfg.Valid() && QueueInv(cfg, s) && HistoryInv(cfg, s) && Enabled(cfg, s, StepEnd)
    ensures var t := Apply(cfg, s, StepEnd);
            && t == s.(checkpoints := t.checkpoints, step := s.step + 1, phase := t.phase)
            && (t.phase.StepStart? || t.phase.Finished?) && (t.phase.StepStart? <==> t.step <= cfg.total)
            && HistoryInv(cfg, t)
  {
    hide Conserved, Lineage, Exact, ContinuesLast, Multiple;
    EarlySaveEffect(cfg, s);
    SavedByStepEnd(cfg, s);
    HistoryAfterStep(cfg, if EarlySaves(cfg, s.step) then Save(s) else s, Apply(cfg, s, StepEnd));
  }

  lemma SavedByStepEnd(cfg: Config, s: State)
    requires QueueInv(cfg, s) && HistoryInv(cfg, s) && s.phase.AfterFitSave?
    ensures SavedSteps(s.checkpoints) + (if EarlySaves(cfg, s.step) then [s.step] else [])
         == DueSteps(cfg, s.step) + []
  {
    hide Conserved, Lineage, Exact, ContinuesLast, Multiple;
    DueStepsNext(cfg, s.step);
  }

  lemma StepEndKeepsTags(cfg: Config, s: State, t: State)
    requires cfg.Valid() && QueueInv(cfg, s) && TagsInv(cfg, s) && s.phase.AfterFitSave?
    requires t.outstanding == s.outstanding && t.step == s.step + 1 && (t.phase.StepStart? || t.phase.Finished?)
    ensures TagsInv(cfg, t)
  {
    forall r, j: nat | r in t.outstanding && t.outstanding[r] <= j < t.step
      ensures !Boundary(cfg, j)
    {
      if j == s.step {
        assert r in s.outstanding.Keys;
      }
    }
  }

  lemma StepEndKeepsInv(cfg: Config, s: State)
    requires cfg.Valid() && Inv(cfg, s) && Enabled(cfg, s, StepEnd)
    ensures Inv(cfg, Apply(cfg, s, StepEnd))
  {
    hide Conserved, Lineage, Exact, ContinuesLast, Multiple, HistoryInv, TagsInv;
    StepEndKeepsHistory(cfg, s);
    StepEndKeepsTags(cfg, s, Apply(cfg, s, StepEnd));
  }

  // ---------------------------------------------------------------------
  // Crashing.

  lemma {:induction false} LastDue(cfg: Config, n: nat)
    ensures forall i :: 0 <= i < |DueSteps(cfg, n)| ==> 1 <= DueSteps(cfg, n)[i] <= n && Due(cfg, DueSteps(cfg, n)[i])
    ensures |DueSteps(cfg, n)| > 0 ==> DueSteps(cfg, DueSteps(cfg, n)[|DueSteps(cfg, n)| - 1]) == DueSteps(cfg, n)
  {
    if n > 0 {
      LastDue(cfg, n - 1);
    }
  }

  /** The latest checkpoint is the last due step, so nothing due lies between it and the crash. */
  lemma LatestCheckpoint(cfg: Config, s: State)
    requires HistoryInv(cfg, s) && QueueInv(cfg, s) && |s.checkpoints| > 0
    ensures var c := s.checkpoints[|s.checkpoints| - 1];
            SavedSteps(s.checkpoints) == DueSteps(cfg, c.step) && 1 <= c.step <= cfg.total
  {
    var n := SavedThrough(cfg, s);
    LastDue(cfg, n);
    assert SavedSteps(s.checkpoints)[|s.checkpoints| - 1] == s.checkpoints[|s.checkpoints| - 1].step;
  }

  lemma SavedThrough(cfg: Config, s: State) returns (n: nat)
    requires HistoryInv(cfg, s) && QueueInv(cfg, s)
    ensures s.step - 1 <= n <= cfg.total && SavedSteps(s.checkpoints) == DueSteps(cfg, n)
  {
    hide Conserved, Lineage, Exact;
    if s.phase.AfterFitSave? && FitSaves(cfg, s.step) {
      DueIsSaved(cfg, s.step);
      n := s.step;
    } else {
      assert DueSteps(cfg, s.step - 1) + [] == DueSteps(cfg, s.step - 1);
      n := s.step - 1;
    }
  }

  lemma CrashKeepsInv(cfg: Config, s: State)
    requires cfg.Valid() && QueueInv(cfg, s) && HistoryInv(cfg, s)
    ensures Inv(cfg, Restart(cfg, s))
  {
    hide Lineage, Multiple, Conserved, Boundary, Due;
    if |s.checkpoints| > 0 {
      var c := s.checkpoints[|s.checkpoints| - 1];
      assert c in s.checkpoints && Exact(cfg, c);
      LatestCheckpoint(cfg, s);
      RestartHistory(cfg, s);
      assert Restart(cfg, s).outstanding.Keys == {};
    } else {
      InitialInv(cfg);
    }
  }

  lemma RestartHistory(cfg: Config, s: State)
    requires HistoryInv(cfg, s) && |s.checkpoints| > 0
    requires SavedSteps(s.checkpoints) == DueSteps(cfg, s.checkpoints[|s.checkpoints| - 1].step)
    ensures HistoryInv(cfg, Restart(cfg, s))
  {
    hide Lineage, Multiple, Conserved, Exact;
    var t := Restart(cfg, s);
    assert SavedSoFar(cfg, t) == DueSteps(cfg, t.step - 1) + [] == DueSteps(cfg, t.step - 1);
  }

  lemma StepKeepsInv(cfg: Config, s: State, e: Event)
    requires cfg.Valid() && Inv(cfg, s) && Enabled(cfg, s, e)
    ensures Inv(cfg, Apply(cfg, s, e))
  {
    match e
    case Begin => BeginKeepsInv(cfg, s);
    case Evict(row) => EvictKeepsInv(cfg, s, row);
    case Sample(rows) => SampleKeepsInv(cfg, s, rows);
    case FitSave => FitSaveKeepsInv(cfg, s);
    case StepEnd => StepEndKeepsInv(cfg, s);
    case Crash => CrashKeepsInv(cfg, s);
  }

  lemma InitialInv(cfg: Config)
    requires cfg.Valid()
    ensures Inv(cfg, Initial(cfg))
  {
  }

  lemma {:induction false} RunKeepsInv(cfg: Config, s: State, events: seq<Event>)
    requires cfg.Valid() && Inv(cfg, s) && Run(cfg, s, events).Some?
    ensures Inv(cfg, Run(cfg, s, events).value)
    decreases |events|
  {
    if |events| > 0 {
      StepKeepsInv(cfg, s, events[0]);
      RunKeepsInv(cfg, Apply(cfg, s, events[0]), events[1..]);
    }
  }

  // ---------------------------------------------------------------------
  // Main results, over every run with any sampler choices, evictions and crashes.

  ghost predicate Reachable(cfg: Config, s: State) {
    exists events :: Run(cfg, Initial(cfg), events) == Some(s)
  }

  lemma ReachableInv(cfg: Config, s: State)
    requires cfg.Valid() && Reachable(cfg, s)
    ensures Inv(cfg, s)
  {
    var events :| Run(cfg, Initial(cfg), events) == Some(s);
    InitialInv(cfg);
    RunKeepsInv(cfg, Initial(cfg), events);
  }

  lemma BoundaryIsModulo(cfg: Config, step: nat)
    ensures Boundary(cfg, step)
            <==> step >= cfg.total || (cfg.saveFreq > 0 && (step % cfg.saveFreq == 0 || step == cfg.firstStep))
  {
    if cfg.saveFreq > 0 {
      MultipleIsModulo(step, cfg.saveFreq);
    }
  }

  lemma DueIsModulo(cfg: Config, step: nat)
    ensures Due(cfg, step)
            <==> 1 <= step <= cfg.total && cfg.saveFreq > 0
                 && (step % cfg.saveFreq == 0 || step == cfg.total || step == cfg.firstStep)
  {
    if cfg.saveFreq > 0 {
      MultipleIsModulo(step, cfg.saveFreq);
    }
  }

  /**
   * At the end of a step exactly one batch is in flight, and the flag is set,
   * unless the step is the last, a regular save or the early one; then nothing is.
   */
  lemma LooksAheadExactly(cfg: Config, s: State)
    requires cfg.Valid() && Reachable(cfg, s) && s.phase.StepDone?
    ensures s.prefetched
            <==> s.step < cfg.total
                 && (cfg.saveFreq <= 0 || (s.step % cfg.saveFreq != 0 && s.step != cfg.firstStep))
    ensures |s.outstanding.Keys| == if s.prefetched then cfg.updates * cfg.miniBatch else 0
  {
    ReachableInv(cfg, s);
    BoundaryIsModulo(cfg, s.step);
    TimesIsProduct(cfg.updates, cfg.miniBatch);
  }

  /** The refusal error is unreachable, and each step that saves has an empty queue and a clear flag. */
  lemma NoRefusal(cfg: Config, s: State)
    requires cfg.Valid() && Reachable(cfg, s)
    ensures !s.phase.Refused?
    ensures (s.phase.StepDone? || s.phase.AfterFitSave?) && cfg.saveFreq > 0
            && (s.step % cfg.saveFreq == 0 || s.step == cfg.total || s.step == cfg.firstStep)
            ==> s.outstanding == map[] && !s.prefetched
  {
    ReachableInv(cfg, s);
    BoundaryIsModulo(cfg, s.step);
  }

  lemma {:induction false} DueStepsMembers(cfg: Config, n: nat)
    ensures forall k: nat :: k in DueSteps(cfg, n) <==> k <= n && Due(cfg, k)
    ensures forall i, j :: 0 <= i < j < |DueSteps(cfg, n)| ==> DueSteps(cfg, n)[i] < DueSteps(cfg, n)[j]
  {
    hide Due;
    if n == 0 {
      DueIsModulo(cfg, 0);
    } else {
      DueStepsMembers(cfg, n - 1);
      var before := DueSteps(cfg, n - 1);
      assert forall i :: 0 <= i < |before| ==> before[i] in before;
    }
  }

  /**
   * Crashes and all, behind the current step exactly the multiples of the save
   * frequency, the last step and the early one have been saved, once each and in
   * order.
   */
  lemma SavedExactlyOnce(cfg: Config, s: State, n: nat)
    requires cfg.Valid() && Reachable(cfg, s) && !s.phase.AfterFitSave?
    ensures (exists i :: 0 <= i < |s.checkpoints| && s.checkpoints[i].step == n)
            <==> 1 <= n < s.step && cfg.saveFreq > 0
                 && (n % cfg.saveFreq == 0 || n == cfg.total || n == cfg.firstStep)
    ensures forall i, j :: 0 <= i < j < |s.checkpoints| ==> s.checkpoints[i].step < s.checkpoints[j].step
    ensures s.phase.Finished? ==> s.step == cfg.total + 1
  {
    hide Inv, Reachable;
    ReachableInv(cfg, s);
    SavedIsOrdered(cfg, s);
    SavedIsListed(s.checkpoints, n);
    SavedIsDue(cfg, s, n);
  }

  lemma SavedIsOrdered(cfg: Config, s: State)
    requires Inv(cfg, s) && !s.phase.AfterFitSave?
    ensures forall i, j :: 0 <= i < j < |s.checkpoints| ==> s.checkpoints[i].step < s.checkpoints[j].step
    ensures s.phase.Finished? ==> s.step == cfg.total + 1
  {
    hide Due, DueSteps, Conserved, Lineage, Exact, Boundary;
    SavedBehind(cfg, s);
    DueStepsMembers(cfg, s.step - 1);
    assert forall i :: 0 <= i < |s.checkpoints| ==> s.checkpoints[i].step == SavedSteps(s.checkpoints)[i];
  }

  lemma SavedIsDue(cfg: Config, s: State, n: nat)
    requires Inv(cfg, s) && !s.phase.AfterFitSave?
    ensures n in SavedSteps(s.checkpoints)
            <==> 1 <= n < s.step && cfg.saveFreq > 0
                 && (n % cfg.saveFreq == 0 || n == cfg.total || n == cfg.firstStep)
  {
    hide Due, DueSteps, Conserved, Lineage, Exact, Boundary, SavedSteps;
    SavedBehind(cfg, s);
    DueStepsMembers(cfg, s.step - 1);
    NothingDueSince(cfg, s);
    DueIsModulo(cfg, n);
  }

  lemma SavedIsListed(checkpoints: seq<Checkpoint>, n: nat)
    ensures (exists i :: 0 <= i < |checkpoints| && checkpoints[i].step == n) <==> n in SavedSteps(checkpoints)
  {
    if n in SavedSteps(checkpoints) {
      var i :| 0 <= i < |checkpoints| && SavedSteps(checkpoints)[i] == n;
      assert checkpoints[i].step == n;
    }
    if i :| 0 <= i < |checkpoints| && checkpoints[i].step == n {
      assert SavedSteps(checkpoints)[i] == n;
    }
  }

  lemma StepKeepsCheckpoints(cfg: Config, s: State, e: Event)
    requires Enabled(cfg, s, e)
    ensures s.checkpoints <= Apply(cfg, s, e).checkpoints
  {
    hide Boundary, Multiple, Fresh;
  }

  /** No run, crashes included, ever loses or changes a checkpoint. */
  lemma {:induction false} CheckpointsKept(cfg: Config, s: State, events: seq<Event>)
    requires Run(cfg, s, events).Some?
    ensures s.checkpoints <= Run(cfg, s, events).value.checkpoints
    decreases |events|
  {
    if |events| > 0 {
      StepKeepsCheckpoints(cfg, s, events[0]);
      CheckpointsKept(cfg, Apply(cfg, s, events[0]), events[1..]);
    }
  }

  lemma NothingDueSince(cfg: Config, s: State)
    requires HistoryInv(cfg, s) && QueueInv(cfg, s)
    ensures s.step <= cfg.total + 1
    ensures forall k: nat :: Restart(cfg, s).step <= k < s.step ==> !Due(cfg, k)
  {
    hide Conserved, Lineage, Exact, Due, DueSteps;
    var n := SavedThrough(cfg, s);
    var t := Restart(cfg, s);
    DueStepsMembers(cfg, n);
    if |s.checkpoints| > 0 {
      LatestCheckpoint(cfg, s);
      DueStepsMembers(cfg, t.step - 1);
    }
    assert forall k: nat :: k in DueSteps(cfg, n) ==> k < t.step;
  }

  /**
   * A crash goes back to the step behind the latest checkpoint with the model and
   * the dataloader as saved there and nothing in flight, and no step that saves
   * lies between.
   */
  lemma CrashResumes(cfg: Config, s: State, n: nat)
    requires cfg.Valid() && Reachable(cfg, s)
    ensures var t := Apply(cfg, s, Crash);
            && t.checkpoints == s.checkpoints && t.outstanding == map[] && !t.prefetched
            && (t.phase == if t.step <= cfg.total then StepStart else Finished)
            && (|s.checkpoints| == 0
                ==> t.step == 1 && t.position == 0 && t.trained == multiset{} && t.evicted == multiset{})
            && (|s.checkpoints| > 0
                ==> var c := s.checkpoints[|s.checkpoints| - 1];
                    && t.step == c.step + 1 && t.position == c.position
                    && t.trained == c.trained && t.evicted == c.evicted)
            && (t.step <= n < s.step && cfg.saveFreq > 0
                ==> n % cfg.saveFreq != 0 && n != cfg.total && n != cfg.firstStep)
  {
    hide Conserved, Exact, Lineage, Due, DueSteps, Boundary, Reachable;
    ReachableInv(cfg, s);
    NothingDueSince(cfg, s);
    DueIsModulo(cfg, n);
  }


  lemma SavedBehind(cfg: Config, s: State)
    requires HistoryInv(cfg, s) && !s.phase.AfterFitSave?
    ensures SavedSteps(s.checkpoints) == DueSteps(cfg, s.step - 1)
  {
    assert DueSteps(cfg, s.step - 1) + [] == DueSteps(cfg, s.step - 1);
  }

  lemma PrefixSize(position: nat, trained: multiset<Row>, evicted: multiset<Row>)
    requires Conserved(position, {}, trained, evicted)
    ensures |trained| + |evicted| == position
  {
    var all := Fresh(0, position);
    assert trained + evicted == multiset(all);
    assert |trained + evicted| == |multiset(all)|;
  }

  /**
   * The rows trained along a checkpoint's lineage plus the evicted ones are
   * exactly the dataloader prefix at that save, each row once: none skipped,
   * none repeated. The trained ones are whole batches.
   */
  lemma CheckpointsExact(cfg: Config, s: State, i: nat)
    requires cfg.Valid() && Reachable(cfg, s) && i < |s.checkpoints|
    ensures var c := s.checkpoints[i];
            && (forall r: nat :: c.trained[r] + c.evicted[r] == if r < c.position then 1 else 0)
            && |c.trained| == c.step * cfg.Batch()
            && c.position == c.step * cfg.Batch() + |c.evicted|
            && (i > 0 ==> s.checkpoints[i - 1].trained <= c.trained && s.checkpoints[i - 1].evicted <= c.evicted)
  {
    ReachableInv(cfg, s);
    var c := s.checkpoints[i];
    assert c in s.checkpoints && Exact(cfg, c);
    TimesIsProduct(c.step, cfg.Batch());
    PrefixSize(c.position, c.trained, c.evicted);
  }

  /** At every moment each dispatched row is trained, evicted or outstanding, exactly one of the three. */
  lemma RowsConserved(cfg: Config, s: State, r: Row)
    requires cfg.Valid() && Reachable(cfg, s)
    ensures s.trained[r] + s.evicted[r] + (if r in s.outstanding then 1 else 0) == if r < s.position then 1 else 0
  {
    ReachableInv(cfg, s);
  }

  /** The sampler always finds a mini-batch, and at most 2B - B/p rows are ever outstanding. */
  lemma QueueBounds(cfg: Config, s: State)
    requires cfg.Valid() && Reachable(cfg, s)
    ensures s.phase.Sampling? ==> |s.outstanding.Keys| >= cfg.miniBatch
    ensures |s.outstanding.Keys| <= 2 * cfg.Batch() - cfg.miniBatch
  {
    ReachableInv(cfg, s);
    TimesNext(cfg.updates - 1, cfg.miniBatch);
    match s.phase
    case Sampling(k) =>
      TimesNext(cfg.updates - k - 1, cfg.miniBatch);
      if k > 0 {
        TimesMonotone(cfg.updates - k, cfg.updates - 1, cfg.miniBatch);
      }
    case _ =>
  }

  lemma {:induction false} TimesMonotone(a: nat, b: nat, size: nat)
    requires a <= b
    ensures Times(a, size) <= Times(b, size)
  {
    if a < b {
      TimesMonotone(a, b - 1, size);
    }
  }

  // ---------------------------------------------------------------------
  // Staleness: which configurations can ever make the sampler drop a row for its age.

  predicate Stale(cfg: Config, s: State, r: Row) {
    r in s.outstanding && s.step - s.outstanding[r] + 1 > cfg.threshold
  }

  /** With one update per batch, whatever the sampler sees was dispatched in this step or the one before. */
  lemma BoundedLag(cfg: Config, s: State, r: Row)
    requires cfg.Valid() && cfg.updates == 1 && Reachable(cfg, s) && r in s.outstanding
    ensures s.step - 1 <= s.outstanding[r] <= s.step
    ensures s.step - s.outstanding[r] + 1 <= cfg.threshold
  {
    ReachableInv(cfg, s);
  }

  /** A step that saves before the last one. */
  predicate SaveStep(cfg: Config, step: nat) {
    cfg.saveFreq > 0 && (step % cfg.saveFreq == 0 || step == cfg.firstStep)
  }

  /** `threshold` consecutive steps none of which saves, followed by another step of the run. */
  predicate QuietFrom(cfg: Config, a: nat) {
    && 1 <= a && a + cfg.threshold <= cfg.total
    && forall j: nat :: a <= j < a + cfg.threshold ==> !SaveStep(cfg, j)
  }

  lemma QuietIsUndrained(cfg: Config, a: nat)
    requires cfg.Valid()
    ensures QuietFrom(cfg, a)
            <==> 1 <= a && a + cfg.threshold <= cfg.total
                 && forall j: nat :: a <= j < a + cfg.threshold ==> !Boundary(cfg, j)
  {
    hide Boundary;
    forall j: nat
      ensures Boundary(cfg, j) <==> j >= cfg.total || SaveStep(cfg, j)
    {
      BoundaryIsModulo(cfg, j);
    }
  }

  lemma {:induction false} RunAppend(cfg: Config, s: State, first: seq<Event>, second: seq<Event>)
    requires Run(cfg, s, first).Some?
    ensures Run(cfg, s, first + second) == Run(cfg, Run(cfg, s, first).value, second)
    decreases |first|
  {
    if |first| == 0 {
      assert first + second == second;
    } else {
      assert (first + second)[1..] == first[1..] + second;
      RunAppend(cfg, Apply(cfg, s, first[0]), first[1..], second);
    }
  }

  lemma RunOne(cfg: Config, s: State, e: Event)
    requires Enabled(cfg, s, e)
    ensures Run(cfg, s, [e]) == Some(Apply(cfg, s, e))
  {
    assert Run(cfg, Apply(cfg, s, e), [e][1..]) == Some(Apply(cfg, s, e));
  }

  lemma {:induction false} SubsetOfSize(rows: set<Row>, n: nat) returns (part: set<Row>)
    requires n <= |rows|
    ensures part <= rows && |part| == n
  {
    if n == 0 {
      part := {};
    } else {
      var r :| r in rows;
      var rest := SubsetOfSize(rows - {r}, n - 1);
      part := rest + {r};
    }
  }

  /** A row that may be spared: there is more than one sample in the step and another batch behind it. */
  ghost predicate Sparable(cfg: Config, s: State, victim: Option<Row>) {
    victim.Some? ==> victim.value in s.outstanding && cfg.updates >= 2 && !Boundary(cfg, s.step)
  }

  lemma RowsToSample(cfg: Config, s: State, victim: Option<Row>) returns (rows: set<Row>)
    requires cfg.Valid() && QueueInv(cfg, s) && s.phase.Sampling? && Sparable(cfg, s, victim)
    ensures Enabled(cfg, s, Sample(rows)) && (victim.Some? ==> victim.value !in rows)
  {
    hide Conserved;
    var k := s.phase.trigger;
    TimesNext(cfg.updates - k - 1, cfg.miniBatch);
    TimesNext(cfg.updates - 1, cfg.miniBatch);
    if victim.Some? {
      TimesNext(cfg.updates - 2, cfg.miniBatch);
      rows := SubsetOfSize(s.outstanding.Keys - {victim.value}, cfg.miniBatch);
    } else {
      rows := SubsetOfSize(s.outstanding.Keys, cfg.miniBatch);
    }
  }

  ghost predicate Spared(s: State, t: State, victim: Option<Row>) {
    victim.Some? ==> victim.value in s.outstanding && victim.value in t.outstanding
                     && t.outstanding[victim.value] == s.outstanding[victim.value]
  }

  lemma SampleSpares(cfg: Config, s: State, rows: set<Row>, victim: Option<Row>)
    requires cfg.Valid() && QueueInv(cfg, s) && Enabled(cfg, s, Sample(rows)) && Sparable(cfg, s, victim)
    requires victim.Some? ==> victim.value !in rows
    ensures Spared(s, Apply(cfg, s, Sample(rows)), victim)
  {
    hide PhaseInv, Boundary;
    TakeFacts(s, rows);
    FreshRowsAreNew(s, cfg.Batch());
  }

  /** The rest of a step's samples, leaving the victim alone. */
  lemma {:induction false} FinishSampling(cfg: Config, s: State, victim: Option<Row>)
    returns (events: seq<Event>, t: State)
    requires cfg.Valid() && Inv(cfg, s) && s.phase.Sampling? && Sparable(cfg, s, victim)
    ensures Run(cfg, s, events) == Some(t) && Inv(cfg, t) && t.phase.StepDone? && t.step == s.step
    ensures Spared(s, t, victim)
    decreases cfg.updates - s.phase.trigger
  {
    hide Conserved, TagsInv, HistoryInv, PhaseInv;
    var rows := RowsToSample(cfg, s, victim);
    var next := Apply(cfg, s, Sample(rows));
    SampleKeepsInv(cfg, s, rows);
    SampleSpares(cfg, s, rows, victim);
    RunOne(cfg, s, Sample(rows));
    if next.phase.StepDone? {
      events, t := [Sample(rows)], next;
    } else {
      var rest;
      rest, t := FinishSampling(cfg, next, victim);
      RunAppend(cfg, s, [Sample(rows)], rest);
      events := [Sample(rows)] + rest;
    }
  }

  /** One whole step and the next step's dispatch, leaving the victim alone. */
  lemma OneStep(cfg: Config, s: State, victim: Option<Row>) returns (events: seq<Event>, t: State)
    requires cfg.Valid() && Inv(cfg, s) && s.phase == Sampling(0) && s.step + 1 <= cfg.total && Sparable(cfg, s, victim)
    ensures Run(cfg, s, events) == Some(t) && Inv(cfg, t) && t.phase == Sampling(0) && t.step == s.step + 1
    ensures Spared(s, t, victim)
  {
    hide Conserved, TagsInv, HistoryInv, Multiple, Boundary;
    var samples, done := FinishSampling(cfg, s, victim);
    FitSaveKeepsInv(cfg, done);
    var saved := Apply(cfg, done, FitSave);
    StepEndKeepsInv(cfg, saved);
    var started := Apply(cfg, saved, StepEnd);
    BeginKeepsInv(cfg, started);
    t := Apply(cfg, started, Begin);
    TailOfStep(cfg, done);
    RunAppend(cfg, s, samples, [FitSave, StepEnd, Begin]);
    events := samples + [FitSave, StepEnd, Begin];
    BeginSpares(cfg, started, victim);
  }

  lemma BeginSpares(cfg: Config, s: State, victim: Option<Row>)
    requires Conserved(s.position, s.outstanding.Keys, s.trained, s.evicted) && Enabled(cfg, s, Begin)
    requires victim.Some? ==> victim.value in s.outstanding
    ensures Spared(s, Apply(cfg, s, Begin), victim)
  {
    FreshRowsAreNew(s, cfg.Batch());
  }

  lemma TailOfStep(cfg: Config, done: State)
    requires cfg.Valid() && Inv(cfg, done) && done.phase.StepDone? && done.step + 1 <= cfg.total
    ensures var saved := Apply(cfg, done, FitSave);
            && Enabled(cfg, saved, StepEnd)
            && var started := Apply(cfg, saved, StepEnd);
               && Enabled(cfg, started, Begin)
               && started.outstanding == done.outstanding && started.step == done.step + 1
               && Run(cfg, done, [FitSave, StepEnd, Begin]) == Some(Apply(cfg, started, Begin))
  {
    hide Conserved, TagsInv, HistoryInv, Multiple, Boundary;
    FitSaveKeepsInv(cfg, done);
    var saved := Apply(cfg, done, FitSave);
    StepEndKeepsInv(cfg, saved);
    var started := Apply(cfg, saved, StepEnd);
    RunOne(cfg, done, FitSave);
    RunOne(cfg, saved, StepEnd);
    RunOne(cfg, started, Begin);
    RunAppend(cfg, saved, [StepEnd], [Begin]);
    assert [StepEnd] + [Begin] == [StepEnd, Begin];
    RunAppend(cfg, done, [FitSave], [StepEnd, Begin]);
    assert [FitSave] + [StepEnd, Begin] == [FitSave, StepEnd, Begin];
  }

  /** Several steps in a row. */
  lemma {:induction false} ManySteps(cfg: Config, s: State, n: nat, victim: Option<Row>)
    returns (events: seq<Event>, t: State)
    requires cfg.Valid() && Inv(cfg, s) && s.phase == Sampling(0) && s.step + n <= cfg.total
    requires victim.Some? ==> victim.value in s.outstanding && cfg.updates >= 2
                              && forall j: nat :: s.step <= j < s.step + n ==> !Boundary(cfg, j)
    ensures Run(cfg, s, events) == Some(t) && Inv(cfg, t) && t.phase == Sampling(0) && t.step == s.step + n
    ensures Spared(s, t, victim)
    decreases n
  {
    hide Inv, Boundary;
    if n == 0 {
      events, t := [], s;
    } else {
      var first, next := OneStep(cfg, s, victim);
      var rest;
      rest, t := ManySteps(cfg, next, n - 1, victim);
      RunAppend(cfg, s, first, rest);
      events := first + rest;
    }
  }

  lemma FirstDispatch(cfg: Config) returns (s: State)
    requires cfg.Valid() && cfg.total >= 1
    ensures Run(cfg, Initial(cfg), [Begin]) == Some(s) && Inv(cfg, s) && s.phase == Sampling(0) && s.step == 1
  {
    InitialInv(cfg);
    BeginKeepsInv(cfg, Initial(cfg));
    RunOne(cfg, Initial(cfg), Begin);
    s := Apply(cfg, Initial(cfg), Begin);
  }

  lemma StaleRun(cfg: Config, a: nat) returns (s: State, r: Row)
    requires cfg.Valid() && cfg.updates >= 2 && QuietFrom(cfg, a)
    ensures Reachable(cfg, s) && s.phase.Sampling? && Stale(cfg, s, r)
  {
    hide Boundary, Conserved, HistoryInv, Run, QuietFrom;
    QuietIsUndrained(cfg, a);
    var first := FirstDispatch(cfg);
    var toA, atA := ManySteps(cfg, first, a - 1, None);
    TimesNext(cfg.updates - 1, cfg.miniBatch);
    assert |atA.outstanding.Keys| > 0;
    r :| r in atA.outstanding.Keys;
    var hold;
    hold, s := ManySteps(cfg, atA, cfg.threshold, Some(r));
    RunAppend(cfg, Initial(cfg), [Begin], toA);
    RunAppend(cfg, Initial(cfg), [Begin] + toA, hold);
  }

  lemma StaleNeedsQuietSteps(cfg: Config, s: State, r: Row)
    requires cfg.Valid() && Reachable(cfg, s) && s.phase.Sampling? && Stale(cfg, s, r)
    ensures cfg.updates >= 2 && exists a :: QuietFrom(cfg, a)
  {
    hide Conserved, HistoryInv, QuietFrom, Boundary;
    ReachableInv(cfg, s);
    QuietIsUndrained(cfg, s.outstanding[r]);
  }

  /**
   * The sampler can come to see a row that is older than the threshold allows in
   * some run if and only if a batch takes several updates and `threshold` steps
   * that do not save are followed by another step.
   */
  lemma StalenessExactly(cfg: Config)
    requires cfg.Valid()
    ensures (exists s, r :: Reachable(cfg, s) && s.phase.Sampling? && r in s.outstanding
                            && s.step - s.outstanding[r] + 1 > cfg.threshold)
            <==> cfg.updates >= 2 && exists a :: QuietFrom(cfg, a)
  {
    hide Reachable, QuietFrom;
    StaleOrQuiet(cfg);
    if s, r :| Reachable(cfg, s) && s.phase.Sampling? && r in s.outstanding
               && s.step - s.outstanding[r] + 1 > cfg.threshold {
      assert Stale(cfg, s, r);
    }
    if s, r :| Reachable(cfg, s) && s.phase.Sampling? && Stale(cfg, s, r) {
      assert r in s.outstanding && s.step - s.outstanding[r] + 1 > cfg.threshold;
    }
  }

  lemma StaleOrQuiet(cfg: Config)
    requires cfg.Valid()
    ensures (exists s, r :: Reachable(cfg, s) && s.phase.Sampling? && Stale(cfg, s, r))
            <==> cfg.updates >= 2 && exists a :: QuietFrom(cfg, a)
  {
    if cfg.updates >= 2 && exists a :: QuietFrom(cfg, a) {
      var a :| QuietFrom(cfg, a);
      var s, r := StaleRun(cfg, a);
    }
    forall s, r | Reachable(cfg, s) && s.phase.Sampling? && Stale(cfg, s, r)
      ensures cfg.updates >= 2 && exists a :: QuietFrom(cfg, a)
    {
      StaleNeedsQuietSteps(cfg, s, r);
    }
  }

  /** The smallest accepted threshold does not always prevent drops: two updates a step, three steps without a save. */
  lemma ThresholdTwoIsNotEnough()
    ensures var cfg := Config(1, 2, -1, -1, 4, 2);
            exists s, r :: Reachable(cfg, s) && s.phase.Sampling? && r in s.outstanding
                           && s.step - s.outstanding[r] + 1 > cfg.threshold
  {
    hide Reachable;
    var cfg := Config(1, 2, -1, -1, 4, 2);
    assert QuietFrom(cfg, 1);
    StaleOrQuiet(cfg);
  }

  // ---------------------------------------------------------------------
  // The trainer object, whose methods set and clear its fields in place.

  class Trainer {
    const cfg: Config
    var phase: Phase
    var globalSteps: nat
    var position: nat
    var queue: map<Row, nat>
    var batchPrefetched: bool
    var trained: multiset<Row>
    var evicted: multiset<Row>
    var checkpoints: seq<Checkpoint>

    ghost function Value(): State
      reads this
    {
      State(phase, globalSteps, position, queue, batchPrefetched, trained, evicted, checkpoints)
    }

    constructor (cfg: Config)
      requires cfg.Valid()
      ensures this.cfg == cfg && Value() == Initial(cfg) && Inv(cfg, Value())
    {
      this.cfg := cfg;
      phase, globalSteps, position := if cfg.total >= 1 then StepStart else Finished, 1, 0;
      queue, batchPrefetched := map[], false;
      trained, evicted, checkpoints := multiset{}, multiset{}, [];
      new;
      InitialInv(cfg);
    }

    /** The base class's add: fetch rows one after another and put each in the queue. */
    method OriginalAdd(count: nat)
      modifies this
      ensures Value() == Dispatch(old(Value()), count)
    {
      hide Dispatch;
      ghost var start := Value();
      DispatchNone(start);
      for done := 0 to count
        invariant Value() == Dispatch(start, done)
      {
        DispatchOneMore(start, done);
        queue := queue[position := globalSteps];
        position := position + 1;
      }
    }

    /** The queue has grown by one batch of fresh consecutive rows, tagged with the current step. */
    ghost predicate FetchedAhead(before: map<Row, nat>, from: nat)
      reads this
    {
      && position == from + cfg.updates * cfg.miniBatch
      && (forall r :: r in queue <==> r in before || from <= r < position)
      && (forall r :: r in queue ==> queue[r] == if from <= r < position then globalSteps else before[r])
    }

    /** The base add of one batch. */
    method AddOneBatch()
      modifies this
      ensures Value() == Dispatch(old(Value()), cfg.Batch())
      ensures FetchedAhead(old(queue), old(position))
    {
      TimesIsProduct(cfg.updates, cfg.miniBatch);
      OriginalAdd(cfg.Batch());
    }

    method AddBatchToGenerate()
      modifies this
      ensures Value() == AddBatch(cfg, old(Value()))
      ensures !batchPrefetched
      ensures old(batchPrefetched) ==> queue == old(queue) && position == old(position)
      ensures !old(batchPrefetched) ==> FetchedAhead(old(queue), old(position))
    {
      if batchPrefetched {
        batchPrefetched := false;
        return;
      }
      AddOneBatch();
    }

    method OnSampleEnd(localTriggerStep: nat)
      modifies this
      ensures Value() == SampleEnd(cfg, old(Value()), localTriggerStep)
      ensures var ahead := localTriggerStep == 0 && globalSteps < cfg.total
                           && (cfg.saveFreq <= 0
                               || (globalSteps % cfg.saveFreq != 0 && globalSteps != cfg.firstStep));
              && (ahead ==> batchPrefetched && FetchedAhead(old(queue), old(position)))
              && (!ahead ==> Value() == old(Value()))
    {
      hide Multiple;
      BoundaryIsModulo(cfg, globalSteps);
      var boundary := globalSteps >= cfg.total
                      || (cfg.saveFreq > 0 && (Multiple(globalSteps, cfg.saveFreq) || globalSteps == cfg.firstStep));
      if localTriggerStep == 0 && !boundary {
        AddOneBatch();
        batchPrefetched := true;
      }
    }

    method SaveCheckpoint()
      modifies this
      ensures Value() == Save(old(Value()))
      ensures if old(queue) == map[] && !old(batchPrefetched)
              then phase == old(phase)
                   && checkpoints == old(checkpoints) + [Checkpoint(globalSteps, position, trained, evicted)]
              else phase == Refused && checkpoints == old(checkpoints)
    {
      if |queue.Keys| != 0 || batchPrefetched {
        phase := Refused;
        return;
      }
      assert queue.Keys == {};
      checkpoints := checkpoints + [Checkpoint(globalSteps, position, trained, evicted)];
    }

    method OnStepEnd()
      requires phase.AfterFitSave?
      modifies this
      ensures Value() == NextStep(cfg, old(Value()))
      ensures var step := old(globalSteps);
              var early := cfg.saveFreq > 0 && step == cfg.firstStep && step < cfg.total && step % cfg.saveFreq != 0;
              if early && (queue != map[] || batchPrefetched) then phase == Refused && globalSteps == step
              else globalSteps == step + 1 && (phase == if step + 1 <= cfg.total then StepStart else Finished)
                   && checkpoints == old(checkpoints)
                                     + if early then [Checkpoint(step, position, trained, evicted)] else []
    {
      hide Multiple;
      if cfg.saveFreq > 0 {
        MultipleIsModulo(globalSteps, cfg.saveFreq);
      }
      if globalSteps == cfg.firstStep && globalSteps < cfg.total && cfg.saveFreq > 0
         && !Multiple(globalSteps, cfg.saveFreq) {
        SaveCheckpoint();
        if phase.Refused? {
          return;
        }
      }
      globalSteps := globalSteps + 1;
      phase := if globalSteps <= cfg.total then StepStart else Finished;
    }

    /** The base training step takes a mini-batch and then calls the patched hook. */
    method SampleRows(rows: set<Row>)
      requires phase.Sampling?
      modifies this
      ensures Value() == Sampled(cfg, old(Value()), rows)
    {
      hide Dispatch, Boundary, SampleEnd;
      var k := phase.trigger;
      queue := queue - rows;
      trained := trained + multiset(rows);
      OnSampleEnd(k);
      phase := if k + 1 >= cfg.updates then StepDone else Sampling(k + 1);
    }

    /** The environment drops an outstanding row and the base class refills its place. */
    method EvictRow(row: Row)
      modifies this
      ensures Value() == Evicted(old(Value()), row)
    {
      hide Dispatch;
      queue := queue - {row};
      evicted := evicted + multiset{row};
      OriginalAdd(1);
    }

    /** The training loop's own save at the end of a step. */
    method FitStepSave()
      requires phase.StepDone?
      modifies this
      ensures Value() == AfterFit(cfg, old(Value()))
      ensures var saves := cfg.saveFreq > 0 && (globalSteps % cfg.saveFreq == 0 || globalSteps == cfg.total);
              if saves && (queue != map[] || batchPrefetched) then phase == Refused
              else phase == AfterFitSave
                   && checkpoints == old(checkpoints)
                                     + if saves then [Checkpoint(globalSteps, position, trained, evicted)] else []
    {
      hide Multiple;
      if cfg.saveFreq > 0 {
        MultipleIsModulo(globalSteps, cfg.saveFreq);
      }
      if cfg.saveFreq > 0 && (Multiple(globalSteps, cfg.saveFreq) || globalSteps == cfg.total) {
        SaveCheckpoint();
      }
      if !phase.Refused? {
        phase := AfterFitSave;
      }
    }

    /** A new process: everything in flight is gone and the latest checkpoint is loaded. */
    method Reload()
      modifies this
      ensures Value() == Restart(cfg, old(Value()))
    {
      queue, batchPrefetched := map[], false;
      if |checkpoints| == 0 {
        LoadCheckpoint(Checkpoint(0, 0, multiset{}, multiset{}));
      } else {
        LoadCheckpoint(checkpoints[|checkpoints| - 1]);
      }
    }

    method LoadCheckpoint(c: Checkpoint)
      modifies this`globalSteps, this`position, this`trained, this`evicted, this`phase
      ensures globalSteps == c.step + 1 && position == c.position && trained == c.trained && evicted == c.evicted
      ensures phase == if globalSteps <= cfg.total then StepStart else Finished
    {
      globalSteps, position, trained, evicted := c.step + 1, c.position, c.trained, c.evicted;
      phase := if globalSteps <= cfg.total then StepStart else Finished;
    }

    /** One event of the training loop or of its environment, carried out on the object. */
    method Perform(e: Event)
      requires cfg.Valid() && Inv(cfg, Value()) && Enabled(cfg, Value(), e)
      modifies this
      ensures Value() == Apply(cfg, old(Value()), e)
      ensures Inv(cfg, Value()) && !phase.Refused?
    {
      hide Inv, AddBatch, Sampled, Evicted, AfterFit, NextStep, Restart;
      ghost var before := Value();
      StepKeepsInv(cfg, before, e);
      InvNotRefused(cfg, Apply(cfg, before, e));
      match e
      case Begin =>
        AddBatchToGenerate();
        phase := Sampling(0);
      case Evict(row) => EvictRow(row);
      case Sample(rows) => SampleRows(rows);
      case FitSave => FitStepSave();
      case StepEnd => OnStepEnd();
      case Crash => Reload();
    }

    /** A whole run on the object ends where the run of the state machine ends, with no save refused. */
    method PerformAll(events: seq<Event>)
      requires cfg.Valid() && Inv(cfg, Value()) && Run(cfg, Value(), events).Some?
      modifies this
      ensures Run(cfg, old(Value()), events) == Some(Value())
      ensures Inv(cfg, Value()) && !phase.Refused?
    {
      hide Inv, Apply, Enabled;
      ghost var start := Value();
      var i := 0;
      InvNotRefused(cfg, Value());
      while i < |events|
        invariant i <= |events|
        invariant Inv(cfg, Value()) && !phase.Refused?
        invariant Run(cfg, Value(), events[i..]).Some?
        invariant Run(cfg, start, events) == Run(cfg, Value(), events[i..])
      {
        assert events[i..][0] == events[i] && events[i..][1..] == events[i + 1..];
        Perform(events[i]);
        i := i + 1;
      }
    }
  }

  lemma InvNotRefused(cfg: Config, s: State)
    requires Inv(cfg, s)
    ensures !s.phase.Refused?
  {
  }

  lemma DispatchNone(s: State)
    ensures Dispatch(s, 0) == s
  {
    assert Dispatch(s, 0).outstanding == s.outstanding;
  }

  lemma OneMoreTag(out: map<Row, nat>, rows: set<Row>, row: Row, step: nat)
    ensures out + (map r: nat | r in rows + {row} :: step) == (out + map r: nat | r in rows :: step)[row := step]
  {
    assert (map r: nat | r in rows + {row} :: step) == (map r: nat | r in rows :: step)[row := step];
  }

  lemma DispatchOneMore(s: State, count: nat)
    ensures var d := Dispatch(s, count);
            && Dispatch(s, count + 1) == d.(position := d.position + 1,
                outstanding := d.outstanding[d.position := s.step])
            && d.step == s.step
  {
    OneMoreTag(s.outstanding, Fresh(s.position, count), s.position + count, s.step);
  }
}
