/**
 * The semaphore and the queue of backend slots that the concurrent tasks of a
 * Codex evaluation share. A task takes a permit, then a backend from the front
 * of the queue; whether it succeeds, fails or is cancelled, it gives back what
 * it holds.
 */
module BackendSlots {
  import opened Prelude

  type TaskId = nat
  type Replica = nat

  datatype Limits = Limits(concurrency: nat, replicas: nat, tasksPerReplica: nat) {
    function Slots(): nat {
      Times(tasksPerReplica, replicas)
    }

    /** What the command line insists on. */
    predicate Accepted() {
      concurrency >= 1 && tasksPerReplica >= 1 && concurrency <= Slots()
    }
  }

  /** `waiting` tasks hold a permit and no backend yet. */
  datatype State = State(queue: seq<Replica>, permits: nat, waiting: set<TaskId>, inFlight: map<TaskId, Replica>)

  datatype Event = Acquire(task: TaskId) | Take(task: TaskId) | Cancel(task: TaskId) | Release(task: TaskId)

  /** One round of all replicas after another. */
  function Rounds(rounds: nat, replicas: nat): seq<Replica> {
    if rounds == 0 then [] else Rounds(rounds - 1, replicas) + seq(replicas, i => i)
  }

  function Initial(limits: Limits): State {
    State(Rounds(limits.tasksPerReplica, limits.replicas), limits.concurrency, {}, map[])
  }

  /** A waiting task stays blocked while the queue is empty. */
  predicate Enabled(s: State, e: Event) {
    match e
    case Acquire(task) => s.permits > 0 && task !in s.waiting && task !in s.inFlight
    case Take(task) => task in s.waiting && |s.queue| > 0
    case Cancel(task) => task in s.waiting
    case Release(task) => task in s.inFlight
  }

  function Apply(s: State, e: Event): State
    requires Enabled(s, e)
  {
    match e
    case Acquire(task) => s.(permits := s.permits - 1, waiting := s.waiting + {task})
    case Take(task) =>
      s.(queue := s.queue[1..], waiting := s.waiting - {task}, inFlight := s.inFlight[task := s.queue[0]])
    case Cancel(task) => s.(permits := s.permits + 1, waiting := s.waiting - {task})
    case Release(task) =>
      s.(queue := s.queue + [s.inFlight[task]], permits := s.permits + 1, inFlight := s.inFlight - {task})
  }

  function Run(s: State, events: seq<Event>): Option<State>
    decreases |events|
  {
    if |events| == 0 then Some(s)
    else if !Enabled(s, events[0]) then None
    else Run(Apply(s, events[0]), events[1..])
  }

  ghost predicate Reachable(limits: Limits, s: State) {
    exists events :: Run(Initial(limits), events) == Some(s)
  }

  // ---------------------------------------------------------------------
  // Conservation.

  function On(inFlight: map<TaskId, Replica>, replica: Replica): set<TaskId> {
    set t | t in inFlight && inFlight[t] == replica
  }

  ghost predicate PerReplica(limits: Limits, s: State) {
    forall r: Replica ::
      multiset(s.queue)[r] + |On(s.inFlight, r)| == if r < limits.replicas then limits.tasksPerReplica else 0
  }

  ghost predicate Totals(limits: Limits, s: State) {
    && |s.queue| + |s.inFlight| == limits.Slots()
    && s.permits + |s.waiting| + |s.inFlight| == limits.concurrency
    && s.waiting !! s.inFlight.Keys
  }

  ghost predicate Inv(limits: Limits, s: State) {
    PerReplica(limits, s) && Totals(limits, s)
  }

  lemma {:induction false} OneRound(n: nat, r: Replica)
    ensures multiset(seq(n, i => i))[r] == if r < n then 1 else 0
  {
    if n > 0 {
      OneRound(n - 1, r);
      assert seq(n, i => i) == seq(n - 1, i => i) + [n - 1];
    }
  }

  lemma {:induction false} RoundsHold(rounds: nat, replicas: nat, r: Replica)
    ensures multiset(Rounds(rounds, replicas))[r] == if r < replicas then rounds else 0
    ensures |Rounds(rounds, replicas)| == Times(rounds, replicas)
  {
    if rounds > 0 {
      RoundsHold(rounds - 1, replicas, r);
      OneRound(replicas, r);
    }
  }

  /** The queue starts with the replicas in turn, one round after another. */
  lemma {:induction false} RoundsInTurn(rounds: nat, replicas: nat, round: nat, i: nat)
    requires round < rounds && i < replicas
    ensures Times(round, replicas) + i < |Rounds(rounds, replicas)|
    ensures Rounds(rounds, replicas)[Times(round, replicas) + i] == i
  {
    hide Times;
    RoundsHold(rounds - 1, replicas, 0);
    var before := Rounds(rounds - 1, replicas);
    var all := before + seq(replicas, k => k);
    assert Rounds(rounds, replicas) == all;
    if round < rounds - 1 {
      RoundsInTurn(rounds - 1, replicas, round, i);
    } else {
      assert all[|before| + i] == i;
    }
  }

  lemma InitialInv(limits: Limits)
    ensures Inv(limits, Initial(limits))
  {
    var s := Initial(limits);
    forall r: Replica
      ensures multiset(s.queue)[r] + |On(s.inFlight, r)| == if r < limits.replicas then limits.tasksPerReplica else 0
    {
      RoundsHold(limits.tasksPerReplica, limits.replicas, r);
      assert On(s.inFlight, r) == {};
    }
    RoundsHold(limits.tasksPerReplica, limits.replicas, 0);
  }

  lemma FrontCount(queue: seq<Replica>, r: Replica)
    requires |queue| > 0
    ensures multiset(queue)[r] == multiset(queue[1..])[r] + if r == queue[0] then 1 else 0
  {
    assert queue == [queue[0]] + queue[1..];
  }

  lemma OnMore(inFlight: map<TaskId, Replica>, task: TaskId, replica: Replica, r: Replica)
    requires task !in inFlight
    ensures |On(inFlight[task := replica], r)| == |On(inFlight, r)| + if r == replica then 1 else 0
  {
    assert On(inFlight[task := replica], r) == On(inFlight, r) + if r == replica then {task} else {};
  }

  lemma OnFewer(inFlight: map<TaskId, Replica>, task: TaskId, r: Replica)
    requires task in inFlight
    ensures |On(inFlight - {task}, r)| == |On(inFlight, r)| - if r == inFlight[task] then 1 else 0
  {
    assert On(inFlight - {task}, r) == On(inFlight, r) - if r == inFlight[task] then {task} else {};
  }

  lemma TakeKeepsReplicas(limits: Limits, s: State, task: TaskId)
    requires Inv(limits, s) && Enabled(s, Take(task))
    ensures PerReplica(limits, Apply(s, Take(task)))
  {
    hide On;
    var t := Apply(s, Take(task));
    forall r: Replica
      ensures multiset(t.queue)[r] + |On(t.inFlight, r)| == if r < limits.replicas then limits.tasksPerReplica else 0
    {
      FrontCount(s.queue, r);
      OnMore(s.inFlight, task, s.queue[0], r);
    }
  }

  lemma ReleaseKeepsReplicas(limits: Limits, s: State, task: TaskId)
    requires Inv(limits, s) && Enabled(s, Release(task))
    ensures PerReplica(limits, Apply(s, Release(task)))
  {
    hide On;
    var t := Apply(s, Release(task));
    forall r: Replica
      ensures multiset(t.queue)[r] + |On(t.inFlight, r)| == if r < limits.replicas then limits.tasksPerReplica else 0
    {
      OnFewer(s.inFlight, task, r);
    }
  }

  lemma StepKeepsInv(limits: Limits, s: State, e: Event)
    requires Inv(limits, s) && Enabled(s, e)
    ensures Inv(limits, Apply(s, e))
  {
    match e
    case Take(task) => TakeKeepsReplicas(limits, s, task); TakeKeepsTotals(limits, s, task);
    case Release(task) => ReleaseKeepsReplicas(limits, s, task); ReleaseKeepsTotals(limits, s, task);
    case _ =>
  }

  lemma TakeKeepsTotals(limits: Limits, s: State, task: TaskId)
    requires Inv(limits, s) && Enabled(s, Take(task))
    ensures Totals(limits, Apply(s, Take(task)))
  {
    hide PerReplica;
    assert s.inFlight[task := s.queue[0]].Keys == s.inFlight.Keys + {task};
    assert |s.inFlight[task := s.queue[0]]| == |s.inFlight| + 1;
  }

  lemma ReleaseKeepsTotals(limits: Limits, s: State, task: TaskId)
    requires Inv(limits, s) && Enabled(s, Release(task))
    ensures Totals(limits, Apply(s, Release(task)))
  {
    hide PerReplica;
    assert (s.inFlight - {task}).Keys == s.inFlight.Keys - {task};
    assert |s.inFlight - {task}| == |s.inFlight| - 1;
  }

  lemma {:induction false} RunKeepsInv(limits: Limits, s: State, events: seq<Event>)
    requires Inv(limits, s) && Run(s, events).Some?
    ensures Inv(limits, Run(s, events).value)
    decreases |events|
  {
    if |events| > 0 {
      StepKeepsInv(limits, s, events[0]);
      RunKeepsInv(limits, Apply(s, events[0]), events[1..]);
    }
  }

  lemma ReachableInv(limits: Limits, s: State)
    requires Reachable(limits, s)
    ensures Inv(limits, s)
  {
    var events :| Run(Initial(limits), events) == Some(s);
    InitialInv(limits);
    RunKeepsInv(limits, Initial(limits), events);
  }

  // ---------------------------------------------------------------------
  // Main results, over every interleaving.

  /** No slot is ever lost or duplicated: queued and busy slots of each replica are its allotment. */
  lemma SlotsConserved(limits: Limits, s: State, replica: Replica)
    requires Reachable(limits, s)
    ensures multiset(s.queue)[replica] + |On(s.inFlight, replica)|
            == if replica < limits.replicas then limits.tasksPerReplica else 0
    ensures |s.inFlight| + |s.waiting| <= limits.concurrency
  {
    ReachableInv(limits, s);
  }

  lemma {:induction false} RunAppend(s: State, first: seq<Event>, second: seq<Event>)
    requires Run(s, first).Some?
    ensures Run(s, first + second) == Run(Run(s, first).value, second)
    decreases |first|
  {
    if |first| == 0 {
      assert first + second == second;
    } else {
      assert (first + second)[1..] == first[1..] + second;
      RunAppend(Apply(s, first[0]), first[1..], second);
    }
  }

  lemma RunTwo(s: State, a: Event, b: Event)
    requires Enabled(s, a) && Enabled(Apply(s, a), b)
    ensures Run(s, [a, b]) == Some(Apply(Apply(s, a), b))
  {
    var t := Apply(Apply(s, a), b);
    assert [a, b][1..] == [b] && [b][1..] == [];
    assert Run(t, []) == Some(t);
    assert Run(Apply(s, a), [b]) == Some(t);
  }

  /** With a permit to spare for each, every slot can be taken. */
  lemma {:induction false} Occupy(limits: Limits, n: nat) returns (events: seq<Event>, s: State)
    requires n <= limits.concurrency && n <= limits.Slots()
    ensures Run(Initial(limits), events) == Some(s)
    ensures s.waiting == {} && (forall t :: t in s.inFlight ==> t < n)
    ensures s.permits == limits.concurrency - n && |s.queue| == limits.Slots() - n
  {
    if n == 0 {
      events, s := [], Initial(limits);
      RoundsHold(limits.tasksPerReplica, limits.replicas, 0);
    } else {
      var before, at := Occupy(limits, n - 1);
      var acquire, take := Acquire(n - 1), Take(n - 1);
      s := Apply(Apply(at, acquire), take);
      RunTwo(at, acquire, take);
      RunAppend(Initial(limits), before, [acquire, take]);
      events := before + [acquire, take];
    }
  }

  ghost predicate SomeoneBlocks(s: State) {
    s.waiting != {} && |s.queue| == 0
  }

  lemma BlockedRun(limits: Limits) returns (s: State)
    requires limits.concurrency > limits.Slots()
    ensures Reachable(limits, s) && SomeoneBlocks(s)
  {
    var n := limits.Slots();
    var before, full := Occupy(limits, n);
    assert Enabled(full, Acquire(n));
    s := Apply(full, Acquire(n));
    assert [Acquire(n)][1..] == [] && Run(s, []) == Some(s);
    assert Run(full, [Acquire(n)]) == Some(s);
    RunAppend(Initial(limits), before, [Acquire(n)]);
  }

  /**
   * Whoever holds a permit finds a backend at once, in every interleaving, if
   * and only if the concurrency is within the replicas' slots, which is what
   * the command line checks.
   */
  lemma NeverBlocksExactly(limits: Limits)
    ensures (forall s :: Reachable(limits, s) ==> !SomeoneBlocks(s))
            <==> limits.concurrency <= limits.tasksPerReplica * limits.replicas
  {
    TimesIsProduct(limits.tasksPerReplica, limits.replicas);
    if limits.concurrency <= limits.Slots() {
      forall s | Reachable(limits, s)
        ensures !SomeoneBlocks(s)
      {
        ReachableInv(limits, s);
        assert s.waiting != {} ==> |s.waiting| > 0;
      }
    } else {
      var s := BlockedRun(limits);
    }
  }

  // ---------------------------------------------------------------------
  // The queue and the semaphore as the program has them.

  class Pool {
    const limits: Limits
    var queue: seq<Replica>
    var permits: nat
    var waiting: set<TaskId>
    var inFlight: map<TaskId, Replica>

    ghost function Value(): State
      reads this
    {
      State(queue, permits, waiting, inFlight)
    }

    /** The nested loops that fill the queue. */
    constructor (limits: Limits)
      requires limits.Accepted()
      ensures this.limits == limits && Value() == Initial(limits) && Inv(limits, Value())
      ensures permits == limits.concurrency && waiting == {} && inFlight == map[]
      ensures |queue| == limits.tasksPerReplica * limits.replicas
    {
      this.limits, permits, waiting, inFlight, queue := limits, limits.concurrency, {}, map[], [];
      new;
      for round := 0 to limits.tasksPerReplica
        invariant permits == limits.concurrency && waiting == {} && inFlight == map[]
        invariant queue == Rounds(round, limits.replicas)
      {
        for index := 0 to limits.replicas
          invariant permits == limits.concurrency && waiting == {} && inFlight == map[]
          invariant queue == Rounds(round, limits.replicas) + seq(index, i => i)
        {
          queue := queue + [index];
        }
      }
      InitialInv(limits);
      RoundsHold(limits.tasksPerReplica, limits.replicas, 0);
      TimesIsProduct(limits.tasksPerReplica, limits.replicas);
    }

    method AcquirePermit(task: TaskId)
      requires Enabled(Value(), Acquire(task))
      modifies this
      ensures Value() == Apply(old(Value()), Acquire(task))
      ensures permits == old(permits) - 1 && waiting == old(waiting) + {task} && queue == old(queue)
    {
      permits := permits - 1;
      waiting := waiting + {task};
    }

    /** Taking from the queue needs no wait: that the queue holds a backend is proved here. */
    method TakeBackend(task: TaskId) returns (backend: Replica)
      requires limits.Accepted() && Inv(limits, Value()) && task in waiting
      modifies this
      ensures Enabled(old(Value()), Take(task)) && Value() == Apply(old(Value()), Take(task))
      ensures backend < limits.replicas && Inv(limits, Value())
      ensures old(queue) == [backend] + queue && task !in waiting && permits == old(permits)
      ensures inFlight == old(inFlight)[task := backend]
    {
      QueueServes(limits, Value());
      StepKeepsInv(limits, Value(), Take(task));
      backend := queue[0];
      queue := queue[1..];
      waiting := waiting - {task};
      inFlight := inFlight[task := backend];
      BackendExists(limits, Value(), task);
    }

    /** The `finally` of a task, whatever became of it. */
    method ReleaseBackend(task: TaskId)
      requires Inv(limits, Value()) && task in inFlight
      modifies this
      ensures Value() == Apply(old(Value()), Release(task)) && Inv(limits, Value())
      ensures queue == old(queue) + [old(inFlight)[task]] && permits == old(permits) + 1
      ensures task !in inFlight && waiting == old(waiting)
    {
      StepKeepsInv(limits, Value(), Release(task));
      queue := queue + [inFlight[task]];
      inFlight := inFlight - {task};
      permits := permits + 1;
    }

    method CancelWait(task: TaskId)
      requires Inv(limits, Value()) && task in waiting
      modifies this
      ensures Value() == Apply(old(Value()), Cancel(task)) && Inv(limits, Value())
      ensures queue == old(queue) && permits == old(permits) + 1 && waiting == old(waiting) - {task}
    {
      StepKeepsInv(limits, Value(), Cancel(task));
      waiting := waiting - {task};
      permits := permits + 1;
    }
  }

  lemma QueueServes(limits: Limits, s: State)
    requires limits.Accepted() && Inv(limits, s) && s.waiting != {}
    ensures |s.queue| > 0
  {
    assert |s.waiting| > 0;
  }

  lemma BackendExists(limits: Limits, s: State, task: TaskId)
    requires Inv(limits, s) && task in s.inFlight
    ensures s.inFlight[task] < limits.replicas
  {
    var r := s.inFlight[task];
    assert task in On(s.inFlight, r);
    assert multiset(s.queue)[r] + |On(s.inFlight, r)| == if r < limits.replicas then limits.tasksPerReplica else 0;
  }
}
