/**
 * Reading session scores from the shared queue: one score per session, from the
 * successful trajectory with the highest index, in session order.
 */
module SessionScores {
  import opened Prelude
  import opened Sorting
  import opened EvalReporting

  /** A queue key after splitting; session numbers stand for session names in their sort order. */
  datatype Key = Prompt(id: TaskId) | Trajectory(id: TaskId, session: nat, index: int) | Unparsed(name: string)

  datatype Entry = Entry(key: Key, status: string, score: real)

  type SessionKey = (TaskId, nat)

  predicate Success(e: Entry) {
    e.key.Trajectory? && e.status == "success"
  }

  predicate Relevant(e: Entry, ids: set<TaskId>) {
    Success(e) && e.key.id in ids
  }

  function SessionOf(e: Entry): SessionKey
    requires e.key.Trajectory?
  {
    (e.key.id, e.key.session)
  }

  predicate KeyLe(a: SessionKey, b: SessionKey) {
    a.0 < b.0 || (a.0 == b.0 && a.1 <= b.1)
  }

  /** For every session with a success, its successful trajectory of highest index. */
  ghost predicate FinalOf(partition: seq<Entry>, ids: set<TaskId>, final: map<SessionKey, Entry>) {
    && (forall k :: k in final ==> final[k] in partition && Relevant(final[k], ids) && SessionOf(final[k]) == k)
    && (forall e :: e in partition && Relevant(e, ids) ==>
          SessionOf(e) in final && e.key.index <= final[SessionOf(e)].key.index)
  }

  /** The queue is a dictionary. */
  ghost predicate DistinctKeys(partition: seq<Entry>) {
    forall i, j :: 0 <= i < j < |partition| ==> partition[i].key != partition[j].key
  }

  function StatusesOf(partition: seq<Entry>, ids: set<TaskId>): (statuses: Statuses)
    ensures forall id :: id in statuses ==> id in ids
  {
    if |partition| == 0 then map[]
    else
      var e := partition[|partition| - 1];
      var before := StatusesOf(partition[..|partition| - 1], ids);
      if e.key.Prompt? && e.key.id in ids then before[e.key.id := if e.status == "" then "unknown" else e.status]
      else before
  }

  /** The sessions of a task among some keys, and their scores, in the order of the keys. */
  function SessionsFor(keys: seq<SessionKey>, id: TaskId): seq<nat> {
    if |keys| == 0 then []
    else SessionsFor(keys[..|keys| - 1], id) + if keys[|keys| - 1].0 == id then [keys[|keys| - 1].1] else []
  }

  function ScoresFor(keys: seq<SessionKey>, final: map<SessionKey, Entry>, id: TaskId): seq<real>
    requires forall k :: k in keys ==> k in final
  {
    if |keys| == 0 then []
    else
      var k := keys[|keys| - 1];
      assert k in keys;
      ScoresFor(keys[..|keys| - 1], final, id) + if k.0 == id then [final[k].score] else []
  }

  ghost predicate Ascending(sessions: seq<nat>) {
    forall i, j :: 0 <= i < j < |sessions| ==> sessions[i] < sessions[j]
  }

  /** The scores of a task: its sessions in ascending order, each with its final trajectory's score. */
  ghost predicate IsScoreList(final: map<SessionKey, Entry>, id: TaskId, sessions: seq<nat>, scores: seq<real>) {
    && Ascending(sessions) && |scores| == |sessions|
    && (forall s: nat :: s in sessions <==> (id, s) in final)
    && (forall i :: 0 <= i < |sessions| ==> (id, sessions[i]) in final && scores[i] == final[(id, sessions[i])].score)
  }

  ghost predicate HasScores(final: map<SessionKey, Entry>, id: TaskId, scores: seq<real>) {
    exists sessions :: IsScoreList(final, id, sessions, scores)
  }

  /** A session's successful trajectory of highest index in the queue, and its score. */
  ghost predicate IsPick(queue: seq<Entry>, id: TaskId, session: nat, pick: Entry, score: real) {
    && pick in queue && pick.status == "success" && pick.key.Trajectory?
    && pick.key.id == id && pick.key.session == session && pick.score == score
    && forall e ::
         e in queue && e.status == "success" && e.key.Trajectory? && e.key.id == id && e.key.session == session
         ==> e.key.index <= pick.key.index
  }

  /**
   * A task's scores read off the queue: one for each session with a successful
   * trajectory, that of the highest index, in ascending order of the sessions.
   */
  ghost predicate Selected(queue: seq<Entry>, ids: set<TaskId>, id: TaskId, sessions: seq<nat>, picks: seq<Entry>,
                           scores: seq<real>) {
    && |sessions| == |picks| == |scores| && (id !in ids ==> |sessions| == 0)
    && (forall i, j :: 0 <= i < j < |sessions| ==> sessions[i] < sessions[j])
    && (forall i :: 0 <= i < |sessions| ==> IsPick(queue, id, sessions[i], picks[i], scores[i]))
    && (forall e :: e in queue && e.status == "success" && e.key.Trajectory? && e.key.id == id && id in ids
          ==> e.key.session in sessions)
  }

  ghost predicate SelectedScores(queue: seq<Entry>, ids: set<TaskId>, id: TaskId, scores: seq<real>) {
    exists sessions, picks :: Selected(queue, ids, id, sessions, picks, scores)
  }

  lemma FinalPick(queue: seq<Entry>, ids: set<TaskId>, final: map<SessionKey, Entry>, id: TaskId, session: nat)
    requires FinalOf(queue, ids, final) && (id, session) in final
    ensures id in ids && IsPick(queue, id, session, final[(id, session)], final[(id, session)].score)
  {
    var pick := final[(id, session)];
    assert Relevant(pick, ids) && SessionOf(pick) == (id, session);
    forall e | e in queue && e.status == "success" && e.key.Trajectory? && e.key.id == id && e.key.session == session
      ensures e.key.index <= pick.key.index
    {
      assert Relevant(e, ids) && SessionOf(e) == (id, session);
    }
  }

  lemma FinalCovers(queue: seq<Entry>, ids: set<TaskId>, final: map<SessionKey, Entry>, e: Entry)
    requires FinalOf(queue, ids, final) && e in queue && e.status == "success" && e.key.Trajectory? && e.key.id in ids
    ensures (e.key.id, e.key.session) in final
  {
    assert Relevant(e, ids) && SessionOf(e) == (e.key.id, e.key.session);
  }

  lemma ScoresAreSelected(queue: seq<Entry>, ids: set<TaskId>, final: map<SessionKey, Entry>, id: TaskId,
                          scores: seq<real>)
    requires FinalOf(queue, ids, final) && HasScores(final, id, scores)
    ensures SelectedScores(queue, ids, id, scores)
  {
    hide FinalOf, IsPick;
    var sessions :| IsScoreList(final, id, sessions, scores);
    var picks := seq(|sessions|, i requires 0 <= i < |sessions| => final[(id, sessions[i])]);
    forall i | 0 <= i < |sessions|
      ensures id in ids && IsPick(queue, id, sessions[i], picks[i], scores[i])
    {
      FinalPick(queue, ids, final, id, sessions[i]);
    }
    forall e | e in queue && e.status == "success" && e.key.Trajectory? && e.key.id == id && id in ids
      ensures e.key.session in sessions
    {
      FinalCovers(queue, ids, final, e);
    }
    if |sessions| > 0 {
      FinalPick(queue, ids, final, id, sessions[0]);
    }
    assert Selected(queue, ids, id, sessions, picks, scores);
  }

  /** A prompt's status is read under its task, an empty one as unknown, and nothing else is. */
  lemma {:induction false} StatusesExactly(queue: seq<Entry>, ids: set<TaskId>, id: TaskId)
    requires DistinctKeys(queue)
    ensures id in StatusesOf(queue, ids) <==> id in ids && exists e :: e in queue && e.key == Prompt(id)
    ensures forall e :: e in queue && e.key == Prompt(id) && id in ids ==>
              StatusesOf(queue, ids)[id] == if e.status == "" then "unknown" else e.status
  {
    if |queue| > 0 {
      var n := |queue| - 1;
      StatusesExactly(queue[..n], ids, id);
      assert queue == queue[..n] + [queue[n]];
      forall e | e in queue[..n]
        ensures e.key != queue[n].key
      {
        var i :| 0 <= i < n && queue[i] == e;
      }
    }
  }

  lemma FinalGrows(partition: seq<Entry>, ids: set<TaskId>, final: map<SessionKey, Entry>, e: Entry)
    requires FinalOf(partition, ids, final)
    ensures forall k :: k in final ==> final[k].key.Trajectory?
    ensures FinalOf(partition + [e], ids,
                    if Relevant(e, ids) && (SessionOf(e) !in final || final[SessionOf(e)].key.index < e.key.index)
                    then final[SessionOf(e) := e] else final)
  {
  }

  lemma KeyOrder()
    ensures TotalOrder(KeyLe)
  {
  }

  lemma {:induction false} SessionsMembers(keys: seq<SessionKey>, id: TaskId)
    ensures forall s: nat :: s in SessionsFor(keys, id) <==> (id, s) in keys
  {
    if |keys| > 0 {
      var rest, last := keys[..|keys| - 1], keys[|keys| - 1];
      assert keys == rest + [last];
      SessionsMembers(rest, id);
    }
  }

  ghost predicate StrictlySorted(keys: seq<SessionKey>) {
    forall i, j :: 0 <= i < j < |keys| ==> KeyLe(keys[i], keys[j]) && keys[i] != keys[j]
  }

  lemma {:induction false} SessionsAscend(keys: seq<SessionKey>, id: TaskId)
    requires StrictlySorted(keys)
    ensures Ascending(SessionsFor(keys, id))
  {
    if |keys| > 0 {
      var n := |keys| - 1;
      SessionsAscend(keys[..n], id);
      SessionsMembers(keys[..n], id);
      var before := SessionsFor(keys[..n], id);
      forall i | 0 <= i < |before| && keys[n].0 == id
        ensures before[i] < keys[n].1
      {
        var s := before[i];
        assert s in before;
        var k := (id, s);
        assert k in keys[..n];
        var j :| 0 <= j < n && keys[j] == k;
      }
    }
  }

  lemma {:induction false} ScoresMatch(keys: seq<SessionKey>, final: map<SessionKey, Entry>, id: TaskId)
    requires forall k :: k in keys ==> k in final
    ensures var sessions, scores := SessionsFor(keys, id), ScoresFor(keys, final, id);
            && |scores| == |sessions|
            && forall i :: 0 <= i < |sessions| ==>
                 (id, sessions[i]) in final && scores[i] == final[(id, sessions[i])].score
  {
    if |keys| > 0 {
      var k := keys[|keys| - 1];
      assert k in keys;
      ScoresMatch(keys[..|keys| - 1], final, id);
    }
  }

  lemma ScoresOfKeys(keys: seq<SessionKey>, final: map<SessionKey, Entry>, id: TaskId)
    requires SortedBy(KeyLe, keys) && Distinct(keys) && forall k :: k in keys <==> k in final
    ensures HasScores(final, id, ScoresFor(keys, final, id))
    ensures |ScoresFor(keys, final, id)| > 0 ==> exists s: nat :: (id, s) in final
  {
    hide SessionsFor, ScoresFor;
    assert StrictlySorted(keys);
    SessionsMembers(keys, id);
    SessionsAscend(keys, id);
    ScoresMatch(keys, final, id);
    var sessions := SessionsFor(keys, id);
    assert IsScoreList(final, id, sessions, ScoresFor(keys, final, id));
    if |sessions| > 0 {
      assert (id, sessions[0]) in final;
    }
  }

  /** The scan that keeps the highest index of each session, and the grouping of the sorted sessions by task. */
  method ReadScores(ids: set<TaskId>, partition: seq<Entry>)
    returns (scores: Scores, statuses: Statuses, ghost final: map<SessionKey, Entry>)
    ensures FinalOf(partition, ids, final)
    ensures statuses == StatusesOf(partition, ids)
    ensures forall id :: id in scores ==> id in ids && |scores[id]| > 0
    ensures forall id :: HasScores(final, id, ScoresOf(scores, id))
    ensures forall id :: SelectedScores(partition, ids, id, ScoresOf(scores, id))
  {
    hide SelectedScores, FinalOf;
    var best: map<SessionKey, Entry>, order: seq<SessionKey>;
    best, order, statuses := ScanPartition(ids, partition);
    final := best;
    var keys := Sort(KeyLe, order);
    KeyOrder();
    SortCorrect(KeyLe, order);
    SortDistinct(KeyLe, order);
    scores := GroupByTask(keys, best);
    forall id: TaskId
      ensures HasScores(final, id, ScoresOf(scores, id))
      ensures id in scores ==> id in ids
    {
      ScoresOfKeys(keys, best, id);
      FinalWithin(partition, ids, best);
    }
    forall id: TaskId
      ensures SelectedScores(partition, ids, id, ScoresOf(scores, id))
    {
      ScoresAreSelected(partition, ids, best, id, ScoresOf(scores, id));
    }
  }

  lemma FinalWithin(partition: seq<Entry>, ids: set<TaskId>, final: map<SessionKey, Entry>)
    requires FinalOf(partition, ids, final)
    ensures forall k :: k in final ==> k.0 in ids
  {
  }

  ghost predicate Keyed(order: seq<SessionKey>, final: map<SessionKey, Entry>) {
    Distinct(order) && forall k :: k in order <==> k in final
  }

  lemma KeyedGrows(order: seq<SessionKey>, final: map<SessionKey, Entry>, k: SessionKey, e: Entry)
    requires Keyed(order, final)
    ensures Keyed(if k in final then order else order + [k], final[k := e])
  {
  }

  lemma NothingScanned(ids: set<TaskId>)
    ensures FinalOf([], ids, map[]) && Keyed([], map[]) && StatusesOf([], ids) == map[]
  {
  }

  /** What one entry does to the scan. */
  method ScanEntry(ids: set<TaskId>, ghost scanned: seq<Entry>, e: Entry, finalBefore: map<SessionKey, Entry>,
                   orderBefore: seq<SessionKey>)
    returns (final: map<SessionKey, Entry>, order: seq<SessionKey>)
    requires FinalOf(scanned, ids, finalBefore) && Keyed(orderBefore, finalBefore)
    ensures FinalOf(scanned + [e], ids, final) && Keyed(order, final)
  {
    hide FinalOf, Keyed;
    final, order := finalBefore, orderBefore;
    FinalGrows(scanned, ids, final, e);
    if e.key.Trajectory? && e.key.id in ids && e.status == "success" {
      var k := SessionOf(e);
      KeyedGrows(order, final, k, e);
      if k !in final {
        order := order + [k];
        final := final[k := e];
      } else if final[k].key.index < e.key.index {
        final := final[k := e];
      }
    }
  }

  lemma StatusesNext(scanned: seq<Entry>, ids: set<TaskId>, e: Entry)
    ensures StatusesOf(scanned + [e], ids)
         == if e.key.Prompt? && e.key.id in ids
            then StatusesOf(scanned, ids)[e.key.id := if e.status == "" then "unknown" else e.status]
            else StatusesOf(scanned, ids)
  {
    assert (scanned + [e])[..|scanned|] == scanned;
  }

  method ScanPartition(ids: set<TaskId>, partition: seq<Entry>)
    returns (final: map<SessionKey, Entry>, order: seq<SessionKey>, statuses: Statuses)
    ensures FinalOf(partition, ids, final) && statuses == StatusesOf(partition, ids)
    ensures Keyed(order, final)
  {
    hide FinalOf, Keyed, StatusesOf;
    final, order, statuses := map[], [], map[];
    NothingScanned(ids);
    for i := 0 to |partition|
      invariant FinalOf(partition[..i], ids, final) && statuses == StatusesOf(partition[..i], ids)
      invariant Keyed(order, final)
    {
      var e := partition[i];
      assert partition[..i + 1] == partition[..i] + [e];
      StatusesNext(partition[..i], ids, e);
      if e.key.Prompt? && e.key.id in ids {
        statuses := statuses[e.key.id := if e.status == "" then "unknown" else e.status];
      }
      final, order := ScanEntry(ids, partition[..i], e, final, order);
    }
    assert partition[..|partition|] == partition;
  }

  method GroupByTask(keys: seq<SessionKey>, final: map<SessionKey, Entry>) returns (scores: Scores)
    requires forall k :: k in keys ==> k in final
    ensures forall id :: ScoresOf(scores, id) == ScoresFor(keys, final, id)
    ensures forall id :: id in scores ==> |scores[id]| > 0
  {
    scores := map[];
    for i := 0 to |keys|
      invariant forall id :: ScoresOf(scores, id) == ScoresFor(keys[..i], final, id)
      invariant forall id :: id in scores ==> |scores[id]| > 0
    {
      var k := keys[i];
      assert keys[..i + 1][..i] == keys[..i];
      scores := scores[k.0 := (if k.0 in scores then scores[k.0] else []) + [final[k].score]];
    }
    assert keys[..|keys|] == keys;
  }

  // ---------------------------------------------------------------------
  // What a read determines, and when a later read repeats it.

  lemma {:induction false} AscendingUnique(a: seq<nat>, b: seq<nat>)
    requires Ascending(a) && Ascending(b) && forall s: nat :: s in a <==> s in b
    ensures a == b
  {
    SameSize(a, b);
    if |a| > 0 {
      var x, y := a[|a| - 1], b[|b| - 1];
      assert x in b && y in a;
      assert x == y;
      var c, d := a[..|a| - 1], b[..|b| - 1];
      forall s: nat
        ensures s in c <==> s in d
      {
        assert s in a <==> s in c || s == x;
        assert s in b <==> s in d || s == y;
      }
      AscendingUnique(c, d);
    }
  }

  /** The score list of a task is determined by the final trajectories. */
  lemma ScoreListUnique(final: map<SessionKey, Entry>, id: TaskId, p: seq<real>, q: seq<real>)
    requires HasScores(final, id, p) && HasScores(final, id, q)
    ensures p == q
  {
    var a :| IsScoreList(final, id, a, p);
    var b :| IsScoreList(final, id, b, q);
    AscendingUnique(a, b);
  }

  /** Two selections agree on a task's sessions. */
  ghost predicate SameSelection(first: map<SessionKey, Entry>, second: map<SessionKey, Entry>, id: TaskId) {
    forall s: nat ::
      ((id, s) in first <==> (id, s) in second) && ((id, s) in first ==> first[(id, s)] == second[(id, s)])
  }

  /** Nothing in the queue opens a new session of a task or goes beyond the selected index of one. */
  ghost predicate Settled(queue: seq<Entry>, ids: set<TaskId>, selected: map<SessionKey, Entry>, id: TaskId)
    requires forall k :: k in selected ==> selected[k].key.Trajectory?
  {
    forall e :: e in queue && Relevant(e, ids) && e.key.id == id ==>
      SessionOf(e) in selected && e.key.index <= selected[SessionOf(e)].key.index
  }

  /**
   * A later read of a queue that only grew selects the same trajectories of a
   * task if and only if nothing that was added opens a new session of it or
   * raises a session's index.
   */
  lemma RereadExactly(early: seq<Entry>, late: seq<Entry>, ids: set<TaskId>,
                      first: map<SessionKey, Entry>, second: map<SessionKey, Entry>, id: TaskId)
    requires DistinctKeys(late) && (forall e :: e in early && Relevant(e, ids) ==> e in late)
    requires FinalOf(early, ids, first) && FinalOf(late, ids, second)
    ensures SameSelection(first, second, id) <==> Settled(late, ids, first, id)
  {
    if Settled(late, ids, first, id) {
      forall s: nat
        ensures (id, s) in first <==> (id, s) in second
        ensures (id, s) in first ==> first[(id, s)] == second[(id, s)]
      {
        var k := (id, s);
        if k in first {
          assert first[k] in late;
        }
        if k in second {
          var e := second[k];
          assert e in late && Relevant(e, ids) && k in first;
          SameKeySameEntry(late, e, first[k]);
        }
      }
    }
  }

  lemma SameKeySameEntry(queue: seq<Entry>, e: Entry, f: Entry)
    requires DistinctKeys(queue) && e in queue && f in queue && e.key == f.key
    ensures e == f
  {
    var i :| 0 <= i < |queue| && queue[i] == e;
    var j :| 0 <= j < |queue| && queue[j] == f;
  }

  lemma SelectionKeepsScores(first: map<SessionKey, Entry>, second: map<SessionKey, Entry>, id: TaskId, p: seq<real>)
    requires SameSelection(first, second, id) && HasScores(first, id, p)
    ensures HasScores(second, id, p)
  {
    var a :| IsScoreList(first, id, a, p);
    assert IsScoreList(second, id, a, p);
  }

  /** The same selection gives the same score list. */
  lemma SameSelectionSameScores(first: map<SessionKey, Entry>, second: map<SessionKey, Entry>, id: TaskId,
                                p: seq<real>, q: seq<real>)
    requires SameSelection(first, second, id) && HasScores(first, id, p) && HasScores(second, id, q)
    ensures p == q
  {
    SelectionKeepsScores(first, second, id, p);
    ScoreListUnique(second, id, p, q);
  }

  /** What a read returns: the scores of some selection that is final for the queue, and the prompts' statuses. */
  ghost predicate IsRead(queue: seq<Entry>, ids: set<TaskId>, scores: Scores, statuses: Statuses) {
    && statuses == StatusesOf(queue, ids)
    && (forall id :: id in scores ==> id in ids && |scores[id]| > 0)
    && exists final :: FinalOf(queue, ids, final) && forall id :: HasScores(final, id, ScoresOf(scores, id))
  }

  /** Reading an unchanged queue again gives a task the scores it had. */
  lemma ReadRepeats(queue: seq<Entry>, ids: set<TaskId>, final: map<SessionKey, Entry>, id: TaskId, held: seq<real>,
                    scores: Scores, statuses: Statuses)
    requires DistinctKeys(queue) && FinalOf(queue, ids, final) && HasScores(final, id, held)
    requires IsRead(queue, ids, scores, statuses)
    ensures ScoresOf(scores, id) == held
  {
    hide HasScores;
    var again :| FinalOf(queue, ids, again) && forall x :: HasScores(again, x, ScoresOf(scores, x));
    RereadExactly(queue, queue, ids, final, again, id);
    SameSelectionSameScores(final, again, id, held, ScoresOf(scores, id));
  }

  // ---------------------------------------------------------------------
  // Writing to the queue.

  /** A dictionary write: a known key is overwritten in place, a new one is appended. */
  function Put(queue: seq<Entry>, e: Entry): seq<Entry> {
    if |queue| == 0 then [e]
    else if queue[0].key == e.key then [e] + queue[1..]
    else [queue[0]] + Put(queue[1..], e)
  }

  /** A successful trajectory is written once; anything else may be rewritten. */
  predicate MayPut(queue: seq<Entry>, e: Entry) {
    forall x :: x in queue && x.key == e.key ==> !Success(x)
  }

  lemma DistinctKeysTail(queue: seq<Entry>)
    requires DistinctKeys(queue) && |queue| > 0
    ensures DistinctKeys(queue[1..]) && forall x :: x in queue[1..] ==> x.key != queue[0].key
  {
    forall x | x in queue[1..]
      ensures x.key != queue[0].key
    {
      var i :| 0 <= i < |queue| - 1 && queue[1..][i] == x;
      assert queue[i + 1] == x;
    }
  }

  lemma {:induction false} PutMembers(queue: seq<Entry>, e: Entry)
    requires DistinctKeys(queue)
    ensures DistinctKeys(Put(queue, e))
    ensures forall x :: x in Put(queue, e) <==> x == e || (x in queue && x.key != e.key)
  {
    if |queue| > 0 {
      DistinctKeysTail(queue);
      assert queue == [queue[0]] + queue[1..];
      if queue[0].key != e.key {
        PutMembers(queue[1..], e);
        var rest := Put(queue[1..], e);
        forall j | 0 <= j < |rest|
          ensures rest[j].key != queue[0].key
        {
          var x := rest[j];
          assert x in rest;
        }
      }
    }
  }

  /** The written success neither opens a session nor goes beyond the best index of one. */
  ghost predicate Quiet(queue: seq<Entry>, e: Entry) {
    Success(e) ==>
      exists x :: x in queue && Success(x) && SessionOf(x) == SessionOf(e) && e.key.index < x.key.index
  }

  /** A write leaves a task's selection as it was exactly when it is quiet for that task. */
  lemma QuietExactly(queue: seq<Entry>, e: Entry, ids: set<TaskId>, first: map<SessionKey, Entry>,
                     second: map<SessionKey, Entry>, id: TaskId)
    requires DistinctKeys(queue) && MayPut(queue, e) && id in ids
    requires FinalOf(queue, ids, first) && FinalOf(Put(queue, e), ids, second)
    ensures SameSelection(first, second, id) <==> (Success(e) && e.key.id == id ==> Quiet(queue, e))
  {
    hide SameSelection, Put;
    var late := Put(queue, e);
    PutMembers(queue, e);
    RereadExactly(queue, late, ids, first, second, id);
    if Success(e) && e.key.id == id {
      assert e in late && Relevant(e, ids);
      if Settled(late, ids, first, id) {
        var x := first[SessionOf(e)];
        assert x in queue && Success(x) && SessionOf(x) == SessionOf(e);
        assert x.key != e.key;
      }
    }
  }

  lemma {:induction false} FinalExists(queue: seq<Entry>, ids: set<TaskId>) returns (final: map<SessionKey, Entry>)
    ensures FinalOf(queue, ids, final)
  {
    final := map[];
    if |queue| > 0 {
      var n := |queue| - 1;
      final := FinalExists(queue[..n], ids);
      assert queue == queue[..n] + [queue[n]];
      FinalGrows(queue[..n], ids, final, queue[n]);
      var e := queue[n];
      if Relevant(e, ids) && (SessionOf(e) !in final || final[SessionOf(e)].key.index < e.key.index) {
        final := final[SessionOf(e) := e];
      }
    }
  }
}
