/**
 * Adaptive sessions: the store of Teacher-scored prefixes that a session prunes
 * as it accepts turns, the cropping and relabelling of finished trajectories,
 * and the client that decorates generation.
 *
 * A Python prefix test `t[:len(p)] == p` is Dafny's `p <= t` on sequences.
 */
module ScoredPrefixes {
  import opened Prelude
  import opened AdaptiveFrontier
  import opened TeacherLabels

  datatype ScoredPrefix = ScoredPrefix(tokens: seq<Token>, logprobs: seq<Float>)

  datatype Turn = Turn(tokens: seq<Token>, scores: Scores)

  datatype Session = Session(entropies: seq<Float>, masses: seq<Float>, prefixes: seq<ScoredPrefix>, stopped: bool)

  const NEW_SESSION := Session([], [], [], false)

  /** The stored prefixes that do not begin the given tokens. */
  function Unrelated(store: seq<ScoredPrefix>, tokens: seq<Token>): (kept: seq<ScoredPrefix>)
    ensures forall p :: p in kept <==> p in store && !(p.tokens <= tokens)
  {
    if |store| == 0 then []
    else
      var p := store[|store| - 1];
      Unrelated(store[..|store| - 1], tokens) + if p.tokens <= tokens then [] else [p]
  }

  /** The new entropy list decides; a rejected turn leaves the store alone. */
  function Accepted(rule: Rule, s: Session, turn: Turn): Session
    requires rule.Valid()
  {
    var entropies := s.entropies + [turn.scores.entropy];
    var stopped := RetainedTurns(rule, entropies).Some?;
    Session(entropies, s.masses + [turn.scores.mass],
            if stopped then s.prefixes
            else Unrelated(s.prefixes, turn.tokens) + [ScoredPrefix(turn.tokens, turn.scores.logprobs)],
            stopped)
  }

  /** A session after a list of scored turns. */
  function After(rule: Rule, turns: seq<Turn>): Session
    requires rule.Valid()
  {
    if |turns| == 0 then NEW_SESSION else Accepted(rule, After(rule, turns[..|turns| - 1]), turns[|turns| - 1])
  }

  function Entropies(turns: seq<Turn>): seq<Float> {
    seq(|turns|, i requires 0 <= i < |turns| => turns[i].scores.entropy)
  }

  // ---------------------------------------------------------------------
  // Which turns a session accepts.

  lemma EmptyNeverStops(rule: Rule)
    requires rule.Valid()
    ensures RetainedTurns(rule, []).None?
  {
  }

  lemma AcceptedEntropies(rule: Rule, s: Session, turn: Turn)
    requires rule.Valid()
    ensures var t := Accepted(rule, s, turn);
            && t.entropies == s.entropies + [turn.scores.entropy]
            && (t.stopped <==> RetainedTurns(rule, t.entropies).Some?)
  {
    hide RetainedTurns;
  }

  lemma {:induction false} SessionEntropies(rule: Rule, turns: seq<Turn>)
    requires rule.Valid()
    ensures After(rule, turns).entropies == Entropies(turns)
    ensures After(rule, turns).stopped <==> RetainedTurns(rule, Entropies(turns)).Some?
  {
    hide RetainedTurns, Accepted;
    if |turns| > 0 {
      var rest, last := turns[..|turns| - 1], turns[|turns| - 1];
      SessionEntropies(rule, rest);
      AcceptedEntropies(rule, After(rule, rest), last);
      assert Entropies(turns) == Entropies(rest) + [last.scores.entropy];
    } else {
      EmptyNeverStops(rule);
      assert Entropies(turns) == [];
    }
  }

  /** Once stopped, a session stays stopped whatever turns follow. */
  lemma StaysStopped(rule: Rule, turns: seq<Turn>, more: seq<Turn>)
    requires rule.Valid() && After(rule, turns).stopped
    ensures After(rule, turns + more).stopped
  {
    hide RetainedTurns, After;
    SessionEntropies(rule, turns);
    SessionEntropies(rule, turns + more);
    assert Entropies(turns + more) == Entropies(turns) + Entropies(more);
    StableUnderExtension(rule, Entropies(turns), Entropies(more));
  }

  /** The accepted turns are exactly the first ones, as many as the rule leaves before its first frontier. */
  lemma AcceptsAPrefix(rule: Rule, turns: seq<Turn>, i: nat)
    requires rule.Valid() && i < |turns|
    ensures After(rule, turns[..i + 1]).stopped <==> AcceptedTurns(rule, Entropies(turns)) <= i
  {
    hide RetainedTurns, IsFrontier, AcceptedTurns, After;
    var es := Entropies(turns);
    SessionEntropies(rule, turns[..i + 1]);
    assert Entropies(turns[..i + 1]) == es[..i + 1];
    SessionAccepts(rule, es);
    if turn :| IsFrontier(rule, es, turn) {
      StopsAtFirstFrontier(rule, es, turn, i + 1);
    } else {
      RetainedMeansFrontier(rule, es);
      if After(rule, turns[..i + 1]).stopped {
        assert es[..i + 1] + es[i + 1..] == es;
        StableUnderExtension(rule, es[..i + 1], es[i + 1..]);
        assert false;
      }
    }
  }

  // ---------------------------------------------------------------------
  // What the store holds.

  /** No stored sequence begins a later stored one. */
  ghost predicate NoForwardPrefix(store: seq<ScoredPrefix>) {
    forall i, j :: 0 <= i < j < |store| ==> !(store[i].tokens <= store[j].tokens)
  }

  ghost predicate Covers(store: seq<ScoredPrefix>, tokens: seq<Token>) {
    exists p :: p in store && tokens <= p.tokens
  }

  /** Turn i was accepted. */
  predicate TurnAccepted(rule: Rule, turns: seq<Turn>, i: nat)
    requires rule.Valid() && i < |turns|
  {
    !After(rule, turns[..i + 1]).stopped
  }

  ghost predicate FromTurns(rule: Rule, turns: seq<Turn>, p: ScoredPrefix)
    requires rule.Valid()
  {
    exists i: nat ::
      i < |turns| && TurnAccepted(rule, turns, i) && p == ScoredPrefix(turns[i].tokens, turns[i].scores.logprobs)
  }

  lemma {:induction false} UnrelatedKeepsOrder(store: seq<ScoredPrefix>, tokens: seq<Token>)
    requires NoForwardPrefix(store)
    ensures NoForwardPrefix(Unrelated(store, tokens))
  {
    if |store| > 0 {
      var rest, last := store[..|store| - 1], store[|store| - 1];
      UnrelatedKeepsOrder(rest, tokens);
      var kept := Unrelated(rest, tokens);
      forall i | 0 <= i < |kept|
        ensures !(kept[i].tokens <= last.tokens)
      {
        var p := kept[i];
        assert p in kept && p in rest;
      }
    }
  }

  lemma AppendKeepsOrder(store: seq<ScoredPrefix>, p: ScoredPrefix)
    requires NoForwardPrefix(store)
    ensures NoForwardPrefix(Unrelated(store, p.tokens) + [p])
  {
    UnrelatedKeepsOrder(store, p.tokens);
    var kept := Unrelated(store, p.tokens);
    forall i | 0 <= i < |kept|
      ensures !(kept[i].tokens <= p.tokens)
    {
      var q := kept[i];
      assert q in kept;
    }
  }

  lemma CoverSurvives(store: seq<ScoredPrefix>, p: ScoredPrefix, tokens: seq<Token>)
    requires Covers(store, tokens) || tokens <= p.tokens
    ensures Covers(Unrelated(store, p.tokens) + [p], tokens)
  {
    var grown := Unrelated(store, p.tokens) + [p];
    assert p in grown;
    if !(tokens <= p.tokens) {
      var q :| q in store && tokens <= q.tokens;
      assert q.tokens <= p.tokens ==> tokens <= p.tokens;
      assert q in grown;
    }
  }

  lemma EarlierTurn(rule: Rule, turns: seq<Turn>, i: nat)
    requires rule.Valid() && i < |turns| - 1
    ensures TurnAccepted(rule, turns[..|turns| - 1], i) <==> TurnAccepted(rule, turns, i)
  {
    assert turns[..|turns| - 1][..i + 1] == turns[..i + 1];
  }

  lemma {:induction false} StoreHoldsTurns(rule: Rule, turns: seq<Turn>, p: ScoredPrefix)
    requires rule.Valid() && p in After(rule, turns).prefixes
    ensures FromTurns(rule, turns, p)
  {
    hide RetainedTurns;
    var n := |turns| - 1;
    var rest, last := turns[..n], turns[n];
    assert turns[..n + 1] == turns;
    if TurnAccepted(rule, turns, n) && p == ScoredPrefix(last.tokens, last.scores.logprobs) {
    } else {
      assert p in After(rule, rest).prefixes;
      StoreHoldsTurns(rule, rest, p);
      var i: nat :| i < |rest| && TurnAccepted(rule, rest, i)
                    && p == ScoredPrefix(rest[i].tokens, rest[i].scores.logprobs);
      EarlierTurn(rule, turns, i);
    }
  }

  lemma {:induction false} StoreIsOrdered(rule: Rule, turns: seq<Turn>)
    requires rule.Valid()
    ensures NoForwardPrefix(After(rule, turns).prefixes)
  {
    hide RetainedTurns, NoForwardPrefix;
    if |turns| > 0 {
      var rest, last := turns[..|turns| - 1], turns[|turns| - 1];
      StoreIsOrdered(rule, rest);
      AppendKeepsOrder(After(rule, rest).prefixes, ScoredPrefix(last.tokens, last.scores.logprobs));
    } else {
      EmptyIsOrdered();
    }
  }

  lemma EmptyIsOrdered()
    ensures NoForwardPrefix([])
  {
  }

  lemma {:induction false} StoreCoversTurns(rule: Rule, turns: seq<Turn>, i: nat)
    requires rule.Valid() && i < |turns| && TurnAccepted(rule, turns, i)
    ensures Covers(After(rule, turns).prefixes, turns[i].tokens)
  {
    hide RetainedTurns;
    var rest, last := turns[..|turns| - 1], turns[|turns| - 1];
    if i < |turns| - 1 {
      EarlierTurn(rule, turns, i);
      StoreCoversTurns(rule, rest, i);
      if !After(rule, turns).stopped {
        CoverSurvives(After(rule, rest).prefixes, ScoredPrefix(last.tokens, last.scores.logprobs), turns[i].tokens);
      }
    } else {
      assert turns[..i + 1] == turns;
      CoverSurvives(After(rule, rest).prefixes, ScoredPrefix(last.tokens, last.scores.logprobs), last.tokens);
    }
  }

  lemma NothingAccepted(rule: Rule)
    requires rule.Valid()
    ensures After(rule, []) == NEW_SESSION
  {
  }

  function RecordOf(turn: Turn): ScoredPrefix {
    ScoredPrefix(turn.tokens, turn.scores.logprobs)
  }

  /** Turn i was accepted, and no accepted turn after it extends its sequence. */
  ghost predicate Survives(rule: Rule, turns: seq<Turn>, i: nat)
    requires rule.Valid()
  {
    && i < |turns| && TurnAccepted(rule, turns, i)
    && forall j: nat :: i < j < |turns| && TurnAccepted(rule, turns, j) ==> !(turns[i].tokens <= turns[j].tokens)
  }

  /** What one more turn does to the surviving ones. */
  lemma SurvivesNext(rule: Rule, turns: seq<Turn>, i: nat)
    requires rule.Valid() && i < |turns| - 1
    ensures var n := |turns| - 1;
            Survives(rule, turns, i) <==>
              Survives(rule, turns[..n], i) && !(TurnAccepted(rule, turns, n) && turns[i].tokens <= turns[n].tokens)
  {
    hide TurnAccepted;
    var n := |turns| - 1;
    EarlierTurn(rule, turns, i);
    forall j: nat | i < j < n
      ensures TurnAccepted(rule, turns[..n], j) <==> TurnAccepted(rule, turns, j)
    {
      EarlierTurn(rule, turns, j);
    }
  }

  lemma StoreNext(rule: Rule, turns: seq<Turn>, p: ScoredPrefix)
    requires rule.Valid() && |turns| > 0
    ensures var n := |turns| - 1;
            var before := After(rule, turns[..n]).prefixes;
            p in After(rule, turns).prefixes <==>
              if TurnAccepted(rule, turns, n) then
                p == RecordOf(turns[n]) || (p in before && !(p.tokens <= turns[n].tokens))
              else p in before
  {
    hide RetainedTurns;
    assert turns[..|turns| - 1 + 1] == turns;
  }

  /** The store holds exactly the records of the accepted turns that no later accepted turn extends. */
  lemma {:induction false} StoreExactly(rule: Rule, turns: seq<Turn>, p: ScoredPrefix)
    requires rule.Valid()
    ensures p in After(rule, turns).prefixes <==> exists i: nat :: Survives(rule, turns, i) && p == RecordOf(turns[i])
  {
    hide After, TurnAccepted;
    if |turns| == 0 {
      NothingAccepted(rule);
    } else {
      var n := |turns| - 1;
      StoreExactly(rule, turns[..n], p);
      StoreNext(rule, turns, p);
      if p in After(rule, turns).prefixes {
        if TurnAccepted(rule, turns, n) && p == RecordOf(turns[n]) {
          assert Survives(rule, turns, n);
        } else {
          var i: nat :| Survives(rule, turns[..n], i) && p == RecordOf(turns[..n][i]);
          SurvivesNext(rule, turns, i);
        }
      }
      if i: nat :| Survives(rule, turns, i) && p == RecordOf(turns[i]) {
        if i < n {
          SurvivesNext(rule, turns, i);
        }
      }
    }
  }

  lemma {:induction false} LastStored(rule: Rule, turns: seq<Turn>, i: nat)
    requires rule.Valid() && i < |turns| && TurnAccepted(rule, turns, i)
    requires forall j: nat :: i < j < |turns| ==> !TurnAccepted(rule, turns, j)
    ensures var store := After(rule, turns).prefixes; |store| > 0 && store[|store| - 1].tokens == turns[i].tokens
  {
    hide RetainedTurns;
    var n := |turns| - 1;
    assert turns[..n + 1] == turns;
    if i < n {
      assert !TurnAccepted(rule, turns, n);
      var rest := turns[..n];
      EarlierTurn(rule, turns, i);
      forall j: nat | i < j < |rest|
        ensures !TurnAccepted(rule, rest, j)
      {
        EarlierTurn(rule, turns, j);
      }
      LastStored(rule, rest, i);
    }
  }

  // ---------------------------------------------------------------------
  // Finalization: cropping a trajectory to a stored prefix and attaching its labels.

  datatype Labels = Labels(ids: seq<Token>, logprobs: seq<Float>)

  datatype View = View(
    promptIds: seq<Token>,
    responseIds: seq<Token>,
    mask: seq<bool>,
    responseLogprobs: Option<seq<Float>>,
    routedExperts: Option<seq<int>>,
    labels: Option<Labels>)
  {
    function Tokens(): seq<Token> {
      promptIds + responseIds
    }
  }

  datatype Outcome = Untouched | NoMatch | Retained(view: View)

  predicate Comparable(a: seq<Token>, b: seq<Token>) {
    a <= b || b <= a
  }

  function Take<T>(s: seq<T>, n: nat): seq<T> {
    if n < |s| then s[..n] else s
  }

  function TakeIfAny<T>(s: Option<seq<T>>, n: nat): Option<seq<T>> {
    match s
    case None => None
    case Some(values) => Some(Take(values, n))
  }

  function LatestMatch(store: seq<ScoredPrefix>, tokens: seq<Token>): (r: Option<ScoredPrefix>)
    ensures r.Some? ==> r.value in store && Comparable(r.value.tokens, tokens)
    ensures r.None? <==> forall p :: p in store ==> !Comparable(p.tokens, tokens)
  {
    if |store| == 0 then None
    else
      var p := store[|store| - 1];
      if Comparable(p.tokens, tokens) then Some(p) else LatestMatch(store[..|store| - 1], tokens)
  }

  function Crop(v: View, p: ScoredPrefix): Outcome {
    var tokens := v.Tokens();
    var length := Shorter(|tokens|, |p.tokens|);
    if length <= |v.promptIds| then Untouched
    else
      var n := length - |v.promptIds|;
      Retained(View(v.promptIds, Take(v.responseIds, n), Take(v.mask, n), TakeIfAny(v.responseLogprobs, n),
                    TakeIfAny(v.routedExperts, length),
                    Some(Labels(tokens[1..length] + [0], Take(p.logprobs, length - 1) + [DUMMY_LABEL]))))
  }

  function AttachOne(store: seq<ScoredPrefix>, v: View): Outcome {
    if true !in v.mask then Untouched
    else
      match LatestMatch(store, v.Tokens())
      case None => NoMatch
      case Some(p) => Crop(v, p)
  }

  /** A cropped trajectory lies inside its prefix and carries the Teacher's label of each of its own next tokens. */
  ghost predicate Labelled(teacher: Teacher, v: View, w: View)
    requires ReportsSampled(teacher)
  {
    && w.promptIds == v.promptIds && |w.responseIds| > 0
    && w.responseIds <= v.responseIds && w.mask <= v.mask && |w.mask| == |w.responseIds|
    && w.labels.Some?
    && |w.labels.value.ids| == |w.Tokens()|
    && (forall i :: 0 <= i < |w.Tokens()| - 1 ==> w.labels.value.ids[i] == w.Tokens()[i + 1])
    && LabelsOf(teacher, w.Tokens(), w.labels.value.logprobs)
  }

  lemma CropTokens(v: View, p: ScoredPrefix)
    requires Comparable(p.tokens, v.Tokens()) && Crop(v, p).Retained?
    ensures var w, length := Crop(v, p).view, Shorter(|v.Tokens()|, |p.tokens|);
            w.Tokens() == v.Tokens()[..length] == p.tokens[..length] && length > |v.promptIds|
  {
    var w, tokens, length := Crop(v, p).view, v.Tokens(), Shorter(|v.Tokens()|, |p.tokens|);
    assert w.Tokens() == tokens[..length];
  }

  lemma CropLabels(teacher: Teacher, v: View, p: ScoredPrefix)
    requires ReportsSampled(teacher) && LabelsOf(teacher, p.tokens, p.logprobs)
    requires Comparable(p.tokens, v.Tokens()) && Crop(v, p).Retained?
    ensures var w := Crop(v, p).view;
            w.labels.Some? && LabelsOf(teacher, w.Tokens(), w.labels.value.logprobs)
  {
    CropTokens(v, p);
    var w, length := Crop(v, p).view, Shorter(|v.Tokens()|, |p.tokens|);
    forall i | 0 <= i < length - 1
      ensures w.labels.value.logprobs[i] == LabelAt(teacher, w.Tokens()[..i + 1], w.Tokens()[i + 1])
    {
      assert w.Tokens()[..i + 1] == p.tokens[..i + 1];
    }
  }

  /** Whichever comparable stored prefix is chosen, cropping to it labels the trajectory correctly. */
  lemma CropIsLabelled(teacher: Teacher, v: View, p: ScoredPrefix)
    requires ReportsSampled(teacher) && LabelsOf(teacher, p.tokens, p.logprobs)
    requires Comparable(p.tokens, v.Tokens()) && |v.mask| == |v.responseIds| && Crop(v, p).Retained?
    ensures Labelled(teacher, v, Crop(v, p).view) && Crop(v, p).view.Tokens() <= p.tokens
  {
    hide LabelsOf;
    CropTokens(v, p);
    CropLabels(teacher, v, p);
  }

  /** Every scored turn of the session carries the Teacher's labels of its sequence. */
  ghost predicate ScoredBy(teacher: Teacher, turns: seq<Turn>)
    requires ReportsSampled(teacher)
  {
    forall i :: 0 <= i < |turns| ==> LabelsOf(teacher, turns[i].tokens, turns[i].scores.logprobs)
  }

  /**
   * End to end: whatever a session retains at finalization is labelled by the
   * Teacher token for token, and lies inside the sequence of an accepted turn,
   * never of the turn that stopped the session.
   */
  lemma RetainedIsLabelled(rule: Rule, teacher: Teacher, turns: seq<Turn>, v: View)
    requires rule.Valid() && ReportsSampled(teacher) && ScoredBy(teacher, turns)
    requires |v.mask| == |v.responseIds| && AttachOne(After(rule, turns).prefixes, v).Retained?
    ensures var w := AttachOne(After(rule, turns).prefixes, v).view;
            && Labelled(teacher, v, w)
            && exists i: nat :: i < |turns| && TurnAccepted(rule, turns, i) && w.Tokens() <= turns[i].tokens
  {
    hide LabelsOf, Labelled, After, Crop;
    var p := LatestMatch(After(rule, turns).prefixes, v.Tokens()).value;
    StoreHoldsTurns(rule, turns, p);
    var i: nat :| i < |turns| && TurnAccepted(rule, turns, i)
                  && p == ScoredPrefix(turns[i].tokens, turns[i].scores.logprobs);
    CropIsLabelled(teacher, v, p);
  }

  /**
   * Finalization fails on a trajectory with response tokens exactly when the
   * trajectory neither begins an accepted sequence nor extends one that no
   * later accepted sequence extends.
   */
  lemma FailsExactly(rule: Rule, turns: seq<Turn>, v: View)
    requires rule.Valid() && true in v.mask
    ensures AttachOne(After(rule, turns).prefixes, v) != NoMatch
            <==> exists i: nat :: i < |turns| && TurnAccepted(rule, turns, i)
                   && (v.Tokens() <= turns[i].tokens || (Survives(rule, turns, i) && turns[i].tokens <= v.Tokens()))
  {
    hide After, TurnAccepted;
    var store, tokens := After(rule, turns).prefixes, v.Tokens();
    if i: nat :| i < |turns| && TurnAccepted(rule, turns, i)
                 && (tokens <= turns[i].tokens || (Survives(rule, turns, i) && turns[i].tokens <= tokens)) {
      if tokens <= turns[i].tokens {
        StoreCoversTurns(rule, turns, i);
        var p :| p in store && turns[i].tokens <= p.tokens;
        assert Comparable(p.tokens, tokens);
      } else {
        StoreExactly(rule, turns, RecordOf(turns[i]));
        assert Comparable(RecordOf(turns[i]).tokens, tokens);
      }
    }
    var m := LatestMatch(store, tokens);
    if m.Some? {
      StoreExactly(rule, turns, m.value);
    }
  }

  predicate Increasing(at: seq<nat>) {
    forall k, m :: 0 <= k < m < |at| ==> at[k] < at[m]
  }

  predicate Indexes(at: seq<nat>, turns: seq<Turn>) {
    forall k :: 0 <= k < |at| ==> at[k] < |turns|
  }

  ghost function RecordsAt(turns: seq<Turn>, at: seq<nat>): (store: seq<ScoredPrefix>)
    requires Indexes(at, turns)
    ensures |store| == |at| && forall k :: 0 <= k < |at| ==> store[k] == RecordOf(turns[at[k]])
  {
    if |at| == 0 then [] else RecordsAt(turns, at[..|at| - 1]) + [RecordOf(turns[at[|at| - 1]])]
  }

  ghost function UnrelatedAt(turns: seq<Turn>, at: seq<nat>, tokens: seq<Token>): (kept: seq<nat>)
    requires Indexes(at, turns)
    ensures Indexes(kept, turns)
    ensures forall i :: i in kept <==> i in at && i < |turns| && !(turns[i].tokens <= tokens)
  {
    if |at| == 0 then []
    else
      var i := at[|at| - 1];
      UnrelatedAt(turns, at[..|at| - 1], tokens) + if turns[i].tokens <= tokens then [] else [i]
  }

  lemma {:induction false} UnrelatedRecords(turns: seq<Turn>, at: seq<nat>, tokens: seq<Token>)
    requires Indexes(at, turns)
    ensures Unrelated(RecordsAt(turns, at), tokens) == RecordsAt(turns, UnrelatedAt(turns, at, tokens))
  {
    if |at| > 0 {
      var n := |at| - 1;
      var before := UnrelatedAt(turns, at[..n], tokens);
      UnrelatedRecords(turns, at[..n], tokens);
      var store := RecordsAt(turns, at);
      assert store[..n] == RecordsAt(turns, at[..n]) && store[n] == RecordOf(turns[at[n]]);
      if turns[at[n]].tokens <= tokens {
        assert before + [] == before;
      } else {
        assert (before + [at[n]])[..|before|] == before;
      }
    }
  }

  lemma {:induction false} UnrelatedIncreasing(turns: seq<Turn>, at: seq<nat>, tokens: seq<Token>)
    requires Indexes(at, turns) && Increasing(at)
    ensures Increasing(UnrelatedAt(turns, at, tokens))
  {
    if |at| > 0 {
      var n := |at| - 1;
      var before := UnrelatedAt(turns, at[..n], tokens);
      UnrelatedIncreasing(turns, at[..n], tokens);
      forall k | 0 <= k < |before|
        ensures before[k] < at[n]
      {
        assert before[k] in before && before[k] in at[..n];
      }
    }
  }

  lemma {:induction false} RecordsOfMore(turns: seq<Turn>, at: seq<nat>, n: nat)
    requires n <= |turns| && Indexes(at, turns[..n])
    ensures Indexes(at, turns) && RecordsAt(turns[..n], at) == RecordsAt(turns, at)
  {
    if |at| > 0 {
      RecordsOfMore(turns, at[..|at| - 1], n);
    }
  }

  /** The indices of the surviving turns, in order. */
  ghost predicate Survivors(rule: Rule, turns: seq<Turn>, at: seq<nat>)
    requires rule.Valid()
  {
    Increasing(at) && Indexes(at, turns) && forall i: nat :: i in at <==> Survives(rule, turns, i)
  }

  lemma IndexesMore(kept: seq<nat>, turns: seq<Turn>, before: seq<nat>)
    requires |turns| > 0 && Increasing(kept) && Indexes(before, turns[..|turns| - 1])
    requires forall i :: i in kept ==> i in before
    ensures Increasing(kept + [|turns| - 1]) && Indexes(kept + [|turns| - 1], turns)
  {
    var n := |turns| - 1;
    forall k | 0 <= k < |kept|
      ensures kept[k] < n
    {
      assert kept[k] in kept && kept[k] in before;
    }
  }

  lemma SurvivorsNext(rule: Rule, turns: seq<Turn>, before: seq<nat>) returns (at: seq<nat>)
    requires rule.Valid() && |turns| > 0 && Survivors(rule, turns[..|turns| - 1], before)
    requires Indexes(before, turns)
    ensures var n := |turns| - 1;
            at == if TurnAccepted(rule, turns, n) then UnrelatedAt(turns, before, turns[n].tokens) + [n] else before
    ensures Survivors(rule, turns, at)
  {
    hide TurnAccepted, Increasing, Indexes;
    var n := |turns| - 1;
    at := before;
    if TurnAccepted(rule, turns, n) {
      UnrelatedIncreasing(turns, before, turns[n].tokens);
      var kept := UnrelatedAt(turns, before, turns[n].tokens);
      at := kept + [n];
      IndexesMore(kept, turns, before);
    }
    SurvivingAre(rule, turns, before, at);
  }

  lemma SurvivingAre(rule: Rule, turns: seq<Turn>, before: seq<nat>, at: seq<nat>)
    requires rule.Valid() && |turns| > 0 && Indexes(before, turns)
    requires forall i: nat :: i in before <==> Survives(rule, turns[..|turns| - 1], i)
    requires var n := |turns| - 1;
             at == if TurnAccepted(rule, turns, n) then UnrelatedAt(turns, before, turns[n].tokens) + [n] else before
    ensures forall i: nat :: i in at <==> Survives(rule, turns, i)
  {
    var n := |turns| - 1;
    forall i: nat
      ensures i in at <==> Survives(rule, turns, i)
    {
      if i < n {
        hide Survives, TurnAccepted;
        SurvivesNext(rule, turns, i);
      } else {
        hide TurnAccepted;
      }
    }
  }

  /** The store lists the records of the surviving turns in the order of the turns. */
  lemma {:induction false} StoreInOrder(rule: Rule, turns: seq<Turn>) returns (at: seq<nat>)
    requires rule.Valid()
    ensures Survivors(rule, turns, at) && After(rule, turns).prefixes == RecordsAt(turns, at)
  {
    hide After, TurnAccepted, Unrelated, Survives, UnrelatedAt;
    if |turns| == 0 {
      NothingAccepted(rule);
      at := [];
      NoSurvivors(rule);
    } else {
      var n := |turns| - 1;
      var before := StoreInOrder(rule, turns[..n]);
      RecordsOfMore(turns, before, n);
      OneMoreRecord(rule, turns);
      at := SurvivorsNext(rule, turns, before);
      UnrelatedRecords(turns, before, turns[n].tokens);
      if TurnAccepted(rule, turns, n) {
        assert at[..|at| - 1] == UnrelatedAt(turns, before, turns[n].tokens);
      }
    }
  }

  lemma NoSurvivors(rule: Rule)
    requires rule.Valid()
    ensures Survivors(rule, [], [])
  {
  }

  lemma OneMoreRecord(rule: Rule, turns: seq<Turn>)
    requires rule.Valid() && |turns| > 0
    ensures var n := |turns| - 1;
            var before := After(rule, turns[..n]).prefixes;
            After(rule, turns).prefixes
            == if TurnAccepted(rule, turns, n) then Unrelated(before, turns[n].tokens) + [RecordOf(turns[n])]
               else before
  {
    hide RetainedTurns, Unrelated;
    assert turns[..|turns| - 1 + 1] == turns;
  }

  /** The latest of the stored records of which one begins the tokens or is begun by them. */
  ghost predicate LastMatch(rule: Rule, turns: seq<Turn>, tokens: seq<Token>, i: nat)
    requires rule.Valid()
  {
    && Survives(rule, turns, i) && (turns[i].tokens <= tokens || tokens <= turns[i].tokens)
    && forall j: nat :: i < j && Survives(rule, turns, j) ==>
         !(turns[j].tokens <= tokens) && !(tokens <= turns[j].tokens)
  }

  lemma {:induction false} LatestMatchAt(store: seq<ScoredPrefix>, tokens: seq<Token>)
    requires LatestMatch(store, tokens).Some?
    ensures exists k :: 0 <= k < |store| && LatestMatch(store, tokens) == Some(store[k])
                        && forall m :: k < m < |store| ==> !Comparable(store[m].tokens, tokens)
  {
    var n := |store| - 1;
    if Comparable(store[n].tokens, tokens) {
      assert LatestMatch(store, tokens) == Some(store[n]);
    } else {
      LatestMatchAt(store[..n], tokens);
      var k :| 0 <= k < n && LatestMatch(store[..n], tokens) == Some(store[..n][k])
               && forall m :: k < m < n ==> !Comparable(store[..n][m].tokens, tokens);
      assert store[k] == store[..n][k];
      forall m | k < m < |store|
        ensures !Comparable(store[m].tokens, tokens)
      {
        assert m < n ==> store[m] == store[..n][m];
      }
    }
  }

  lemma LastMatchMeans(rule: Rule, turns: seq<Turn>, tokens: seq<Token>, i: nat)
    requires rule.Valid() && LastMatch(rule, turns, tokens, i)
    ensures i < |turns| && Survives(rule, turns, i) && Comparable(turns[i].tokens, tokens)
    ensures forall j: nat :: i < j < |turns| && Survives(rule, turns, j) ==> !Comparable(turns[j].tokens, tokens)
  {
    hide TurnAccepted;
  }

  /** Finalization matches a trajectory with the last surviving turn that is comparable with it. */
  lemma MatchesLast(rule: Rule, turns: seq<Turn>, tokens: seq<Token>, i: nat)
    requires rule.Valid() && LastMatch(rule, turns, tokens, i)
    ensures i < |turns| && LatestMatch(After(rule, turns).prefixes, tokens) == Some(RecordOf(turns[i]))
  {
    hide After, TurnAccepted, Survives, RecordsAt, Comparable, LatestMatch, LastMatch;
    LastMatchMeans(rule, turns, tokens, i);
    var at := StoreInOrder(rule, turns);
    var store := RecordsAt(turns, at);
    assert i in at;
    var k :| 0 <= k < |at| && at[k] == i;
    assert store[k] == RecordOf(turns[i]) && store[k] in store;
    assert LatestMatch(store, tokens).Some?;
    LatestMatchAt(store, tokens);
    var m :| 0 <= m < |store| && LatestMatch(store, tokens) == Some(store[m])
             && forall x :: m < x < |store| ==> !Comparable(store[x].tokens, tokens);
    assert at[m] in at && store[m] == RecordOf(turns[at[m]]) && Comparable(store[m].tokens, tokens);
    assert k <= m && at[m] <= i;
  }

  lemma LastMatchExists(rule: Rule, turns: seq<Turn>, tokens: seq<Token>) returns (i: nat)
    requires rule.Valid() && LatestMatch(After(rule, turns).prefixes, tokens).Some?
    ensures LastMatch(rule, turns, tokens, i)
  {
    hide After, TurnAccepted, Survives, RecordsAt, Comparable, LatestMatch;
    var at := StoreInOrder(rule, turns);
    var store := RecordsAt(turns, at);
    LatestMatchAt(store, tokens);
    var m :| 0 <= m < |store| && LatestMatch(store, tokens) == Some(store[m])
             && forall x :: m < x < |store| ==> !Comparable(store[x].tokens, tokens);
    i := at[m];
    assert i in at;
    forall j: nat | i < j && Survives(rule, turns, j)
      ensures j < |turns| && !Comparable(turns[j].tokens, tokens)
    {
      assert j in at;
      var x :| 0 <= x < |at| && at[x] == j;
      assert x > m;
      assert store[x] == RecordOf(turns[j]);
    }
    IsLastMatch(rule, turns, tokens, i);
  }

  lemma IsLastMatch(rule: Rule, turns: seq<Turn>, tokens: seq<Token>, i: nat)
    requires rule.Valid() && Survives(rule, turns, i) && Comparable(turns[i].tokens, tokens)
    requires forall j: nat :: i < j && Survives(rule, turns, j) ==> !Comparable(turns[j].tokens, tokens)
    ensures LastMatch(rule, turns, tokens, i)
  {
    hide TurnAccepted;
  }

  /** What of a trajectory and of the matching record is kept. */
  ghost predicate CroppedTo(v: View, p: ScoredPrefix, w: View) {
    var tokens := v.promptIds + v.responseIds;
    var length := if |tokens| <= |p.tokens| then |tokens| else |p.tokens|;
    && CroppedFields(v, |p.tokens|, w)
    && w.promptIds + w.responseIds == (if |tokens| <= |p.tokens| then tokens else p.tokens)
    && w.labels.Some?
    && |w.labels.value.ids| == length > 0 && w.labels.value.ids[length - 1] == 0
    && (forall i :: 0 <= i < length - 1 ==> w.labels.value.ids[i] == tokens[i + 1])
    && (|p.logprobs| >= length - 1 ==> |w.labels.value.logprobs| == length)
    && |w.labels.value.logprobs| > 0 && w.labels.value.logprobs[|w.labels.value.logprobs| - 1] == Finite(0.0)
    && w.labels.value.logprobs[..|w.labels.value.logprobs| - 1] <= p.logprobs
  }

  /** An optional list is cut to its first n entries, and a shorter one left alone. */
  ghost predicate FirstOf<T>(before: Option<seq<T>>, after: Option<seq<T>>, n: nat) {
    && (before.None? <==> after.None?)
    && (before.Some? ==> after.value <= before.value
                         && (|after.value| == n || (after == before && |before.value| <= n)))
  }

  /** The lists after a cut at `end` tokens: each keeps its beginning, as far as it goes. */
  ghost predicate CroppedFields(v: View, end: nat, w: View) {
    var length := if |v.promptIds + v.responseIds| <= end then |v.promptIds + v.responseIds| else end;
    && w.promptIds == v.promptIds && w.responseIds <= v.responseIds && |v.promptIds| + |w.responseIds| == length
    && FirstOf(Some(v.mask), Some(w.mask), |w.responseIds|)
    && FirstOf(v.responseLogprobs, w.responseLogprobs, |w.responseIds|)
    && FirstOf(v.routedExperts, w.routedExperts, length)
  }

  lemma CropFields(v: View, p: ScoredPrefix)
    ensures Crop(v, p).Retained? <==> |v.responseIds| > 0 && |p.tokens| > |v.promptIds|
    ensures Crop(v, p).Retained? ==> CroppedFields(v, |p.tokens|, Crop(v, p).view)
  {
  }

  lemma CropExactly(v: View, p: ScoredPrefix)
    requires p.tokens <= v.promptIds + v.responseIds || v.promptIds + v.responseIds <= p.tokens
    ensures Crop(v, p).Retained?
            <==> |v.promptIds| < |v.promptIds + v.responseIds| && |v.promptIds| < |p.tokens|
    ensures !Crop(v, p).Retained? ==> Crop(v, p) == Untouched
    ensures Crop(v, p).Retained? ==> CroppedTo(v, p, Crop(v, p).view)
  {
    CropFields(v, p);
    if Crop(v, p).Retained? {
      CropTokens(v, p);
    }
  }

  /**
   * Finalization keeps a trajectory exactly when it has a response token in its
   * mask and both it and the last comparable surviving turn go beyond its
   * prompt, and then keeps the shorter of the two.
   */
  lemma RetainedExactly(rule: Rule, turns: seq<Turn>, v: View)
    requires rule.Valid()
    ensures var outcome := AttachOne(After(rule, turns).prefixes, v);
            && (outcome.Retained?
                <==> true in v.mask && |v.responseIds| > 0
                     && exists i: nat :: i < |turns| && LastMatch(rule, turns, v.promptIds + v.responseIds, i)
                                         && |v.promptIds| < |turns[i].tokens|)
            && (outcome.Retained? ==>
                  exists i: nat :: i < |turns| && LastMatch(rule, turns, v.promptIds + v.responseIds, i)
                                   && CroppedTo(v, RecordOf(turns[i]), outcome.view))
            && (true !in v.mask ==> outcome == Untouched)
  {
    hide After, TurnAccepted, Survives, LatestMatch, Crop, CroppedTo, LastMatch;
    var store, tokens := After(rule, turns).prefixes, v.promptIds + v.responseIds;
    assert v.Tokens() == tokens;
    if true in v.mask {
      if LatestMatch(store, tokens).Some? {
        var i := LastMatchExists(rule, turns, tokens);
        MatchesLast(rule, turns, tokens, i);
        LastMatchUnique(rule, turns, tokens, i);
        CropExactly(v, RecordOf(turns[i]));
      } else if i: nat :| LastMatch(rule, turns, tokens, i) {
        MatchesLast(rule, turns, tokens, i);
      }
    }
  }

  lemma LastMatchUnique(rule: Rule, turns: seq<Turn>, tokens: seq<Token>, i: nat)
    requires rule.Valid() && LastMatch(rule, turns, tokens, i)
    ensures i < |turns| && forall j: nat :: LastMatch(rule, turns, tokens, j) ==> j == i
    ensures turns[i].tokens <= tokens || tokens <= turns[i].tokens
  {
    hide TurnAccepted;
  }

  /** Every accepted turn is extended by a surviving one, itself or a later one. */
  lemma {:induction false} SurvivorAbove(rule: Rule, turns: seq<Turn>, i: nat) returns (k: nat)
    requires rule.Valid() && i < |turns| && TurnAccepted(rule, turns, i)
    ensures i <= k && Survives(rule, turns, k) && turns[i].tokens <= turns[k].tokens
    decreases |turns| - i
  {
    hide TurnAccepted;
    if Survives(rule, turns, i) {
      k := i;
    } else {
      var j: nat :| i < j < |turns| && TurnAccepted(rule, turns, j) && turns[i].tokens <= turns[j].tokens;
      k := SurvivorAbove(rule, turns, j);
    }
  }

  /** The tokens begin accepted turn i, and no later surviving sequence is a proper beginning of them. */
  ghost predicate BeginsUnlessCut(rule: Rule, turns: seq<Turn>, tokens: seq<Token>, i: nat)
    requires rule.Valid()
  {
    && i < |turns| && TurnAccepted(rule, turns, i) && tokens <= turns[i].tokens
    && forall j: nat :: i < j && Survives(rule, turns, j) ==> !(turns[j].tokens < tokens)
  }

  /**
   * A trajectory with response tokens is kept whole exactly when it begins an
   * accepted sequence and no later surviving sequence is a proper beginning of it.
   */
  lemma KeptWholeExactly(rule: Rule, turns: seq<Turn>, v: View)
    requires rule.Valid() && true in v.mask && |v.responseIds| > 0
    ensures var outcome := AttachOne(After(rule, turns).prefixes, v);
            (outcome.Retained? && outcome.view.promptIds + outcome.view.responseIds == v.promptIds + v.responseIds)
            <==> exists i: nat :: BeginsUnlessCut(rule, turns, v.promptIds + v.responseIds, i)
  {
    hide After, TurnAccepted, AttachOne, Survives;
    var outcome, tokens := AttachOne(After(rule, turns).prefixes, v), v.promptIds + v.responseIds;
    RetainedExactly(rule, turns, v);
    if i: nat :| BeginsUnlessCut(rule, turns, tokens, i) {
      var k := LastBeginning(rule, turns, tokens, i);
      LastMatchUnique(rule, turns, tokens, k);
    }
    if outcome.Retained? && outcome.view.promptIds + outcome.view.responseIds == tokens {
      var i: nat :| i < |turns| && LastMatch(rule, turns, tokens, i)
                    && CroppedTo(v, RecordOf(turns[i]), outcome.view);
      LastMatchCuts(rule, turns, tokens, i);
      assert BeginsUnlessCut(rule, turns, tokens, i);
    }
  }

  lemma LastMatchCuts(rule: Rule, turns: seq<Turn>, tokens: seq<Token>, i: nat)
    requires rule.Valid() && LastMatch(rule, turns, tokens, i)
    ensures i < |turns| && TurnAccepted(rule, turns, i)
    ensures tokens <= turns[i].tokens ==> BeginsUnlessCut(rule, turns, tokens, i)
  {
    hide TurnAccepted;
  }

  lemma LastBeginning(rule: Rule, turns: seq<Turn>, tokens: seq<Token>, i: nat) returns (k: nat)
    requires rule.Valid() && BeginsUnlessCut(rule, turns, tokens, i)
    ensures LastMatch(rule, turns, tokens, k) && tokens <= turns[k].tokens
  {
    hide After, TurnAccepted, Survives, LatestMatch;
    var above := SurvivorAbove(rule, turns, i);
    var at := StoreInOrder(rule, turns);
    assert above in at;
    var m :| 0 <= m < |at| && at[m] == above;
    var store := After(rule, turns).prefixes;
    assert store[m] in store && Comparable(store[m].tokens, tokens);
    k := LastMatchExists(rule, turns, tokens);
    assert k >= above;
  }

  /** The short rules of the examples accept two turns in any case. */
  lemma TwoAccepted(rule: Rule, a: Turn, b: Turn)
    requires rule.Valid() && rule.baseline >= 3
    ensures TurnAccepted(rule, [a, b], 0) && TurnAccepted(rule, [a, b], 1)
  {
    hide RetainedTurns;
    SessionEntropies(rule, [a, b][..1]);
    SessionEntropies(rule, [a, b][..2]);
    ShortListsContinue(rule, Entropies([a, b][..1]));
    ShortListsContinue(rule, Entropies([a, b][..2]));
  }

  /**
   * To begin an accepted sequence is not enough to be kept: after a rollback the
   * latest comparable record may end within the prompt, and the trajectory is
   * dropped without an error.
   */
  lemma RollbackDropsATrajectory()
    ensures exists rule: Rule, turns: seq<Turn>, v: View ::
              && rule.Valid() && |turns| == 2 && true in v.mask && |v.responseIds| > 0
              && TurnAccepted(rule, turns, 0) && v.promptIds + v.responseIds <= turns[0].tokens
              && AttachOne(After(rule, turns).prefixes, v) == Untouched
  {
    hide After, TurnAccepted, AttachOne;
    var rule, scores := Rule(1.0, 3, 3, 3), Scores([], [], Finite(0.0), Finite(0.0));
    var turns, v := [Turn([1, 2, 3], scores), Turn([1], scores)], View([1], [2], [true], None, None, None);
    TwoAccepted(rule, turns[0], turns[1]);
    var tokens := v.promptIds + v.responseIds;
    assert tokens == [1, 2] && [1] <= tokens && tokens <= turns[0].tokens;
    assert LastMatch(rule, turns, tokens, 1);
    LastMatchUnique(rule, turns, tokens, 1);
    RetainedExactly(rule, turns, v);
    FailsExactly(rule, turns, v);
    assert v.Tokens() == tokens;
  }

  lemma ShortListsContinue(rule: Rule, es: seq<Float>)
    requires rule.Valid() && |es| < rule.baseline
    ensures RetainedTurns(rule, es).None?
  {
  }

  lemma AfterOneMore(rule: Rule, turns: seq<Turn>, turn: Turn)
    requires rule.Valid()
    ensures After(rule, turns + [turn]) == Accepted(rule, After(rule, turns), turn)
  {
    hide Accepted;
    assert (turns + [turn])[..|turns|] == turns;
  }

  lemma AcceptedShort(rule: Rule, s: Session, turn: Turn)
    requires rule.Valid() && |s.entropies| + 1 < rule.baseline
    requires forall p :: p in s.prefixes ==> p.tokens <= turn.tokens
    ensures var t := Accepted(rule, s, turn);
            && !t.stopped && |t.entropies| == |s.entropies| + 1
            && t.prefixes == [ScoredPrefix(turn.tokens, turn.scores.logprobs)]
  {
    hide RetainedTurns;
    ShortListsContinue(rule, s.entropies + [turn.scores.entropy]);
    NothingUnrelated(s.prefixes, turn.tokens);
  }

  lemma {:induction false} NothingUnrelated(store: seq<ScoredPrefix>, tokens: seq<Token>)
    requires forall p :: p in store ==> p.tokens <= tokens
    ensures Unrelated(store, tokens) == []
  {
    if |store| > 0 {
      NothingUnrelated(store[..|store| - 1], tokens);
    }
  }

  /** Two accepted turns of one chain leave one record. */
  lemma ChainOfTwo(rule: Rule, a: Turn, b: Turn)
    requires rule.Valid() && rule.baseline >= 3 && a.tokens <= b.tokens
    ensures After(rule, [a, b]).prefixes == [ScoredPrefix(b.tokens, b.scores.logprobs)]
    ensures TurnAccepted(rule, [a, b], 0)
  {
    hide After, Accepted;
    NothingAccepted(rule);
    AfterOneMore(rule, [], a);
    AfterOneMore(rule, [a], b);
    assert [] + [a] == [a] && [a] + [b] == [a, b] && [a, b][..1] == [a];
    AcceptedShort(rule, NEW_SESSION, a);
    AcceptedShort(rule, After(rule, [a]), b);
  }

  /** To extend some accepted sequence is not enough: its record may have been replaced by a longer one. */
  lemma ExtendingAnAcceptedSequenceIsNotEnough()
    ensures exists rule: Rule, turns: seq<Turn>, v: View ::
              && rule.Valid() && |turns| == 2 && true in v.mask && TurnAccepted(rule, turns, 0)
              && turns[0].tokens <= v.Tokens() && AttachOne(After(rule, turns).prefixes, v).NoMatch?
  {
    hide After, TurnAccepted;
    var rule, scores := Rule(1.0, 3, 3, 3), Scores([], [], Finite(0.0), Finite(0.0));
    var turns, v := [Turn([1], scores), Turn([1, 2], scores)], View([1], [3], [true], None, None, None);
    ChainOfTwo(rule, turns[0], turns[1]);
    var tokens := v.Tokens();
    assert tokens[0] == 1 && tokens[1] == 3;
    var store := After(rule, turns).prefixes;
    assert forall p :: p in store ==> p.tokens == [1, 2];
    assert LatestMatch(store, tokens).None?;
  }

  /**
   * A trajectory that goes on past the last accepted turn, such as the one left
   * behind by the emptied detection turn, is cropped to exactly that turn.
   */
  lemma CropsToLastAccepted(rule: Rule, turns: seq<Turn>, i: nat, v: View)
    requires rule.Valid() && i < |turns| && TurnAccepted(rule, turns, i)
    requires forall j: nat :: i < j < |turns| ==> !TurnAccepted(rule, turns, j)
    requires true in v.mask && turns[i].tokens <= v.Tokens() && |v.promptIds| < |turns[i].tokens|
    ensures var outcome := AttachOne(After(rule, turns).prefixes, v);
            outcome.Retained? && outcome.view.Tokens() == turns[i].tokens
  {
    hide After, TurnAccepted;
    LastStored(rule, turns, i);
    var store := After(rule, turns).prefixes;
    CropTokens(v, store[|store| - 1]);
  }

  // ---------------------------------------------------------------------
  // The objects that the methods update in place.

  class Trajectory {
    const promptIds: seq<Token>
    var responseIds: seq<Token>
    var responseMask: seq<bool>
    var responseLogprobs: Option<seq<Float>>
    var routedExperts: Option<seq<int>>
    var labels: Option<Labels>

    constructor (promptIds: seq<Token>, responseIds: seq<Token>, responseMask: seq<bool>,
                 responseLogprobs: Option<seq<Float>>, routedExperts: Option<seq<int>>)
      ensures Value() == View(promptIds, responseIds, responseMask, responseLogprobs, routedExperts, None)
    {
      this.promptIds, this.responseIds, this.responseMask := promptIds, responseIds, responseMask;
      this.responseLogprobs, this.routedExperts, labels := responseLogprobs, routedExperts, None;
    }

    ghost function Value(): View
      reads this
    {
      View(promptIds, responseIds, responseMask, responseLogprobs, routedExperts, labels)
    }

    /** Crop to a stored prefix and attach its labels, or leave the trajectory as it is when nothing remains. */
    method CropTo(prefix: ScoredPrefix) returns (kept: bool)
      modifies this
      ensures kept == Crop(old(Value()), prefix).Retained?
      ensures Value() == if kept then Crop(old(Value()), prefix).view else old(Value())
      ensures kept <==> old(|responseIds|) > 0 && |prefix.tokens| > |promptIds|
      ensures kept ==> CroppedFields(old(Value()), |prefix.tokens|, Value())
    {
      hide CroppedFields;
      CropFields(Value(), prefix);
      var tokens := promptIds + responseIds;
      var length := Shorter(|tokens|, |prefix.tokens|);
      var responseLength := length - |promptIds|;
      if responseLength <= 0 {
        return false;
      }
      responseIds := Take(responseIds, responseLength);
      responseMask := Take(responseMask, responseLength);
      if responseLogprobs.Some? {
        responseLogprobs := Some(Take(responseLogprobs.value, responseLength));
      }
      if routedExperts.Some? {
        routedExperts := Some(Take(routedExperts.value, length));
      }
      labels := Some(Labels(tokens[1..length] + [0], Take(prefix.logprobs, length - 1) + [DUMMY_LABEL]));
      return true;
    }
  }

  ghost function Values(trajectories: seq<Trajectory>): (views: seq<View>)
    reads trajectories
    ensures |views| == |trajectories|
    ensures forall i :: 0 <= i < |views| ==> views[i] == trajectories[i].Value()
  {
    if |trajectories| == 0 then []
    else Values(trajectories[..|trajectories| - 1]) + [trajectories[|trajectories| - 1].Value()]
  }

  /** The trajectories whose outcome is to be kept, in order. */
  ghost function KeptOf(store: seq<ScoredPrefix>, trajectories: seq<Trajectory>, views: seq<View>): seq<Trajectory>
    requires |trajectories| == |views|
  {
    if |views| == 0 then []
    else
      var n := |views| - 1;
      KeptOf(store, trajectories[..n], views[..n])
      + if AttachOne(store, views[n]).Retained? then [trajectories[n]] else []
  }

  ghost function Updated(store: seq<ScoredPrefix>, v: View): View {
    if AttachOne(store, v).Retained? then AttachOne(store, v).view else v
  }

  class AdaptiveSession {
    const rule: Rule
    var entropies: seq<Float>
    var masses: seq<Float>
    var prefixes: seq<ScoredPrefix>
    var stopped: bool

    ghost function Value(): Session
      reads this
    {
      Session(entropies, masses, prefixes, stopped)
    }

    constructor (rule: Rule)
      ensures this.rule == rule && Value() == NEW_SESSION
    {
      this.rule := rule;
      entropies, masses, prefixes, stopped := [], [], [], false;
    }

    /** The list comprehension that drops the records that the new one replaces. */
    method DropPrefixesOf(tokens: seq<Token>)
      modifies this`prefixes
      ensures prefixes == Unrelated(old(prefixes), tokens)
    {
      var kept: seq<ScoredPrefix> := [];
      for i := 0 to |prefixes|
        invariant prefixes == old(prefixes)
        invariant kept == Unrelated(prefixes[..i], tokens)
      {
        assert prefixes[..i + 1][..i] == prefixes[..i];
        if !(prefixes[i].tokens <= tokens) {
          kept := kept + [prefixes[i]];
        }
      }
      assert prefixes[..|prefixes|] == prefixes;
      prefixes := kept;
    }

    method Accept(turn: Turn) returns (accepted: bool)
      requires rule.Valid()
      modifies this
      ensures Value() == Accepted(rule, old(Value()), turn)
      ensures accepted == !stopped
      ensures entropies == old(entropies) + [turn.scores.entropy] && masses == old(masses) + [turn.scores.mass]
      ensures !accepted ==> prefixes == old(prefixes)
      ensures accepted ==>
                && |prefixes| > 0 && prefixes[|prefixes| - 1] == ScoredPrefix(turn.tokens, turn.scores.logprobs)
                && forall p :: p in prefixes[..|prefixes| - 1] <==> p in old(prefixes) && !(p.tokens <= turn.tokens)
    {
      entropies := entropies + [turn.scores.entropy];
      masses := masses + [turn.scores.mass];
      stopped := RetainedTurns(rule, entropies).Some?;
      if stopped {
        return false;
      }
      DropPrefixesOf(turn.tokens);
      prefixes := prefixes + [ScoredPrefix(turn.tokens, turn.scores.logprobs)];
      return true;
    }

    /** The reversed scan for the first comparable record. */
    method FindMatch(tokens: seq<Token>) returns (prefix: Option<ScoredPrefix>)
      ensures prefix == LatestMatch(prefixes, tokens)
    {
      var n := |prefixes|;
      assert prefixes[..n] == prefixes;
      while n > 0
        invariant n <= |prefixes|
        invariant LatestMatch(prefixes, tokens) == LatestMatch(prefixes[..n], tokens)
      {
        var p := prefixes[n - 1];
        if Comparable(p.tokens, tokens) {
          return Some(p);
        }
        assert prefixes[..n][..n - 1] == prefixes[..n - 1];
        n := n - 1;
      }
      return None;
    }

    /** One trajectory of the finalization loop. */
    method AttachTo(trajectory: Trajectory) returns (outcome: Outcome)
      modifies trajectory
      ensures outcome == AttachOne(prefixes, old(trajectory.Value()))
      ensures trajectory.Value() == Updated(prefixes, old(trajectory.Value()))
    {
      if true !in trajectory.responseMask {
        return Untouched;
      }
      var prefix := FindMatch(trajectory.promptIds + trajectory.responseIds);
      if prefix.None? {
        return NoMatch;
      }
      var kept := trajectory.CropTo(prefix.value);
      if !kept {
        return Untouched;
      }
      return Retained(View(trajectory.promptIds, trajectory.responseIds, trajectory.responseMask,
                           trajectory.responseLogprobs, trajectory.routedExperts, trajectory.labels));
    }

    /**
     * The whole finalization loop. It fails at the first trajectory without a
     * match; those before it have been cropped, those from it on have not.
     */
    method Attach(trajectories: seq<Trajectory>) returns (retained: Option<seq<Trajectory>>, ghost done: nat)
      requires forall i, j :: 0 <= i < j < |trajectories| ==> trajectories[i] != trajectories[j]
      modifies trajectories
      ensures done <= |trajectories| && (retained.Some? <==> done == |trajectories|)
      ensures forall i :: 0 <= i < done ==> !AttachOne(prefixes, old(trajectories[i].Value())).NoMatch?
      ensures retained.None? ==> AttachOne(prefixes, old(trajectories[done].Value())).NoMatch?
      ensures forall i :: 0 <= i < |trajectories| ==>
                trajectories[i].Value()
                == if i < done then Updated(prefixes, old(trajectories[i].Value())) else old(trajectories[i].Value())
      ensures retained.Some? ==> retained.value == KeptOf(prefixes, trajectories, old(Values(trajectories)))
    {
      hide AttachOne, Updated, KeptOf;
      ghost var views := Values(trajectories);
      var kept: seq<Trajectory> := [];
      KeptOfNone(prefixes);
      for i := 0 to |trajectories|
        invariant forall k :: 0 <= k < i ==> !AttachOne(prefixes, views[k]).NoMatch?
        invariant forall k :: 0 <= k < |trajectories| ==>
                    trajectories[k].Value() == if k < i then Updated(prefixes, views[k]) else views[k]
        invariant kept == KeptOf(prefixes, trajectories[..i], views[..i])
      {
        var outcome := AttachTo(trajectories[i]);
        if outcome.NoMatch? {
          NoMatchUntouched(prefixes, views[i]);
          return None, i;
        }
        KeptGrows(prefixes, trajectories, views, i);
        if outcome.Retained? {
          kept := kept + [trajectories[i]];
        }
      }
      assert trajectories[..|trajectories|] == trajectories && views[..|trajectories|] == views;
      return Some(kept), |trajectories|;
    }
  }

  lemma KeptOfNone(store: seq<ScoredPrefix>)
    ensures KeptOf(store, [], []) == []
  {
  }

  lemma KeptGrows(store: seq<ScoredPrefix>, trajectories: seq<Trajectory>, views: seq<View>, i: nat)
    requires |trajectories| == |views| && i < |views|
    ensures KeptOf(store, trajectories[..i + 1], views[..i + 1])
            == KeptOf(store, trajectories[..i], views[..i])
               + if AttachOne(store, views[i]).Retained? then [trajectories[i]] else []
  {
    assert trajectories[..i + 1][..i] == trajectories[..i] && views[..i + 1][..i] == views[..i];
  }

  lemma NoMatchUntouched(store: seq<ScoredPrefix>, v: View)
    requires AttachOne(store, v).NoMatch?
    ensures Updated(store, v) == v
  {
  }

  // ---------------------------------------------------------------------
  // The client that decorates the Student's generation.

  datatype Output = Output(
    tokenIds: seq<Token>, logProbs: seq<Float>, routedExperts: Option<seq<int>>, stopReason: string)

  class AdaptiveRolloutClient {
    var sessions: map<string, AdaptiveSession>

    constructor ()
      ensures sessions == map[]
    {
      sessions := map[];
    }

    ghost predicate Valid()
      reads this
    {
      forall id :: id in sessions ==> sessions[id].rule.Valid()
    }

    /** `output` is the Student's reply; `forward` is the Teacher's pass over the prompt followed by that reply. */
    method Generate(requestId: string, promptIds: seq<Token>, output: Output, forward: Forward, exp: real -> real)
      returns (reply: Result<Output, ScoreError>)
      requires Valid()
      modifies if requestId in sessions then {sessions[requestId]} else {}
      ensures requestId !in sessions || output.tokenIds == [] ==>
                reply == Ok(output) && forall id :: id in sessions ==> sessions[id].Value() == old(sessions[id].Value())
      ensures requestId in sessions && output.tokenIds != [] ==>
                var session, scores := sessions[requestId], Extracted(exp, forward, |promptIds| - 1);
                if scores.Err? then reply == Err(scores.error) && session.Value() == old(session.Value())
                else
                  && session.Value()
                     == Accepted(session.rule, old(session.Value()), Turn(promptIds + output.tokenIds, scores.value))
                  && (!session.stopped ==> reply == Ok(output))
                  && (session.stopped ==>
                        && reply.Ok? && reply.value.tokenIds == [] && reply.value.logProbs == []
                        && reply.value.routedExperts == None && reply.value.stopReason == "length")
    {
      if requestId !in sessions || |output.tokenIds| == 0 {
        return Ok(output);
      }
      var state := sessions[requestId];
      var sequence := promptIds + output.tokenIds;
      var scores := ExtractAdaptiveLogprobs(exp, forward, |promptIds| - 1);
      if scores.Err? {
        return Err(scores.error);
      }
      var accepted := state.Accept(Turn(sequence, scores.value));
      if !accepted {
        return Ok(output.(tokenIds := [], logProbs := [], routedExperts := None, stopReason := "length"));
      }
      return Ok(output);
    }
  }

  /** One non-empty generation of a session and the Teacher's pass over it. */
  datatype Call = Call(promptIds: seq<Token>, generated: seq<Token>, forward: Forward) {
    function Sequence(): seq<Token> {
      promptIds + generated
    }
  }

  ghost predicate Honest(teacher: Teacher, call: Call) {
    |call.generated| > 0 && IsForward(teacher, call.forward) && call.forward.tokens == call.Sequence()
  }

  ghost predicate ScoresCalls(exp: real -> real, calls: seq<Call>, turns: seq<Turn>) {
    && |turns| == |calls|
    && forall i :: 0 <= i < |calls| ==>
         && turns[i].tokens == calls[i].Sequence()
         && Extracted(exp, calls[i].forward, |calls[i].promptIds| - 1) == Ok(turns[i].scores)
  }

  /**
   * A whole session under a causal Teacher: scoring never fails, a prefix of
   * the calls is accepted, and what finalization keeps of any trajectory is
   * labelled token for token and lies inside the sequence of one of them.
   */
  lemma SessionIsLabelled(rule: Rule, exp: real -> real, teacher: Teacher, calls: seq<Call>, v: View)
    returns (turns: seq<Turn>)
    requires rule.Valid() && ReportsSampled(teacher) && forall i :: 0 <= i < |calls| ==> Honest(teacher, calls[i])
    requires |v.mask| == |v.responseIds|
    ensures ScoresCalls(exp, calls, turns)
    ensures var outcome := AttachOne(After(rule, turns).prefixes, v);
            outcome.Retained? ==>
              && Labelled(teacher, v, outcome.view)
              && exists i: nat :: i < |calls| && i < AcceptedTurns(rule, Entropies(turns))
                                  && outcome.view.Tokens() <= calls[i].Sequence()
  {
    hide LabelsOf, Labelled, After, AttachOne, Extracted, AcceptedTurns, IsForward;
    turns := TurnsOf(exp, teacher, calls);
    if AttachOne(After(rule, turns).prefixes, v).Retained? {
      RetainedIsLabelled(rule, teacher, turns, v);
      var w := AttachOne(After(rule, turns).prefixes, v).view;
      var i: nat :| i < |turns| && TurnAccepted(rule, turns, i) && w.Tokens() <= turns[i].tokens;
      AcceptsAPrefix(rule, turns, i);
      assert w.Tokens() <= calls[i].Sequence();
    }
  }

  lemma {:induction false} TurnsOf(exp: real -> real, teacher: Teacher, calls: seq<Call>) returns (turns: seq<Turn>)
    requires ReportsSampled(teacher) && forall i :: 0 <= i < |calls| ==> Honest(teacher, calls[i])
    ensures ScoresCalls(exp, calls, turns) && ScoredBy(teacher, turns)
  {
    hide LabelsOf, Extracted, IsForward;
    if |calls| == 0 {
      turns := [];
    } else {
      var n := |calls| - 1;
      var call := calls[n];
      var rest := TurnsOf(exp, teacher, calls[..n]);
      ForwardIsLabelled(exp, teacher, call.forward, |call.promptIds| - 1);
      turns := rest + [Turn(call.Sequence(), Extracted(exp, call.forward, |call.promptIds| - 1).value)];
    }
  }
}
