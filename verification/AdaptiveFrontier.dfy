/**
 * The causal stopping rule of adaptive distillation: where a rollout's Teacher
 * entropy has drifted, on average over a window, by a threshold above the mean
 * of its first turns.
 */
module AdaptiveFrontier {
  import opened Prelude

  /** A turn's entropy; a turn without Teacher positions has none (NaN in the program). */
  type Entropy = Float

  datatype Rule = Rule(threshold: real, baseline: nat, sustain: nat, minRetained: int) {
    predicate Valid() {
      threshold > 0.0 && baseline >= 1 && sustain >= 1
    }

    /** The first turn that the rule looks at. */
    function Warmup(): nat {
      if baseline > sustain - 1 then baseline else sustain - 1
    }
  }

  predicate AllFinite(es: seq<Entropy>) {
    forall i :: 0 <= i < |es| ==> es[i].Finite?
  }

  /** The sum of what each turn has above a reference. */
  function Drift(es: seq<Entropy>, reference: real): real
    requires AllFinite(es)
  {
    if |es| == 0 then 0.0 else es[0].value - reference + Drift(es[1..], reference)
  }

  function Mean(es: seq<Entropy>): real
    requires |es| > 0 && AllFinite(es)
  {
    Drift(es, 0.0) / |es| as real
  }

  function Window(rule: Rule, es: seq<Entropy>, turn: nat): seq<Entropy>
    requires rule.Valid() && rule.baseline <= turn < |es| && rule.sustain <= turn + 1
  {
    es[turn - rule.sustain + 1..turn + 1]
  }

  /** The baseline is there and finite, and so is the window, whose average drift reaches the threshold. */
  predicate Fires(rule: Rule, es: seq<Entropy>, turn: nat)
    requires rule.Valid() && rule.baseline <= turn < |es| && rule.sustain <= turn + 1
  {
    && AllFinite(es[..rule.baseline])
    && AllFinite(Window(rule, es, turn))
    && Drift(Window(rule, es, turn), Mean(es[..rule.baseline])) / rule.sustain as real >= rule.threshold
  }

  function FirstFrontier(rule: Rule, es: seq<Entropy>, turn: nat): (r: Option<nat>)
    requires rule.Valid() && rule.baseline <= turn && rule.sustain <= turn + 1
    ensures r.Some? ==> turn <= r.value < |es|
    decreases |es| - turn
  {
    if turn >= |es| then None
    else if Fires(rule, es, turn) then Some(turn)
    else FirstFrontier(rule, es, turn + 1)
  }

  /** The length of the retained prefix; None means that the rollout goes on. */
  function RetainedTurns(rule: Rule, es: seq<Entropy>): Option<int>
    requires rule.Valid()
  {
    if |es| < rule.baseline || !AllFinite(es[..rule.baseline]) then None
    else
      match FirstFrontier(rule, es, rule.Warmup())
      case None => None
      case Some(turn) => Some(if rule.minRetained > turn then rule.minRetained else turn)
  }

  // ---------------------------------------------------------------------
  // What the rule means.

  ghost predicate IsFrontier(rule: Rule, es: seq<Entropy>, turn: nat)
    requires rule.Valid()
  {
    && rule.baseline <= turn < |es| && rule.sustain <= turn + 1 && Fires(rule, es, turn)
    && forall k: nat :: rule.baseline <= k < turn && rule.sustain <= k + 1 ==> !Fires(rule, es, k)
  }

  lemma {:induction false} FirstFrontierIsFirst(rule: Rule, es: seq<Entropy>, turn: nat)
    requires rule.Valid() && rule.baseline <= turn && rule.sustain <= turn + 1
    ensures var r := FirstFrontier(rule, es, turn);
            && (r.Some? ==> Fires(rule, es, r.value))
            && (forall k: nat :: turn <= k < (if r.Some? then r.value else |es|) ==> !Fires(rule, es, k))
    decreases |es| - turn
  {
    if turn < |es| && !Fires(rule, es, turn) {
      FirstFrontierIsFirst(rule, es, turn + 1);
    }
  }

  /** The rule stops exactly when there is a frontier, and then it is the first one that counts. */
  lemma RetainedMeansFrontier(rule: Rule, es: seq<Entropy>)
    requires rule.Valid()
    ensures RetainedTurns(rule, es).Some? <==> exists turn :: IsFrontier(rule, es, turn)
    ensures forall turn :: IsFrontier(rule, es, turn) ==>
              RetainedTurns(rule, es) == Some(if rule.minRetained > turn then rule.minRetained else turn)
  {
    FirstFrontierIsFirst(rule, es, rule.Warmup());
    var first := FirstFrontier(rule, es, rule.Warmup());
    if RetainedTurns(rule, es).Some? {
      assert IsFrontier(rule, es, first.value);
    }
    forall turn | IsFrontier(rule, es, turn)
      ensures RetainedTurns(rule, es) == Some(if rule.minRetained > turn then rule.minRetained else turn)
    {
      assert first == Some(turn);
    }
  }

  lemma {:induction false} DriftShift(es: seq<Entropy>, a: real, b: real)
    requires AllFinite(es)
    ensures Drift(es, a + b) == Drift(es, a) - |es| as real * b
  {
    if |es| > 0 {
      DriftShift(es[1..], a, b);
      assert |es| as real * b == |es[1..]| as real * b + b;
    }
  }

  lemma QuotientOfDifference(a: real, n: real, b: real)
    requires n > 0.0
    ensures (a - n * b) / n == a / n - b
  {
    assert (a / n - b) * n == a - n * b;
  }

  lemma {:induction false} DriftIsSum(es: seq<Entropy>) returns (values: seq<real>)
    requires AllFinite(es)
    ensures |values| == |es| && (forall i :: 0 <= i < |es| ==> es[i] == Finite(values[i]))
    ensures Drift(es, 0.0) == SumReal(values)
  {
    if |es| == 0 {
      values := [];
    } else {
      var rest := DriftIsSum(es[1..]);
      values := [es[0].value] + rest;
      assert forall i :: 1 <= i < |es| ==> es[i] == es[1..][i - 1];
    }
  }

  /** The average of finite entropies, as numbers. */
  ghost predicate IsAverage(es: seq<Entropy>, average: real) {
    exists values: seq<real> ::
      && |values| == |es| && (forall i :: 0 <= i < |es| ==> es[i] == Finite(values[i]))
      && average * |es| as real == SumReal(values)
  }

  /** Both lists have an average, and the second one's is higher by the threshold. */
  ghost predicate HigherBy(threshold: real, b: seq<Entropy>, w: seq<Entropy>) {
    exists reference, recent ::
      IsAverage(b, reference) && IsAverage(w, recent) && recent >= reference + threshold
  }

  lemma MeanIsAverage(es: seq<Entropy>, average: real)
    requires |es| > 0
    ensures IsAverage(es, average) <==> AllFinite(es) && average == Mean(es)
  {
    if IsAverage(es, average) {
      var values :| |values| == |es| && (forall i :: 0 <= i < |es| ==> es[i] == Finite(values[i]))
                    && average * |es| as real == SumReal(values);
      var same := DriftIsSum(es);
      assert same == values;
      QuotientUnique(average, |es| as real, SumReal(values));
    } else if AllFinite(es) && average == Mean(es) {
      var values := DriftIsSum(es);
      QuotientUnique(average, |es| as real, SumReal(values));
      assert false;
    }
  }

  lemma QuotientUnique(q: real, n: real, total: real)
    requires n > 0.0
    ensures q * n == total <==> q == total / n
  {
  }

  lemma FiniteMeansCompare(rule: Rule, es: seq<Entropy>, turn: nat)
    requires rule.Valid() && rule.baseline <= turn < |es| && rule.sustain <= turn + 1
    requires AllFinite(es[..rule.baseline]) && AllFinite(Window(rule, es, turn))
    ensures Fires(rule, es, turn) <==> Mean(Window(rule, es, turn)) >= Mean(es[..rule.baseline]) + rule.threshold
  {
    var w, reference := Window(rule, es, turn), Mean(es[..rule.baseline]);
    DriftShift(w, 0.0, reference);
    QuotientOfDifference(Drift(w, 0.0), rule.sustain as real, reference);
  }

  /**
   * A turn fires exactly when the baseline and the last `sustain` turns have
   * averages, no turn without Teacher positions among them, and the latter is
   * higher by the threshold.
   */
  lemma FiresComparesMeans(rule: Rule, es: seq<Entropy>, turn: nat)
    requires rule.Valid() && rule.baseline <= turn < |es| && rule.sustain <= turn + 1
    ensures Fires(rule, es, turn)
            <==> HigherBy(rule.threshold, es[..rule.baseline], es[turn + 1 - rule.sustain..turn + 1])
  {
    hide Drift, IsAverage, Mean;
    var w, b := Window(rule, es, turn), es[..rule.baseline];
    assert w == es[turn + 1 - rule.sustain..turn + 1];
    if AllFinite(b) && AllFinite(w) {
      FiniteMeansCompare(rule, es, turn);
      MeanIsAverage(b, Mean(b));
      MeanIsAverage(w, Mean(w));
    }
    if reference, recent :| IsAverage(b, reference) && IsAverage(w, recent) && recent >= reference + rule.threshold {
      MeanIsAverage(b, reference);
      MeanIsAverage(w, recent);
    }
  }

  // ---------------------------------------------------------------------
  // Causality: a verdict depends on the turns up to it and no later one.

  lemma FiresIsCausal(rule: Rule, es: seq<Entropy>, more: seq<Entropy>, turn: nat)
    requires rule.Valid() && rule.baseline <= turn < |es| && rule.sustain <= turn + 1
    ensures Fires(rule, es + more, turn) <==> Fires(rule, es, turn)
  {
    assert (es + more)[..rule.baseline] == es[..rule.baseline];
    assert Window(rule, es + more, turn) == Window(rule, es, turn);
  }

  lemma FrontierIsCausal(rule: Rule, es: seq<Entropy>, more: seq<Entropy>, turn: nat)
    requires rule.Valid() && turn < |es|
    ensures IsFrontier(rule, es + more, turn) <==> IsFrontier(rule, es, turn)
  {
    hide Fires;
    if rule.baseline <= turn && rule.sustain <= turn + 1 {
      forall k: nat | rule.baseline <= k <= turn && rule.sustain <= k + 1
        ensures Fires(rule, es + more, k) <==> Fires(rule, es, k)
      {
        FiresIsCausal(rule, es, more, k);
      }
    }
  }

  /** Once the rule has fired, further turns change neither the verdict nor the retained length. */
  lemma StableUnderExtension(rule: Rule, es: seq<Entropy>, more: seq<Entropy>)
    requires rule.Valid() && RetainedTurns(rule, es).Some?
    ensures RetainedTurns(rule, es + more) == RetainedTurns(rule, es)
  {
    hide RetainedTurns, IsFrontier;
    RetainedMeansFrontier(rule, es);
    RetainedMeansFrontier(rule, es + more);
    var turn :| IsFrontier(rule, es, turn);
    FrontierInRange(rule, es, turn);
    FrontierIsCausal(rule, es, more, turn);
  }

  lemma FrontierInRange(rule: Rule, es: seq<Entropy>, turn: nat)
    requires rule.Valid() && IsFrontier(rule, es, turn)
    ensures rule.baseline <= turn < |es| && rule.sustain <= turn + 1
  {
  }

  // ---------------------------------------------------------------------
  // Online against offline.

  /**
   * What a session does turn by turn: it asks the rule about the turns so far and
   * accepts while there is no verdict.
   */
  function AcceptedTurns(rule: Rule, es: seq<Entropy>): nat
    requires rule.Valid()
  {
    if |es| == 0 then 0
    else AcceptedTurns(rule, es[..|es| - 1]) + if RetainedTurns(rule, es).None? then 1 else 0
  }

  /** What the rule retains of a finished list of turns. */
  function OfflineTurns(rule: Rule, es: seq<Entropy>): int
    requires rule.Valid()
  {
    match RetainedTurns(rule, es)
    case None => |es|
    case Some(turns) => if turns < |es| then turns else |es|
  }

  /** The session rejects its first frontier turn and everything after it, and accepts every turn before it. */
  lemma StopsAtFirstFrontier(rule: Rule, es: seq<Entropy>, turn: nat, i: nat)
    requires rule.Valid() && IsFrontier(rule, es, turn) && i <= |es|
    ensures RetainedTurns(rule, es[..i]).None? <==> i <= turn
  {
    hide RetainedTurns, IsFrontier;
    FrontierInRange(rule, es, turn);
    RetainedMeansFrontier(rule, es[..i]);
    if i <= turn {
      if other :| IsFrontier(rule, es[..i], other) {
        FrontierInRange(rule, es[..i], other);
        assert es[..i] + es[i..] == es;
        FrontierIsCausal(rule, es[..i], es[i..], other);
        FrontierIsUnique(rule, es, turn, other);
        assert false;
      }
    } else {
      assert es[..i] + es[i..] == es;
      FrontierIsCausal(rule, es[..i], es[i..], turn);
    }
  }

  lemma FrontierIsUnique(rule: Rule, es: seq<Entropy>, s: nat, t: nat)
    requires rule.Valid() && IsFrontier(rule, es, s) && IsFrontier(rule, es, t)
    ensures s == t
  {
  }

  lemma {:induction false} AcceptsUpTo(rule: Rule, es: seq<Entropy>, turn: nat, i: nat)
    requires rule.Valid() && IsFrontier(rule, es, turn) && i <= |es|
    ensures AcceptedTurns(rule, es[..i]) == if i <= turn then i else turn
  {
    hide IsFrontier, RetainedTurns;
    if i > 0 {
      AcceptsUpTo(rule, es, turn, i - 1);
      StopsAtFirstFrontier(rule, es, turn, i);
      assert es[..i][..i - 1] == es[..i - 1];
    }
  }

  lemma {:induction false} AcceptsAll(rule: Rule, es: seq<Entropy>, i: nat)
    requires rule.Valid() && RetainedTurns(rule, es).None? && i <= |es|
    ensures AcceptedTurns(rule, es[..i]) == i
  {
    hide RetainedTurns;
    if i > 0 {
      AcceptsAll(rule, es, i - 1);
      assert es[..i][..i - 1] == es[..i - 1];
      if RetainedTurns(rule, es[..i]).Some? {
        assert es[..i] + es[i..] == es;
        StableUnderExtension(rule, es[..i], es[i..]);
        assert false;
      }
    }
  }

  /** How many turns a session accepts: all of them, or those before the first frontier. */
  lemma SessionAccepts(rule: Rule, es: seq<Entropy>)
    requires rule.Valid()
    ensures forall turn :: IsFrontier(rule, es, turn) ==> AcceptedTurns(rule, es) == turn
    ensures (forall turn :: !IsFrontier(rule, es, turn)) ==> AcceptedTurns(rule, es) == |es|
  {
    hide IsFrontier, RetainedTurns, AcceptedTurns;
    assert es[..|es|] == es;
    RetainedMeansFrontier(rule, es);
    if turn :| IsFrontier(rule, es, turn) {
      FrontierInRange(rule, es, turn);
      AcceptsUpTo(rule, es, turn, |es|);
      forall other | IsFrontier(rule, es, other)
        ensures other == turn
      {
        FrontierIsUnique(rule, es, turn, other);
      }
    } else {
      AcceptsAll(rule, es, |es|);
    }
  }

  /** Enough zeros to pass the warm-up, then one turn of `peak`. */
  function Spike(zeros: nat, peak: real): seq<Entropy> {
    seq(zeros, _ => Finite(0.0)) + [Finite(peak)]
  }

  lemma {:induction false} DriftOfSpike(zeros: nat, peak: real)
    ensures AllFinite(Spike(zeros, peak)) && Drift(Spike(zeros, peak), 0.0) == peak
  {
    if zeros > 0 {
      assert Spike(zeros, peak)[1..] == Spike(zeros - 1, peak);
      DriftOfSpike(zeros - 1, peak);
    }
  }

  lemma {:induction false} DriftOfZeros(n: nat)
    ensures var zeros := seq(n, _ => Finite(0.0)); AllFinite(zeros) && Drift(zeros, 0.0) == 0.0
  {
    var zeros := seq(n, _ => Finite(0.0));
    if n > 0 {
      assert zeros[1..] == seq(n - 1, _ => Finite(0.0));
      DriftOfZeros(n - 1);
    }
  }

  lemma ProductOverFactor(a: real, n: real)
    requires n > 0.0
    ensures a * n / n == a
  {
  }

  /** The entropy of one turn that lifts a window of zeros exactly to the threshold. */
  function Peak(rule: Rule): (peak: real)
    requires rule.Valid()
    ensures peak / rule.sustain as real == rule.threshold
  {
    ProductOverFactor(rule.threshold, rule.sustain as real);
    rule.threshold * rule.sustain as real
  }

  lemma SpikeFires(rule: Rule, peak: real)
    requires rule.Valid() && peak / rule.sustain as real == rule.threshold
    ensures IsFrontier(rule, Spike(rule.Warmup(), peak), rule.Warmup())
  {
    hide Drift;
    var w := rule.Warmup();
    var es := Spike(w, peak);
    assert es[..rule.baseline] == seq(rule.baseline, _ => Finite(0.0));
    DriftOfZeros(rule.baseline);
    assert Mean(es[..rule.baseline]) == 0.0;
    assert Window(rule, es, w) == Spike(rule.sustain - 1, peak);
    DriftOfSpike(rule.sustain - 1, peak);
  }

  /**
   * The turn-by-turn session accepts, for every list of entropies, exactly what
   * the rule would retain of the whole list if and only if the minimum retained
   * length lies within the warm-up. With a larger minimum the session drops
   * turns that the rule keeps.
   */
  lemma OnlineEqualsOffline(rule: Rule)
    requires rule.Valid()
    ensures (forall es :: AcceptedTurns(rule, es) == OfflineTurns(rule, es))
            <==> rule.minRetained <= rule.baseline || rule.minRetained < rule.sustain
  {
    hide IsFrontier, RetainedTurns, AcceptedTurns, Peak;
    if rule.minRetained <= rule.Warmup() {
      forall es
        ensures AcceptedTurns(rule, es) == OfflineTurns(rule, es)
      {
        SessionAccepts(rule, es);
        RetainedMeansFrontier(rule, es);
        if turn :| IsFrontier(rule, es, turn) {
          FrontierInRange(rule, es, turn);
        }
      }
    } else {
      var w := rule.Warmup();
      var es := Spike(w, Peak(rule));
      SpikeFires(rule, Peak(rule));
      SessionAccepts(rule, es);
      RetainedMeansFrontier(rule, es);
      assert AcceptedTurns(rule, es) == w && OfflineTurns(rule, es) == w + 1;
    }
  }
}
