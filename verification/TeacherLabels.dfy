/**
 * Sampled-token labels and entropy diagnostics from one Teacher forward pass.
 *
 * The Teacher is causal: what it says about the next token depends only on the
 * tokens before it and on which token was sampled.
 */
module TeacherLabels {
  import opened Prelude

  type Token = int

  /** One entry of a row's dictionary; a row lists its entries in insertion order. */
  datatype Candidate = Candidate(token: Token, logprob: Float, rank: int)
  type Row = seq<Candidate>

  /** The Teacher's output; the first row describes no token and is never read. */
  datatype Forward = Forward(tokens: seq<Token>, rows: seq<Row>)

  /** One-element label rows are flattened; the last id and the last label are dummies. */
  datatype Scores = Scores(ids: seq<Token>, logprobs: seq<Float>, entropy: Float, mass: Float)
  datatype ScoreError = MissingToken | LengthMismatch

  const DUMMY_LABEL := Finite(0.0)

  function Tail<T>(s: seq<T>): seq<T> {
    if |s| == 0 then [] else s[1..]
  }

  function Lookup(row: Row, token: Token): Option<Float> {
    if |row| == 0 then None
    else if row[0].token == token then Some(row[0].logprob)
    else Lookup(row[1..], token)
  }

  predicate Counts(c: Candidate) {
    c.rank <= 16 && c.logprob.Finite?
  }

  /** Unnormalised entropy of a row's candidates of rank 16 or better. */
  function RowEntropy(exp: real -> real, row: Row): real {
    if |row| == 0 then 0.0
    else
      var c := row[|row| - 1];
      RowEntropy(exp, row[..|row| - 1]) - if Counts(c) then exp(c.logprob.value) * c.logprob.value else 0.0
  }

  function RowMass(exp: real -> real, row: Row): real {
    if |row| == 0 then 0.0
    else
      var c := row[|row| - 1];
      RowMass(exp, row[..|row| - 1]) + if Counts(c) then exp(c.logprob.value) else 0.0
  }

  function EntropyTotal(exp: real -> real, rows: seq<Row>): real {
    if |rows| == 0 then 0.0
    else EntropyTotal(exp, rows[..|rows| - 1]) + RowEntropy(exp, rows[|rows| - 1])
  }

  function MassTotal(exp: real -> real, rows: seq<Row>): real {
    if |rows| == 0 then 0.0
    else MassTotal(exp, rows[..|rows| - 1]) + RowMass(exp, rows[|rows| - 1])
  }

  function Average(total: real, count: nat): Float {
    if count == 0 then NotFinite else Finite(total / count as real)
  }

  function Shorter(a: nat, b: nat): nat {
    if a < b then a else b
  }

  /** The sampled token is in its row, wherever both lists reach. */
  predicate AllPresent(tokens: seq<Token>, rows: seq<Row>) {
    forall i :: 0 <= i < Shorter(|tokens|, |rows|) ==> Lookup(rows[i], tokens[i]).Some?
  }

  function SampledLabels(tokens: seq<Token>, rows: seq<Row>): seq<Float>
    requires |tokens| <= |rows| && AllPresent(tokens, rows)
  {
    seq(|tokens|, i requires 0 <= i < |tokens| => Lookup(rows[i], tokens[i]).value)
  }

  /** The rows of the suffix that is diagnosed. */
  function Suffix(rows: seq<Row>, start: int): seq<Row> {
    if start >= |rows| then [] else if start < 0 then rows else rows[start..]
  }

  function Extracted(exp: real -> real, output: Forward, start: int): Result<Scores, ScoreError> {
    var tokens, rows := Tail(output.tokens), Tail(output.rows);
    if !AllPresent(tokens, rows) then Err(MissingToken)
    else if |tokens| != |rows| then Err(LengthMismatch)
    else
      var suffix := Suffix(rows, start);
      Ok(Scores(tokens + [0], SampledLabels(tokens, rows) + [DUMMY_LABEL],
                Average(EntropyTotal(exp, suffix), |suffix|), Average(MassTotal(exp, suffix), |suffix|)))
  }

  method AddRow(exp: real -> real, row: Row, entropyBefore: real, massBefore: real) returns (entropy: real, mass: real)
    ensures entropy == entropyBefore + RowEntropy(exp, row)
    ensures mass == massBefore + RowMass(exp, row)
  {
    entropy, mass := entropyBefore, massBefore;
    for i := 0 to |row|
      invariant entropy == entropyBefore + RowEntropy(exp, row[..i])
      invariant mass == massBefore + RowMass(exp, row[..i])
    {
      assert row[..i + 1][..i] == row[..i];
      var value := row[i];
      if value.rank <= 16 && value.logprob.Finite? {
        var probability := exp(value.logprob.value);
        entropy := entropy - probability * value.logprob.value;
        mass := mass + probability;
      }
    }
    assert row[..|row|] == row;
  }

  /** What one more position adds to the suffix and its totals. */
  lemma SuffixGrows(exp: real -> real, rows: seq<Row>, start: int, i: nat)
    requires i < |rows|
    ensures var before, after := Suffix(rows[..i], start), Suffix(rows[..i + 1], start);
            && |after| == |before| + (if i >= start then 1 else 0)
            && EntropyTotal(exp, after) == EntropyTotal(exp, before) + (if i >= start then RowEntropy(exp,
                rows[i]) else 0.0)
            && MassTotal(exp, after) == MassTotal(exp, before) + (if i >= start then RowMass(exp, rows[i]) else 0.0)
  {
    hide RowEntropy, RowMass;
    var before, after := Suffix(rows[..i], start), Suffix(rows[..i + 1], start);
    if i >= start {
      assert after == before + [rows[i]] && after[..|before|] == before;
    } else {
      assert after == before;
    }
  }

  lemma LabelsGrow(tokens: seq<Token>, rows: seq<Row>, i: nat)
    requires i < |tokens| && i < |rows| && AllPresent(tokens[..i], rows)
    ensures AllPresent(tokens[..i + 1], rows) <==> Lookup(rows[i], tokens[i]).Some?
    ensures Lookup(rows[i], tokens[i]).None? ==> !AllPresent(tokens, rows)
    ensures AllPresent(tokens[..i + 1], rows) ==>
              SampledLabels(tokens[..i + 1], rows)
              == SampledLabels(tokens[..i], rows) + [Lookup(rows[i], tokens[i]).value]
  {
    hide Lookup;
    var more := tokens[..i + 1];
    assert forall k :: 0 <= k < i ==> more[k] == tokens[..i][k];
    if Lookup(rows[i], tokens[i]).Some? {
      assert AllPresent(more, rows);
    }
  }

  /** The loop over positions: it collects the labels and averages over this turn's suffix only. */
  method ExtractAdaptiveLogprobs(exp: real -> real, output: Forward, start: int)
    returns (r: Result<Scores, ScoreError>)
    ensures r == Extracted(exp, output, start)
  {
    hide RowEntropy, RowMass, Lookup, AllPresent, SampledLabels, EntropyTotal, MassTotal, Suffix;
    var tokens, rows := Tail(output.tokens), Tail(output.rows);
    var ids, logprobs: seq<Float> := [], [];
    var entropy, mass, count := 0.0, 0.0, 0;
    NothingYet(exp, tokens, rows, start);
    var n := Shorter(|tokens|, |rows|);
    for i := 0 to n
      invariant ids == tokens[..i]
      invariant AllPresent(tokens[..i], rows) && logprobs == SampledLabels(tokens[..i], rows)
      invariant entropy == EntropyTotal(exp, Suffix(rows[..i], start))
      invariant mass == MassTotal(exp, Suffix(rows[..i], start))
      invariant count == |Suffix(rows[..i], start)|
    {
      var token, row := tokens[i], rows[i];
      LabelsGrow(tokens, rows, i);
      SuffixGrows(exp, rows, start, i);
      var sampled := Lookup(row, token);
      if sampled.None? {
        return Err(MissingToken);
      }
      ids := ids + [token];
      logprobs := logprobs + [sampled.value];
      if i >= start {
        count := count + 1;
        entropy, mass := AddRow(exp, row, entropy, mass);
      }
    }
    Everything(tokens, rows, n);
    if |tokens| != |rows| {
      return Err(LengthMismatch);
    }
    assert tokens[..n] == tokens && rows[..n] == rows;
    return Ok(Scores(ids + [0], logprobs + [DUMMY_LABEL], Average(entropy, count), Average(mass, count)));
  }

  lemma NothingYet(exp: real -> real, tokens: seq<Token>, rows: seq<Row>, start: int)
    ensures AllPresent(tokens[..0], rows) && SampledLabels(tokens[..0], rows) == []
    ensures Suffix(rows[..0], start) == []
    ensures EntropyTotal(exp, []) == 0.0 && MassTotal(exp, []) == 0.0
  {
  }

  lemma Everything(tokens: seq<Token>, rows: seq<Row>, n: nat)
    requires n == Shorter(|tokens|, |rows|) && AllPresent(tokens[..n], rows)
    ensures AllPresent(tokens, rows)
  {
  }

  // ---------------------------------------------------------------------
  // A causal Teacher.

  type Teacher = (seq<Token>, Token) -> Row

  /** The Teacher reports the sampled token whatever its rank. */
  ghost predicate ReportsSampled(teacher: Teacher) {
    forall context, token :: Lookup(teacher(context, token), token).Some?
  }

  ghost function LabelAt(teacher: Teacher, context: seq<Token>, token: Token): Float
    requires ReportsSampled(teacher)
  {
    Lookup(teacher(context, token), token).value
  }

  ghost predicate IsForward(teacher: Teacher, output: Forward) {
    && |output.rows| == |output.tokens|
    && forall i :: 1 <= i < |output.tokens| ==> output.rows[i] == teacher(output.tokens[..i], output.tokens[i])
  }

  /**
   * Labels of a sequence: row i is the Teacher's label of token i + 1 given the
   * tokens up to i; the last is a dummy.
   */
  ghost predicate LabelsOf(teacher: Teacher, tokens: seq<Token>, labels: seq<Float>)
    requires ReportsSampled(teacher)
  {
    && |labels| == |tokens|
    && forall i :: 0 <= i < |tokens| - 1 ==> labels[i] == LabelAt(teacher, tokens[..i + 1], tokens[i + 1])
  }

  /** The Teacher's rows for the tokens from a position on. */
  ghost function RowsFrom(teacher: Teacher, tokens: seq<Token>, start: nat): seq<Row>
    requires start <= |tokens|
  {
    seq(|tokens| - start, i requires 0 <= i < |tokens| - start => teacher(tokens[..start + i], tokens[start + i]))
  }

  /** On a Teacher's own forward pass extraction never fails, and every label is the Teacher's for its next token. */
  lemma ForwardIsLabelled(exp: real -> real, teacher: Teacher, output: Forward, start: int)
    requires ReportsSampled(teacher) && IsForward(teacher, output) && |output.tokens| > 0
    ensures var r := Extracted(exp, output, start);
            r.Ok? && LabelsOf(teacher, output.tokens, r.value.logprobs) && |r.value.ids| == |output.tokens|
            && forall i :: 0 <= i < |output.tokens| - 1 ==> r.value.ids[i] == output.tokens[i + 1]
  {
    var tokens, rows := Tail(output.tokens), Tail(output.rows);
    forall i | 0 <= i < |tokens|
      ensures rows[i] == teacher(output.tokens[..i + 1], tokens[i])
    {
      assert rows[i] == output.rows[i + 1];
    }
  }

  // ---------------------------------------------------------------------
  // What the figures mean.

  ghost predicate HasToken(row: Row, token: Token, logprob: Float) {
    exists k :: 0 <= k < |row| && row[k].token == token && row[k].logprob == logprob
  }

  ghost predicate NamesToken(row: Row, token: Token) {
    exists k :: 0 <= k < |row| && row[k].token == token
  }

  lemma {:induction false} LookupFinds(row: Row, token: Token)
    ensures Lookup(row, token).Some? <==> NamesToken(row, token)
    ensures Lookup(row, token).Some? ==> HasToken(row, token, Lookup(row, token).value)
  {
    if |row| > 0 && row[0].token != token {
      LookupFinds(row[1..], token);
      if k :| 0 <= k < |row| && row[k].token == token {
        assert row[1..][k - 1] == row[k];
      }
      if Lookup(row, token).Some? {
        var k :| 0 <= k < |row[1..]| && row[1..][k].token == token
                 && row[1..][k].logprob == Lookup(row, token).value;
        assert row[k + 1] == row[1..][k];
      }
    }
  }

  /**
   * Extraction fails on the first token that its row does not name, otherwise on
   * lists of different lengths, and otherwise gives each token the value that its
   * row names for it, with a dummy at the end.
   */
  lemma ExtractedExactly(exp: real -> real, output: Forward, start: int)
    requires |output.tokens| > 0 && |output.rows| > 0
    ensures var r, tokens, rows := Extracted(exp, output, start), output.tokens, output.rows;
            var named := forall i :: 1 <= i < |tokens| && i < |rows| ==> NamesToken(rows[i], tokens[i]);
            && (r == Err(MissingToken) <==> !named)
            && (r == Err(LengthMismatch) <==> named && |tokens| != |rows|)
            && (r.Ok? ==>
                  && |r.value.ids| == |r.value.logprobs| == |tokens|
                  && r.value.ids[|tokens| - 1] == 0 && r.value.logprobs[|tokens| - 1] == Finite(0.0)
                  && forall i :: 1 <= i < |tokens| ==>
                       r.value.ids[i - 1] == tokens[i] && HasToken(rows[i], tokens[i], r.value.logprobs[i - 1]))
  {
    hide Lookup, EntropyTotal, MassTotal, Suffix, NamesToken, HasToken;
    var tokens, rows := Tail(output.tokens), Tail(output.rows);
    forall i | 0 <= i < |tokens| && i < |rows|
      ensures tokens[i] == output.tokens[i + 1] && rows[i] == output.rows[i + 1]
      ensures Lookup(rows[i], tokens[i]).Some? <==> NamesToken(output.rows[i + 1], output.tokens[i + 1])
      ensures Lookup(rows[i], tokens[i]).Some? ==> HasToken(rows[i], tokens[i], Lookup(rows[i], tokens[i]).value)
    {
      LookupFinds(rows[i], tokens[i]);
    }
    var named := forall i :: 1 <= i < |output.tokens| && i < |output.rows|
                             ==> NamesToken(output.rows[i], output.tokens[i]);
    if AllPresent(tokens, rows) {
      forall i | 1 <= i < |output.tokens| && i < |output.rows|
        ensures NamesToken(output.rows[i], output.tokens[i])
      {
        assert Lookup(rows[i - 1], tokens[i - 1]).Some?;
      }
    }
    if named {
      forall i | 0 <= i < Shorter(|tokens|, |rows|)
        ensures Lookup(rows[i], tokens[i]).Some?
      {
        assert NamesToken(output.rows[i + 1], output.tokens[i + 1]);
      }
    }
  }

  /** Candidates of rank 16 or better with a finite logarithm l contribute -exp(l) l and exp(l), others nothing. */
  ghost predicate IsTerm(exp: real -> real, c: Candidate, entropy: real, mass: real) {
    if c.rank <= 16 && c.logprob != NotFinite
    then entropy == -(exp(c.logprob.value) * c.logprob.value) && mass == exp(c.logprob.value)
    else entropy == mass == 0.0
  }

  ghost predicate RowTerms(exp: real -> real, row: Row, entropies: seq<real>, masses: seq<real>) {
    && |entropies| == |masses| == |row|
    && forall k :: 0 <= k < |row| ==> IsTerm(exp, row[k], entropies[k], masses[k])
  }

  lemma OneMoreTerm(exp: real -> real, row: Row) returns (entropy: real, mass: real)
    requires |row| > 0
    ensures var n := |row| - 1;
            && IsTerm(exp, row[n], entropy, mass)
            && RowEntropy(exp, row) == RowEntropy(exp, row[..n]) + entropy
            && RowMass(exp, row) == RowMass(exp, row[..n]) + mass
  {
    var c := row[|row| - 1];
    entropy := if Counts(c) then -(exp(c.logprob.value) * c.logprob.value) else 0.0;
    mass := if Counts(c) then exp(c.logprob.value) else 0.0;
  }

  ghost predicate RowFigures(exp: real -> real, row: Row, entropy: real, mass: real) {
    exists entropies, masses ::
      RowTerms(exp, row, entropies, masses) && SumReal(entropies) == entropy && SumReal(masses) == mass
  }

  lemma SumRealSnoc(values: seq<real>, last: real)
    ensures SumReal(values + [last]) == SumReal(values) + last
  {
    SumRealAppend(values, [last]);
    assert [last][1..] == [];
  }

  lemma {:induction false} RowFiguresOf(exp: real -> real, row: Row) returns (entropies: seq<real>, masses: seq<real>)
    ensures RowTerms(exp, row, entropies, masses)
    ensures SumReal(entropies) == RowEntropy(exp, row) && SumReal(masses) == RowMass(exp, row)
  {
    if |row| == 0 {
      entropies, masses := [], [];
    } else {
      hide RowEntropy, RowMass, IsTerm, SumReal;
      var n := |row| - 1;
      var es, ms := RowFiguresOf(exp, row[..n]);
      var e, m := OneMoreTerm(exp, row);
      entropies, masses := es + [e], ms + [m];
      SumRealSnoc(es, e);
      SumRealSnoc(ms, m);
    }
  }

  lemma {:induction false} TotalFigures(exp: real -> real, rows: seq<Row>)
    returns (entropies: seq<real>, masses: seq<real>)
    ensures |entropies| == |masses| == |rows|
    ensures forall i :: 0 <= i < |rows| ==> RowFigures(exp, rows[i], entropies[i], masses[i])
    ensures SumReal(entropies) == EntropyTotal(exp, rows) && SumReal(masses) == MassTotal(exp, rows)
  {
    hide RowTerms, RowEntropy, RowMass;
    if |rows| == 0 {
      entropies, masses := [], [];
    } else {
      var n := |rows| - 1;
      var es, ms := TotalFigures(exp, rows[..n]);
      var terms, shares := RowFiguresOf(exp, rows[n]);
      entropies, masses := es + [RowEntropy(exp, rows[n])], ms + [RowMass(exp, rows[n])];
      SumRealSnoc(es, RowEntropy(exp, rows[n]));
      SumRealSnoc(ms, RowMass(exp, rows[n]));
    }
  }

  lemma AverageTimes(total: real, count: nat)
    ensures count == 0 ==> Average(total, count) == NotFinite
    ensures count > 0 ==> Average(total, count).Finite? && Average(total, count).value * count as real == total
  {
  }

  /**
   * The diagnostics of a turn average over exactly the tokens that the turn
   * generated, each with the Teacher's row for it; without any there are none.
   */
  lemma TurnDiagnostics(exp: real -> real, teacher: Teacher, prompt: seq<Token>, generated: seq<Token>, output: Forward)
    returns (entropies: seq<real>, masses: seq<real>)
    requires ReportsSampled(teacher) && IsForward(teacher, output)
    requires |prompt| > 0 && output.tokens == prompt + generated
    ensures |entropies| == |masses| == |generated|
    ensures forall i :: 0 <= i < |generated| ==>
              RowFigures(exp, teacher((prompt + generated)[..|prompt| + i], generated[i]), entropies[i], masses[i])
    ensures var r := Extracted(exp, output, |prompt| - 1);
            && r.Ok?
            && if |generated| == 0 then r.value.entropy == r.value.mass == NotFinite
               else r.value.entropy.Finite? && r.value.mass.Finite?
                    && r.value.entropy.value * |generated| as real == SumReal(entropies)
                    && r.value.mass.value * |generated| as real == SumReal(masses)
  {
    hide EntropyTotal, MassTotal, RowFigures, Average, SumReal;
    ForwardIsLabelled(exp, teacher, output, |prompt| - 1);
    var rows := RowsFrom(teacher, prompt + generated, |prompt|);
    assert Suffix(Tail(output.rows), |prompt| - 1) == rows;
    entropies, masses := TotalFigures(exp, rows);
    AverageTimes(EntropyTotal(exp, rows), |generated|);
    AverageTimes(MassTotal(exp, rows), |generated|);
    forall i | 0 <= i < |generated|
      ensures rows[i] == teacher((prompt + generated)[..|prompt| + i], generated[i])
    {
    }
  }
}
