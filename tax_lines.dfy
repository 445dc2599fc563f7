/** Amounts and tax lines of an invoice, and the folds the reconciliation
    logic computes over a sequence of tax lines.

    Every fold is defined on the last element of the sequence, so that it
    reads like the left-to-right `forEach` and `reduce` loops over
    `this.taxes` in mindee/documents/invoice.js. */
module TaxLines {

  datatype Option<+T> = None | Some(value: T)

  /** A monetary field: an optional amount (absent when the extractor gave
      "N/A") and the confidence of the extraction. */
  datatype Amount = Amount(value: Option<real>, probability: real)

  /** One tax line: optional amount of tax, optional rate in percent,
      optional tax code and the confidence of the extraction. */
  datatype Tax = Tax(value: Option<real>, rate: Option<real>, code: Option<string>, probability: real)

  /** A line that the two relative checks use: its value is present and its
      rate is present and non-zero (`!tax.rate` is true for an absent or a
      zero rate, and such a line is skipped). */
  predicate Usable(t: Tax) {
    t.value.Some? && t.rate.Some? && t.rate.value != 0.0
  }

  /** The amount of tax a line adds to `totalVat` in the relative checks. */
  function VatTerm(t: Tax): real {
    if Usable(t) then t.value.value else 0.0
  }

  /** What a line adds to the reconstructed total including taxes: the tax
      plus the base that its own rate implies. */
  function InclTerm(t: Tax): real {
    if Usable(t) then t.value.value + (100.0 * t.value.value) / t.rate.value else 0.0
  }

  /** What a line adds to the reconstructed total excluding taxes: the base
      that its own rate implies. */
  function ExclTerm(t: Tax): real {
    if Usable(t) then (100.0 * t.value.value) / t.rate.value else 0.0
  }

  /** The term of the `reduce` that counts every present value. */
  function PresentTerm(t: Tax): real {
    if t.value.Some? then t.value.value else 0.0
  }

  /** The term of the `reduce` that counts a value only when it is truthy,
      that is present and non-zero. */
  function TruthyTerm(t: Tax): real {
    if t.value.Some? && t.value.value != 0.0 then t.value.value else 0.0
  }

  /** Sum of `term` over the lines, added from the first line to the last. */
  function Sum(ts: seq<Tax>, term: Tax -> real): real
    decreases |ts|
  {
    if ts == [] then 0.0 else Sum(ts[..|ts| - 1], term) + term(ts[|ts| - 1])
  }

  /** JavaScript addition of a possibly absent value to an accumulator:
      adding `undefined` gives `NaN`, and `NaN` stays `NaN`. `None` stands
      for `NaN` on the accumulator side. */
  function NanAdd(acc: Option<real>, v: Option<real>): Option<real> {
    if acc.Some? && v.Some? then Some(acc.value + v.value) else None
  }

  /** The sum `totalVat += tax.value` over every line, which is `NaN`
      (`None`) as soon as one value is absent. */
  function StrictSum(ts: seq<Tax>): Option<real>
    decreases |ts|
  {
    if ts == [] then Some(0.0) else NanAdd(StrictSum(ts[..|ts| - 1]), ts[|ts| - 1].value)
  }

  /** Product of the confidences of the lines; the empty product is 1. */
  function ArrayProbability(ts: seq<Tax>): real
    decreases |ts|
  {
    if ts == [] then 1.0 else ArrayProbability(ts[..|ts| - 1]) * ts[|ts| - 1].probability
  }

  /** The lines with their confidence raised to certainty, as the
      `map((tax) => ({ ...tax, probability: 1.0 }))` of a passing check. */
  function Certain(ts: seq<Tax>): seq<Tax> {
    seq(|ts|, i requires 0 <= i < |ts| => ts[i].(probability := 1.0))
  }

  /** The usable lines, in their order. */
  function UsableLines(ts: seq<Tax>): (r: seq<Tax>)
    ensures forall i :: 0 <= i < |r| ==> Usable(r[i])
    decreases |ts|
  {
    if ts == [] then []
    else if Usable(ts[|ts| - 1]) then UsableLines(ts[..|ts| - 1]) + [ts[|ts| - 1]]
    else UsableLines(ts[..|ts| - 1])
  }

  /** Two sequences of lines that agree on value, rate and code line by line
      (they may differ in confidence). */
  predicate SameLineValues(s: seq<Tax>, t: seq<Tax>) {
    |s| == |t| &&
    forall i :: 0 <= i < |s| ==> s[i].value == t[i].value && s[i].rate == t[i].rate && s[i].code == t[i].code
  }

  predicate ProbabilityInUnit(p: real) {
    0.0 <= p <= 1.0
  }

  predicate LinesInUnit(ts: seq<Tax>) {
    forall i :: 0 <= i < |ts| ==> ProbabilityInUnit(ts[i].probability)
  }

  // ---------------------------------------------------------------------
  // Lemmas about the folds

  /** A sum depends only on the terms of the lines, line by line. */
  lemma {:induction false} SumPointwise(s: seq<Tax>, t: seq<Tax>, f: Tax -> real, g: Tax -> real)
    requires |s| == |t|
    requires forall i :: 0 <= i < |s| ==> f(s[i]) == g(t[i])
    ensures Sum(s, f) == Sum(t, g)
    decreases |s|
  {
    if s != [] {
      var n := |s| - 1;
      SumPointwise(s[..n], t[..n], f, g);
    }
  }

  /** Every sum the checks and the reconstruction use reads only the
      values and rates of the lines, never their confidences. */
  lemma {:induction false} SumsIgnoreProbabilities(s: seq<Tax>, t: seq<Tax>)
    requires SameLineValues(s, t)
    ensures Sum(s, VatTerm) == Sum(t, VatTerm)
    ensures Sum(s, InclTerm) == Sum(t, InclTerm)
    ensures Sum(s, ExclTerm) == Sum(t, ExclTerm)
    ensures Sum(s, PresentTerm) == Sum(t, PresentTerm)
    ensures Sum(s, TruthyTerm) == Sum(t, TruthyTerm)
    ensures StrictSum(s) == StrictSum(t)
  {
    SumPointwise(s, t, VatTerm, VatTerm);
    SumPointwise(s, t, InclTerm, InclTerm);
    SumPointwise(s, t, ExclTerm, ExclTerm);
    SumPointwise(s, t, PresentTerm, PresentTerm);
    SumPointwise(s, t, TruthyTerm, TruthyTerm);
    StrictSumIgnoresProbabilities(s, t);
  }

  lemma {:induction false} StrictSumIgnoresProbabilities(s: seq<Tax>, t: seq<Tax>)
    requires SameLineValues(s, t)
    ensures StrictSum(s) == StrictSum(t)
    decreases |s|
  {
    if s != [] {
      var n := |s| - 1;
      assert SameLineValues(s[..n], t[..n]);
      StrictSumIgnoresProbabilities(s[..n], t[..n]);
    }
  }

  /** Skipping the zero values (the truthiness test of one `reduce`) gives
      the same sum as counting every present value (the other `reduce`). */
  lemma {:induction false} TruthySumIsPresentSum(ts: seq<Tax>)
    ensures Sum(ts, TruthyTerm) == Sum(ts, PresentTerm)
  {
    SumPointwise(ts, ts, TruthyTerm, PresentTerm);
  }

  /** The sum of `totalVat += tax.value` is a number exactly when every
      value is present, and it is then the sum of the present values. */
  lemma {:induction false} StrictSumDefined(ts: seq<Tax>)
    ensures StrictSum(ts).Some? <==> forall i :: 0 <= i < |ts| ==> ts[i].value.Some?
    ensures StrictSum(ts).Some? ==> StrictSum(ts).value == Sum(ts, PresentTerm)
    decreases |ts|
  {
    if ts != [] {
      var n := |ts| - 1;
      StrictSumDefined(ts[..n]);
      if StrictSum(ts).Some? {
        forall i | 0 <= i < |ts| ensures ts[i].value.Some? {
          if i < n { assert ts[i] == ts[..n][i]; }
        }
      }
      if forall i :: 0 <= i < |ts| ==> ts[i].value.Some? {
        assert forall i :: 0 <= i < n ==> ts[..n][i].value.Some?;
      }
    }
  }

  /** Raising the confidences changes no value, rate or code. */
  lemma CertainKeepsValues(ts: seq<Tax>)
    ensures SameLineValues(ts, Certain(ts))
    ensures forall i :: 0 <= i < |ts| ==> Certain(ts)[i].probability == 1.0
    ensures Certain(Certain(ts)) == Certain(ts)
    ensures LinesInUnit(Certain(ts))
  {
  }

  /** Only the usable lines contribute to the sums of the relative checks. */
  lemma {:induction false} UsableLinesSums(ts: seq<Tax>)
    ensures Sum(UsableLines(ts), VatTerm) == Sum(ts, VatTerm)
    ensures Sum(UsableLines(ts), InclTerm) == Sum(ts, InclTerm)
    ensures Sum(UsableLines(ts), ExclTerm) == Sum(ts, ExclTerm)
    decreases |ts|
  {
    if ts != [] {
      var n := |ts| - 1;
      UsableLinesSums(ts[..n]);
      if Usable(ts[n]) {
        var u := UsableLines(ts[..n]) + [ts[n]];
        assert u[..|u| - 1] == UsableLines(ts[..n]);
      }
    }
  }

  /** The product of confidences in [0, 1] is in [0, 1]. */
  lemma {:induction false} ArrayProbabilityInUnit(ts: seq<Tax>)
    requires LinesInUnit(ts)
    ensures ProbabilityInUnit(ArrayProbability(ts))
    decreases |ts|
  {
    if ts != [] {
      var n := |ts| - 1;
      assert LinesInUnit(ts[..n]);
      ArrayProbabilityInUnit(ts[..n]);
      ProductInUnit(ArrayProbability(ts[..n]), ts[n].probability);
    }
  }

  lemma ProductInUnit(p: real, q: real)
    requires ProbabilityInUnit(p) && ProbabilityInUnit(q)
    ensures ProbabilityInUnit(p * q)
  {
    assert 0.0 <= p * q;
    assert p * q <= p by {
      assert p * (1.0 - q) >= 0.0;
      assert p * (1.0 - q) == p - p * q;
    }
  }
}
