/** The reconciliation of one invoice record, as pure functions: the three
    consistency checks, the confidence upgrade a passing check applies, the
    four reconstruction steps, and the two stages run in order. The class
    in module InvoiceDocument is proved to change its fields exactly as
    these functions say. */
module Reconciliation {
  import opened TaxLines

  /** The fields of an invoice that take part in reconciliation. */
  datatype Record = Record(totalIncl: Amount, totalExcl: Amount, totalTax: Amount, taxes: seq<Tax>)

  /** The report of the three checks. */
  datatype CheckResults = CheckResults(
    taxesMatchTotalIncl: bool,
    taxesMatchTotalExcl: bool,
    taxesPlusTotalExclMatchTotalIncl: bool)

  // ---------------------------------------------------------------------
  // Stage 1: the consistency checks

  /** The tolerance of the two relative checks: a relative slack of
      `1 / (100 * totalVat)` plus an absolute slack of 0.02. */
  predicate WithinRelative(expected: real, reconstructed: real, totalVat: real)
    requires totalVat > 0.0
  {
    var eps := 1.0 / (100.0 * totalVat);
    expected * (1.0 - eps) - 0.02 <= reconstructed <= expected * (1.0 + eps) + 0.02
  }

  /** Check A: the tax lines, each with the base its rate implies, add up to
      the total including taxes. */
  predicate MatchesTotalIncl(rec: Record) {
    |rec.taxes| != 0 && rec.totalIncl.value.Some? &&
    var totalVat := Sum(rec.taxes, VatTerm);
    totalVat > 0.0 && WithinRelative(rec.totalIncl.value.value, Sum(rec.taxes, InclTerm), totalVat)
  }

  /** Check B: the bases the tax lines imply add up to the total excluding
      taxes. */
  predicate MatchesTotalExcl(rec: Record) {
    |rec.taxes| != 0 && rec.totalExcl.value.Some? &&
    var totalVat := Sum(rec.taxes, VatTerm);
    totalVat > 0.0 && WithinRelative(rec.totalExcl.value.value, Sum(rec.taxes, ExclTerm), totalVat)
  }

  /** Check C: the total excluding taxes plus every tax value is the total
      including taxes, within 0.01. An absent tax value makes the sum NaN
      and an absent total including taxes makes both comparisons NaN, and
      either fails the check. */
  predicate MatchesTaxesPlusExcl(rec: Record) {
    rec.totalExcl.value.Some? && |rec.taxes| != 0 &&
    var totalVat := StrictSum(rec.taxes);
    totalVat.Some? && totalVat.value > 0.0 && rec.totalIncl.value.Some? &&
    var reconstructed := totalVat.value + rec.totalExcl.value.value;
    rec.totalIncl.value.value - 0.01 <= reconstructed <= rec.totalIncl.value.value + 0.01
  }

  /** What a passing check A or C does: every tax line, the total tax and the
      total including taxes become certain. */
  function CertifyIncl(rec: Record): Record {
    rec.(taxes := Certain(rec.taxes),
         totalTax := rec.totalTax.(probability := 1.0),
         totalIncl := rec.totalIncl.(probability := 1.0))
  }

  /** What a passing check B does: every tax line, the total tax and the
      total excluding taxes become certain. */
  function CertifyExcl(rec: Record): Record {
    rec.(taxes := Certain(rec.taxes),
         totalTax := rec.totalTax.(probability := 1.0),
         totalExcl := rec.totalExcl.(probability := 1.0))
  }

  /** The checklist stage: checks A, B and C in that order, each on the
      record its predecessors left. */
  function Checked(rec: Record): (Record, CheckResults) {
    var a := MatchesTotalIncl(rec);
    var r1 := if a then CertifyIncl(rec) else rec;
    var b := MatchesTotalExcl(r1);
    var r2 := if b then CertifyExcl(r1) else r1;
    var c := MatchesTaxesPlusExcl(r2);
    var r3 := if c then CertifyIncl(r2) else r2;
    (r3, CheckResults(a, b, c))
  }

  // ---------------------------------------------------------------------
  // Stage 2: the reconstruction steps

  /** Step 1: the total tax is the sum of the present tax values with the
      product of the line confidences, whenever that sum is positive. */
  function WithTotalTaxFromTaxes(rec: Record): Record {
    if |rec.taxes| > 0 then
      var total := Amount(Some(Sum(rec.taxes, PresentTerm)), ArrayProbability(rec.taxes));
      if total.value.value > 0.0 then rec.(totalTax := total) else rec
    else rec
  }

  /** Step 2: a missing total excluding taxes is the total including taxes
      minus the present tax values. */
  function WithTotalExclFromIncl(rec: Record): Record {
    if |rec.taxes| > 0 && rec.totalIncl.value.Some? && rec.totalExcl.value.None? then
      rec.(totalExcl := Amount(
        Some(rec.totalIncl.value.value - Sum(rec.taxes, PresentTerm)),
        ArrayProbability(rec.taxes) * rec.totalIncl.probability))
    else rec
  }

  /** Step 3: a missing total including taxes is the total excluding taxes
      plus the truthy tax values. */
  function WithTotalInclFromExcl(rec: Record): Record {
    if |rec.taxes| > 0 && rec.totalExcl.value.Some? && rec.totalIncl.value.None? then
      rec.(totalIncl := Amount(
        Some(rec.totalExcl.value.value + Sum(rec.taxes, TruthyTerm)),
        ArrayProbability(rec.taxes) * rec.totalExcl.probability))
    else rec
  }

  /** JavaScript `x > 0` on an optional number: `undefined > 0` is false. */
  predicate IsPositive(v: Option<real>) {
    v.Some? && v.value > 0.0
  }

  /** Step 4: a still missing total tax is the difference of the totals,
      when 0 < excl <= incl and the difference is positive. */
  function WithTotalTaxFromTotals(rec: Record): Record {
    if rec.totalTax.value.None? && IsPositive(rec.totalIncl.value) && IsPositive(rec.totalExcl.value)
       && rec.totalExcl.value.value <= rec.totalIncl.value.value
    then
      var total := Amount(
        Some(rec.totalIncl.value.value - rec.totalExcl.value.value),
        rec.totalIncl.probability * rec.totalExcl.probability);
      if total.value.value > 0.0 then rec.(totalTax := total) else rec
    else rec
  }

  /** The reconstruction stage: steps 1 to 4 in that order. */
  function Reconstructed(rec: Record): Record {
    WithTotalTaxFromTotals(WithTotalInclFromExcl(WithTotalExclFromIncl(WithTotalTaxFromTaxes(rec))))
  }

  /** The whole reconciliation: the checklist stage, then reconstruction. */
  function Reconciled(rec: Record): (Record, CheckResults) {
    var (checked, results) := Checked(rec);
    (Reconstructed(checked), results)
  }

  // ---------------------------------------------------------------------
  // Properties of the checks

  /** Two records that agree on every value, rate and code. */
  predicate SameValues(a: Record, b: Record) {
    a.totalIncl.value == b.totalIncl.value &&
    a.totalExcl.value == b.totalExcl.value &&
    a.totalTax.value == b.totalTax.value &&
    SameLineValues(a.taxes, b.taxes)
  }

  /** The checks read values and rates only: two records with the same
      values get the same three results, whatever their confidences. */
  lemma ChecksReadOnlyValues(a: Record, b: Record)
    requires SameValues(a, b)
    ensures MatchesTotalIncl(a) == MatchesTotalIncl(b)
    ensures MatchesTotalExcl(a) == MatchesTotalExcl(b)
    ensures MatchesTaxesPlusExcl(a) == MatchesTaxesPlusExcl(b)
  {
    SumsIgnoreProbabilities(a.taxes, b.taxes);
  }

  /** A confidence upgrade changes no value, rate or code, is idempotent,
      and the two upgrades commute. */
  lemma CertifyOnlyRaisesConfidence(rec: Record)
    ensures SameValues(rec, CertifyIncl(rec)) && SameValues(rec, CertifyExcl(rec))
    ensures CertifyIncl(rec).totalExcl == rec.totalExcl
    ensures CertifyExcl(rec).totalIncl == rec.totalIncl
    ensures CertifyIncl(CertifyIncl(rec)) == CertifyIncl(rec)
    ensures CertifyExcl(CertifyExcl(rec)) == CertifyExcl(rec)
    ensures CertifyIncl(CertifyExcl(rec)) == CertifyExcl(CertifyIncl(rec))
  {
    CertainKeepsValues(rec.taxes);
  }

  /** The checklist stage changes no value, and each recorded result is what
      that check gives on the record as it was before the stage: the
      results do not depend on each other or on the order of the checks. */
  lemma ChecklistOrderIndependent(rec: Record)
    ensures SameValues(Checked(rec).0, rec)
    ensures Checked(rec).1 == CheckResults(MatchesTotalIncl(rec), MatchesTotalExcl(rec), MatchesTaxesPlusExcl(rec))
  {
    CertifyOnlyRaisesConfidence(rec);
    var r1 := if MatchesTotalIncl(rec) then CertifyIncl(rec) else rec;
    CertifyOnlyRaisesConfidence(r1);
    ChecksReadOnlyValues(rec, r1);
    var r2 := if MatchesTotalExcl(r1) then CertifyExcl(r1) else r1;
    CertifyOnlyRaisesConfidence(r2);
    ChecksReadOnlyValues(rec, r2);
    CertainKeepsValues(rec.taxes);
    CertainKeepsValues(r1.taxes);
  }

  /** What the checklist stage leaves: a passing check A or C makes the
      total including taxes certain, a passing check B the total excluding
      taxes, any passing check the total tax and every line; a total no
      passing check names keeps its confidence. */
  lemma ChecklistEffect(rec: Record)
    ensures var (r, res) := Checked(rec);
      (if res.taxesMatchTotalIncl || res.taxesPlusTotalExclMatchTotalIncl
       then r.totalIncl == rec.totalIncl.(probability := 1.0) else r.totalIncl == rec.totalIncl) &&
      (if res.taxesMatchTotalExcl
       then r.totalExcl == rec.totalExcl.(probability := 1.0) else r.totalExcl == rec.totalExcl) &&
      (if res.taxesMatchTotalIncl || res.taxesMatchTotalExcl || res.taxesPlusTotalExclMatchTotalIncl
       then r.totalTax == rec.totalTax.(probability := 1.0) && r.taxes == Certain(rec.taxes)
       else r == rec)
  {
    CertainKeepsValues(rec.taxes);
  }

  /** Running the checklist stage a second time gives the same results and
      leaves the record as the first run left it. */
  lemma ChecklistIdempotent(rec: Record)
    ensures Checked(Checked(rec).0) == Checked(rec)
  {
    var (r, res) := Checked(rec);
    ChecklistOrderIndependent(rec);
    ChecklistOrderIndependent(r);
    ChecksReadOnlyValues(rec, r);
    assert Checked(r).1 == res;
    ChecklistEffect(rec);
    ChecklistEffect(r);
    CertainKeepsValues(rec.taxes);
    var r' := Checked(r).0;
    assert r'.totalIncl == r.totalIncl;
    assert r'.totalExcl == r.totalExcl;
    assert r'.totalTax == r.totalTax;
    assert r'.taxes == r.taxes;
  }

  /** The guards of checks A and B: no tax line, an absent total to compare
      with, or a non-positive VAT over the usable lines fails the check. */
  lemma RelativeCheckGuards(rec: Record)
    ensures |rec.taxes| == 0 ==> !MatchesTotalIncl(rec) && !MatchesTotalExcl(rec)
    ensures rec.totalIncl.value.None? ==> !MatchesTotalIncl(rec)
    ensures rec.totalExcl.value.None? ==> !MatchesTotalExcl(rec)
    ensures Sum(rec.taxes, VatTerm) <= 0.0 ==> !MatchesTotalIncl(rec) && !MatchesTotalExcl(rec)
  {
  }

  /** Lines with an absent value or an absent or zero rate play no part in
      checks A and B: removing them changes neither result. */
  lemma {:induction false} RelativeChecksSkipUnusableLines(rec: Record)
    ensures MatchesTotalIncl(rec.(taxes := UsableLines(rec.taxes))) == MatchesTotalIncl(rec)
    ensures MatchesTotalExcl(rec.(taxes := UsableLines(rec.taxes))) == MatchesTotalExcl(rec)
  {
    UsableLinesSums(rec.taxes);
    if UsableLines(rec.taxes) == [] {
      assert Sum(rec.taxes, VatTerm) == 0.0;
    }
  }

  /** When the lines reproduce the total including taxes exactly, check A
      passes exactly when that total is at least -2 times the VAT (always,
      for a non-negative total). */
  lemma ExactMatchPassesA(rec: Record)
    requires rec.totalIncl.value.Some? && Sum(rec.taxes, VatTerm) > 0.0
    requires Sum(rec.taxes, InclTerm) == rec.totalIncl.value.value
    ensures MatchesTotalIncl(rec) <==> rec.totalIncl.value.value >= -2.0 * Sum(rec.taxes, VatTerm)
  {
    ExactWithinRelative(rec.totalIncl.value.value, Sum(rec.taxes, VatTerm));
  }

  /** The same for check B and the total excluding taxes. */
  lemma ExactMatchPassesB(rec: Record)
    requires rec.totalExcl.value.Some? && Sum(rec.taxes, VatTerm) > 0.0
    requires Sum(rec.taxes, ExclTerm) == rec.totalExcl.value.value
    ensures MatchesTotalExcl(rec) <==> rec.totalExcl.value.value >= -2.0 * Sum(rec.taxes, VatTerm)
  {
    ExactWithinRelative(rec.totalExcl.value.value, Sum(rec.taxes, VatTerm));
  }

  /** A total lies in its own relative band exactly when the relative slack
      below it does not exceed the absolute slack. */
  lemma ExactWithinRelative(x: real, totalVat: real)
    requires totalVat > 0.0
    ensures WithinRelative(x, x, totalVat) <==> x >= -2.0 * totalVat
  {
    ScaledSlack(x, totalVat);
  }

  /** The relative slack below `x` is at most 0.02 exactly when
      `x >= -2 * totalVat`. */
  lemma ScaledSlack(x: real, totalVat: real)
    requires totalVat > 0.0
    ensures x * (1.0 - 1.0 / (100.0 * totalVat)) == x - x * (1.0 / (100.0 * totalVat))
    ensures x * (1.0 + 1.0 / (100.0 * totalVat)) == x + x * (1.0 / (100.0 * totalVat))
    ensures x * (1.0 / (100.0 * totalVat)) >= -0.02 <==> x >= -2.0 * totalVat
  {
    var k := x * (1.0 / (100.0 * totalVat));
    assert k * (100.0 * totalVat) == x;
    if k >= -0.02 {
      assert k * (100.0 * totalVat) >= -0.02 * (100.0 * totalVat);
    } else {
      assert k * (100.0 * totalVat) < -0.02 * (100.0 * totalVat);
    }
  }

  /** Check C passes exactly when the total excluding taxes, some tax line,
      every tax value and the total including taxes are present, the tax
      values add up to a positive amount, and the total excluding taxes
      plus that amount is within 0.01 of the total including taxes. */
  lemma CheckCPassRule(rec: Record)
    ensures MatchesTaxesPlusExcl(rec) <==>
      rec.totalExcl.value.Some? && rec.totalIncl.value.Some? && |rec.taxes| != 0 &&
      (forall i :: 0 <= i < |rec.taxes| ==> rec.taxes[i].value.Some?) &&
      Sum(rec.taxes, PresentTerm) > 0.0 &&
      rec.totalIncl.value.value - 0.01 <= rec.totalExcl.value.value + Sum(rec.taxes, PresentTerm)
        <= rec.totalIncl.value.value + 0.01
  {
    StrictSumDefined(rec.taxes);
  }

  // ---------------------------------------------------------------------
  // Properties of the reconstruction

  /** Steps 2 to 4 never overwrite a present value: a present total
      including or excluding taxes comes out of reconstruction unchanged. */
  lemma ReconstructKeepsPresentTotals(rec: Record)
    ensures rec.totalIncl.value.Some? ==> Reconstructed(rec).totalIncl == rec.totalIncl
    ensures rec.totalExcl.value.Some? ==> Reconstructed(rec).totalExcl == rec.totalExcl
    ensures Reconstructed(rec).taxes == rec.taxes
  {
  }

  /** Step 1 decides the total tax whenever the present tax values add up to
      a positive amount, even over a present total tax; step 4 cannot
      change it afterwards. Otherwise a present total tax is kept. */
  lemma ReconstructTotalTax(rec: Record)
    ensures |rec.taxes| > 0 && Sum(rec.taxes, PresentTerm) > 0.0 ==>
      Reconstructed(rec).totalTax == Amount(Some(Sum(rec.taxes, PresentTerm)), ArrayProbability(rec.taxes))
    ensures rec.totalTax.value.Some? && !(|rec.taxes| > 0 && Sum(rec.taxes, PresentTerm) > 0.0) ==>
      Reconstructed(rec).totalTax == rec.totalTax
  {
  }

  /** A missing total excluding taxes is filled from the total including
      taxes, with the product of the confidences, and the total including
      taxes is then left alone. */
  lemma ReconstructFillsTotalExcl(rec: Record)
    requires |rec.taxes| > 0 && rec.totalIncl.value.Some? && rec.totalExcl.value.None?
    ensures Reconstructed(rec).totalExcl ==
      Amount(Some(rec.totalIncl.value.value - Sum(rec.taxes, PresentTerm)),
             ArrayProbability(rec.taxes) * rec.totalIncl.probability)
    ensures Reconstructed(rec).totalIncl == rec.totalIncl
  {
  }

  /** A missing total including taxes is filled from the total excluding
      taxes plus the present tax values, with the product of the
      confidences, and the total excluding taxes is then left alone. */
  lemma ReconstructFillsTotalIncl(rec: Record)
    requires |rec.taxes| > 0 && rec.totalExcl.value.Some? && rec.totalIncl.value.None?
    ensures Reconstructed(rec).totalIncl ==
      Amount(Some(rec.totalExcl.value.value + Sum(rec.taxes, PresentTerm)),
             ArrayProbability(rec.taxes) * rec.totalExcl.probability)
    ensures Reconstructed(rec).totalExcl == rec.totalExcl
  {
    TruthySumIsPresentSum(rec.taxes);
  }

  /** At most one of the two totals is filled in by one pass. */
  lemma ReconstructFillsAtMostOneTotal(rec: Record)
    ensures Reconstructed(rec).totalIncl == rec.totalIncl || Reconstructed(rec).totalExcl == rec.totalExcl
  {
  }

  /** With some tax line and one of the two totals present, both totals are
      present after reconstruction, and they differ by the present tax values
      whenever one of them was derived. */
  lemma ReconstructClosesTotalsGap(rec: Record)
    requires |rec.taxes| > 0 && (rec.totalIncl.value.Some? || rec.totalExcl.value.Some?)
    ensures Reconstructed(rec).totalIncl.value.Some? && Reconstructed(rec).totalExcl.value.Some?
    ensures rec.totalIncl.value.None? || rec.totalExcl.value.None? ==>
      Reconstructed(rec).totalIncl.value.value ==
      Reconstructed(rec).totalExcl.value.value + Sum(rec.taxes, PresentTerm)
  {
    TruthySumIsPresentSum(rec.taxes);
  }

  /** Steps 2 and 3 fill an absent total only when their guards hold: an
      absent total excluding taxes stays as it is without tax lines or
      without a total including taxes, and the other way round. */
  lemma ReconstructOnlyFillsGuarded(rec: Record)
    ensures rec.totalExcl.value.None? && !(|rec.taxes| > 0 && rec.totalIncl.value.Some?) ==>
      Reconstructed(rec).totalExcl == rec.totalExcl
    ensures rec.totalIncl.value.None? && !(|rec.taxes| > 0 && rec.totalExcl.value.Some?) ==>
      Reconstructed(rec).totalIncl == rec.totalIncl
  {
  }

  /** A total derived in step 2 or 3 agrees with check C exactly, when every
      tax value is present and they add up to a positive amount. */
  lemma ReconstructedTotalsPassCheckC(rec: Record)
    requires |rec.taxes| > 0 && (rec.totalIncl.value.None? <==> rec.totalExcl.value.Some?)
    requires forall i :: 0 <= i < |rec.taxes| ==> rec.taxes[i].value.Some?
    requires Sum(rec.taxes, PresentTerm) > 0.0
    ensures MatchesTaxesPlusExcl(Reconstructed(rec))
  {
    ReconstructClosesTotalsGap(rec);
    CheckCPassRule(Reconstructed(rec));
  }

  /** When step 1 supplies no total tax and none was present, step 4
      supplies one exactly when the two totals, as they stand after
      reconstruction, satisfy 0 < excl < incl; it is then their difference,
      with the product of their confidences. */
  lemma ReconstructTotalTaxFromTotals(rec: Record)
    requires rec.totalTax.value.None? && !(|rec.taxes| > 0 && Sum(rec.taxes, PresentTerm) > 0.0)
    ensures var r := Reconstructed(rec);
      r.totalTax.value.Some? <==>
        r.totalIncl.value.Some? && r.totalExcl.value.Some? &&
        0.0 < r.totalExcl.value.value < r.totalIncl.value.value
    ensures var r := Reconstructed(rec);
      r.totalTax.value.Some? ==>
        r.totalTax == Amount(Some(r.totalIncl.value.value - r.totalExcl.value.value),
                             r.totalIncl.probability * r.totalExcl.probability)
  {
  }

  /** Reconstructing a reconstructed record changes nothing. */
  lemma ReconstructIdempotent(rec: Record)
    ensures Reconstructed(Reconstructed(rec)) == Reconstructed(rec)
  {
    var r0 := WithTotalTaxFromTaxes(rec);
    var r1 := WithTotalExclFromIncl(r0);
    var r2 := WithTotalInclFromExcl(r1);
    var r3 := WithTotalTaxFromTotals(r2);
    assert r3.taxes == rec.taxes;
    assert WithTotalTaxFromTaxes(r3) == r3.(totalTax := WithTotalTaxFromTaxes(r3).totalTax);
    assert WithTotalTaxFromTaxes(r3) == r3;
  }

  // ---------------------------------------------------------------------
  // Confidences stay probabilities

  predicate ProbabilitiesInUnit(rec: Record) {
    ProbabilityInUnit(rec.totalIncl.probability) &&
    ProbabilityInUnit(rec.totalExcl.probability) &&
    ProbabilityInUnit(rec.totalTax.probability) &&
    LinesInUnit(rec.taxes)
  }

  /** Reconciliation keeps every confidence in [0, 1]: an upgrade sets it to
      1, and a derived confidence is a product of confidences. */
  lemma ReconcileKeepsProbabilitiesInUnit(rec: Record)
    requires ProbabilitiesInUnit(rec)
    ensures ProbabilitiesInUnit(Reconciled(rec).0)
  {
    var r := Checked(rec).0;
    ChecklistKeepsProbabilitiesInUnit(rec);
    ReconstructKeepsProbabilitiesInUnit(r);
  }

  lemma ChecklistKeepsProbabilitiesInUnit(rec: Record)
    requires ProbabilitiesInUnit(rec)
    ensures ProbabilitiesInUnit(Checked(rec).0)
  {
    ChecklistEffect(rec);
    CertainKeepsValues(rec.taxes);
  }

  lemma ReconstructKeepsProbabilitiesInUnit(rec: Record)
    requires ProbabilitiesInUnit(rec)
    ensures ProbabilitiesInUnit(Reconstructed(rec))
  {
    ArrayProbabilityInUnit(rec.taxes);
    var r0 := WithTotalTaxFromTaxes(rec);
    assert ProbabilitiesInUnit(r0);
    ProductInUnit(ArrayProbability(rec.taxes), r0.totalIncl.probability);
    var r1 := WithTotalExclFromIncl(r0);
    assert ProbabilitiesInUnit(r1);
    ProductInUnit(ArrayProbability(rec.taxes), r1.totalExcl.probability);
    var r2 := WithTotalInclFromExcl(r1);
    assert ProbabilitiesInUnit(r2);
    ProductInUnit(r2.totalIncl.probability, r2.totalExcl.probability);
  }
}
