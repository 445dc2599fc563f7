/** The concrete cases of tests/documents/invoice.js, as lemmas about the
    reconciliation of an invoice built from an API prediction. Fields the
    cases leave at the all-"N/A" base prediction are absent, with a
    confidence the lemmas leave open. */
module Scenarios {
  import opened TaxLines
  import opened Reconciliation

  /** The fields of an API prediction: the total tax starts absent with
      confidence 0. */
  function Start(totalIncl: Amount, totalExcl: Amount, taxes: seq<Tax>): Record {
    Record(totalIncl, totalExcl, Amount(None, 0.0), taxes)
  }

  function Line(value: real, rate: real, probability: real): Tax {
    Tax(Some(value), Some(rate), None, probability)
  }

  function Present(value: real, probability: real): Amount {
    Amount(Some(value), probability)
  }

  function Missing(probability: real): Amount {
    Amount(None, probability)
  }

  lemma SumOfOne(a: Tax, f: Tax -> real)
    ensures Sum([a], f) == f(a)
    ensures StrictSum([a]) == NanAdd(Some(0.0), a.value)
    ensures ArrayProbability([a]) == a.probability
  {
    assert [a][..0] == [];
  }

  lemma SumOfTwo(a: Tax, b: Tax, f: Tax -> real)
    ensures Sum([a, b], f) == f(a) + f(b)
    ensures StrictSum([a, b]) == NanAdd(NanAdd(Some(0.0), a.value), b.value)
    ensures ArrayProbability([a, b]) == a.probability * b.probability
  {
    assert [a, b][..1] == [a];
    SumOfOne(a, f);
  }

  /** When no check passes, the checklist stage leaves the record as it is. */
  lemma NoCheckPasses(rec: Record)
    requires !MatchesTotalIncl(rec) && !MatchesTotalExcl(rec) && !MatchesTaxesPlusExcl(rec)
    ensures Reconciled(rec) == (Reconstructed(rec), CheckResults(false, false, false))
  {
    ChecklistOrderIndependent(rec);
    ChecklistEffect(rec);
  }

  /** An all-"N/A" prediction: no check passes and nothing is
      reconstructed. */
  lemma AllMissing(p: real, q: real)
    ensures Reconciled(Start(Missing(p), Missing(q), [])) ==
      (Start(Missing(p), Missing(q), []), CheckResults(false, false, false))
  {
    NoCheckPasses(Start(Missing(p), Missing(q), []));
  }

  /** Without tax lines no total is reconstructed, and a present total is
      kept with its confidence. */
  lemma NoTaxesNoReconstruction()
    ensures Reconciled(Start(Missing(0.0), Present(240.5, 0.9), [])).0.totalIncl.value.None?
    ensures Reconciled(Start(Present(1150.2, 0.7), Missing(0.0), [])).0.totalExcl.value.None?
    ensures Reconciled(Start(Present(1150.2, 0.7), Present(1050.0, 0.4), [])).0.totalExcl == Present(1050.0, 0.4)
  {
    NoCheckPasses(Start(Missing(0.0), Present(240.5, 0.9), []));
    NoCheckPasses(Start(Present(1150.2, 0.7), Missing(0.0), []));
    NoCheckPasses(Start(Present(1150.2, 0.7), Present(1050.0, 0.4), []));
  }

  /** Without either total, neither total is reconstructed. */
  lemma NoTotalsNoReconstruction()
    ensures var r := Reconciled(Start(Missing(0.0), Missing(0.0), [Line(9.5, 20.0, 0.9)])).0;
      r.totalIncl.value.None? && r.totalExcl.value.None?
  {
    NoCheckPasses(Start(Missing(0.0), Missing(0.0), [Line(9.5, 20.0, 0.9)]));
  }

  /** A present total including taxes is kept with its confidence. */
  lemma PresentTotalInclKept()
    ensures Reconciled(Start(Present(260.0, 0.4), Present(240.5, 0.9), [Line(9.5, 20.0, 0.9)])).0.totalIncl
      == Present(260.0, 0.4)
  {
    var a := Line(9.5, 20.0, 0.9);
    var rec := Start(Present(260.0, 0.4), Present(240.5, 0.9), [a]);
    SumOfOne(a, VatTerm);
    SumOfOne(a, InclTerm);
    SumOfOne(a, ExclTerm);
    assert !MatchesTotalIncl(rec);
    assert !MatchesTotalExcl(rec);
    assert !MatchesTaxesPlusExcl(rec);
    NoCheckPasses(rec);
    ReconstructKeepsPresentTotals(rec);
  }

  /** 240.5 plus a tax of 9.5 gives a total including taxes of 250, with
      confidence 0.9 * 0.9. */
  lemma TotalInclReconstructed()
    ensures Reconciled(Start(Missing(0.0), Present(240.5, 0.9), [Line(9.5, 20.0, 0.9)])).0.totalIncl
      == Present(250.0, 0.81)
  {
    var a := Line(9.5, 20.0, 0.9);
    var rec := Start(Missing(0.0), Present(240.5, 0.9), [a]);
    SumOfOne(a, VatTerm);
    SumOfOne(a, ExclTerm);
    SumOfOne(a, PresentTerm);
    assert !MatchesTotalExcl(rec);
    NoCheckPasses(rec);
    ReconstructFillsTotalIncl(rec);
  }

  /** 1150.2 minus taxes of 10.2 and 40.0 gives a total excluding taxes of
      1100, with confidence 0.5 * 0.1 * 0.6. */
  lemma TotalExclReconstructed()
    ensures Reconciled(Start(Present(1150.2, 0.6), Missing(0.0), [Line(10.2, 20.0, 0.5), Line(40.0, 10.0, 0.1)])).0.totalExcl
      == Present(1100.0, 0.03)
  {
    var a, b := Line(10.2, 20.0, 0.5), Line(40.0, 10.0, 0.1);
    var rec := Start(Present(1150.2, 0.6), Missing(0.0), [a, b]);
    SumOfTwo(a, b, VatTerm);
    SumOfTwo(a, b, InclTerm);
    SumOfTwo(a, b, PresentTerm);
    assert !MatchesTotalIncl(rec);
    NoCheckPasses(rec);
    ReconstructFillsTotalExcl(rec);
  }

  /** Taxes of 10.2 and 40.0 give a total tax of 50.2, with confidence
      0.5 * 0.1. */
  lemma TotalTaxReconstructed(p: real, q: real)
    ensures Reconciled(Start(Missing(p), Missing(q), [Line(10.2, 20.0, 0.5), Line(40.0, 10.0, 0.1)])).0.totalTax
      == Present(50.2, 0.05)
  {
    var a, b := Line(10.2, 20.0, 0.5), Line(40.0, 10.0, 0.1);
    var rec := Start(Missing(p), Missing(q), [a, b]);
    SumOfTwo(a, b, PresentTerm);
    NoCheckPasses(rec);
    ReconstructTotalTax(rec);
  }

  /** Taxes of 10.99 at 20% and 40.12 at 10% match a total including taxes
      of 507.25; the total and every line become certain. */
  lemma CheckAPasses(q: real)
    ensures var (r, res) := Reconciled(Start(Present(507.25, 0.6), Missing(q), [Line(10.99, 20.0, 0.5), Line(40.12, 10.0, 0.1)]));
      res.taxesMatchTotalIncl && r.totalIncl.probability == 1.0 &&
      forall i :: 0 <= i < |r.taxes| ==> r.taxes[i].probability == 1.0
  {
    var a, b := Line(10.99, 20.0, 0.5), Line(40.12, 10.0, 0.1);
    var rec := Start(Present(507.25, 0.6), Missing(q), [a, b]);
    SumOfTwo(a, b, VatTerm);
    SumOfTwo(a, b, InclTerm);
    assert MatchesTotalIncl(rec);
    ChecklistOrderIndependent(rec);
    ChecklistEffect(rec);
    ReconstructKeepsPresentTotals(Checked(rec).0);
  }

  /** With 10.9 in place of 10.99, or a single zero tax, check A fails. */
  lemma CheckAFails(q: real)
    ensures !Reconciled(Start(Present(507.25, 0.6), Missing(q), [Line(10.9, 20.0, 0.5), Line(40.12, 10.0, 0.1)])).1.taxesMatchTotalIncl
    ensures !Reconciled(Start(Present(507.25, 0.6), Missing(q), [Line(0.0, 20.0, 0.5)])).1.taxesMatchTotalIncl
  {
    var b, c, z := Line(40.12, 10.0, 0.1), Line(10.9, 20.0, 0.5), Line(0.0, 20.0, 0.5);
    var rec1 := Start(Present(507.25, 0.6), Missing(q), [c, b]);
    var rec2 := Start(Present(507.25, 0.6), Missing(q), [z]);
    SumOfTwo(c, b, VatTerm);
    SumOfTwo(c, b, InclTerm);
    SumOfOne(z, VatTerm);
    assert !MatchesTotalIncl(rec1);
    assert !MatchesTotalIncl(rec2);
    ChecklistOrderIndependent(rec1);
    ChecklistOrderIndependent(rec2);
  }

  /** The same lines match a total excluding taxes of 456.15, which becomes
      certain with every line. */
  lemma CheckBPasses(p: real)
    ensures var (r, res) := Reconciled(Start(Missing(p), Present(456.15, 0.6), [Line(10.99, 20.0, 0.5), Line(40.12, 10.0, 0.1)]));
      res.taxesMatchTotalExcl && r.totalExcl.probability == 1.0 &&
      forall i :: 0 <= i < |r.taxes| ==> r.taxes[i].probability == 1.0
  {
    var a, b := Line(10.99, 20.0, 0.5), Line(40.12, 10.0, 0.1);
    var rec := Start(Missing(p), Present(456.15, 0.6), [a, b]);
    SumOfTwo(a, b, VatTerm);
    SumOfTwo(a, b, ExclTerm);
    assert MatchesTotalExcl(rec);
    ChecklistOrderIndependent(rec);
    ChecklistEffect(rec);
    ReconstructKeepsPresentTotals(Checked(rec).0);
  }

  /** A total excluding taxes of 507.25 does not match the lines with 10.9,
      nor does a single zero tax. */
  lemma CheckBFails(p: real)
    ensures !Reconciled(Start(Missing(p), Present(507.25, 0.6), [Line(10.9, 20.0, 0.5), Line(40.12, 10.0, 0.1)])).1.taxesMatchTotalExcl
    ensures !Reconciled(Start(Missing(p), Present(507.25, 0.6), [Line(0.0, 20.0, 0.5)])).1.taxesMatchTotalExcl
  {
    var b, c, z := Line(40.12, 10.0, 0.1), Line(10.9, 20.0, 0.5), Line(0.0, 20.0, 0.5);
    var rec1 := Start(Missing(p), Present(507.25, 0.6), [c, b]);
    var rec2 := Start(Missing(p), Present(507.25, 0.6), [z]);
    SumOfTwo(c, b, VatTerm);
    SumOfTwo(c, b, ExclTerm);
    SumOfOne(z, VatTerm);
    assert !MatchesTotalExcl(rec1);
    assert !MatchesTotalExcl(rec2);
    ChecklistOrderIndependent(rec1);
    ChecklistOrderIndependent(rec2);
  }

  /** 456.15 plus the same taxes is 507.25 within 0.01: check C passes and
      both totals and every line become certain (the total excluding taxes
      through check B). */
  lemma CheckCPasses()
    ensures var (r, res) := Reconciled(Start(Present(507.25, 0.6), Present(456.15, 0.6), [Line(10.99, 20.0, 0.5), Line(40.12, 10.0, 0.1)]));
      res.taxesPlusTotalExclMatchTotalIncl && r.totalIncl.probability == 1.0 && r.totalExcl.probability == 1.0 &&
      forall i :: 0 <= i < |r.taxes| ==> r.taxes[i].probability == 1.0
  {
    var a, b := Line(10.99, 20.0, 0.5), Line(40.12, 10.0, 0.1);
    var rec := Start(Present(507.25, 0.6), Present(456.15, 0.6), [a, b]);
    SumOfTwo(a, b, VatTerm);
    SumOfTwo(a, b, ExclTerm);
    assert MatchesTotalExcl(rec);
    assert MatchesTaxesPlusExcl(rec);
    ChecklistOrderIndependent(rec);
    ChecklistEffect(rec);
    ReconstructKeepsPresentTotals(Checked(rec).0);
  }

  /** With a total including taxes of 507.2, or a single zero tax, check C
      fails. */
  lemma CheckCFails()
    ensures !Reconciled(Start(Present(507.2, 0.6), Present(456.15, 0.6), [Line(10.99, 20.0, 0.5), Line(40.12, 10.0, 0.1)])).1.taxesPlusTotalExclMatchTotalIncl
    ensures !Reconciled(Start(Present(507.25, 0.6), Present(456.15, 0.6), [Line(0.0, 20.0, 0.5)])).1.taxesPlusTotalExclMatchTotalIncl
  {
    var a, b, z := Line(10.99, 20.0, 0.5), Line(40.12, 10.0, 0.1), Line(0.0, 20.0, 0.5);
    var rec1 := Start(Present(507.2, 0.6), Present(456.15, 0.6), [a, b]);
    var rec2 := Start(Present(507.25, 0.6), Present(456.15, 0.6), [z]);
    SumOfTwo(a, b, PresentTerm);
    SumOfOne(z, PresentTerm);
    assert !MatchesTaxesPlusExcl(rec1);
    assert !MatchesTaxesPlusExcl(rec2);
    ChecklistOrderIndependent(rec1);
    ChecklistOrderIndependent(rec2);
  }

  /** Without tax lines, totals of 120 and 100 give a total tax of 20 with
      confidence 0.5 * 0.4; equal totals give none, as the difference is
      not positive. */
  lemma TotalTaxFromTotals()
    ensures Reconciled(Start(Present(120.0, 0.5), Present(100.0, 0.4), [])).0.totalTax == Present(20.0, 0.2)
    ensures Reconciled(Start(Present(100.0, 0.5), Present(100.0, 0.4), [])).0.totalTax.value.None?
  {
    var rec1 := Start(Present(120.0, 0.5), Present(100.0, 0.4), []);
    var rec2 := Start(Present(100.0, 0.5), Present(100.0, 0.4), []);
    NoCheckPasses(rec1);
    NoCheckPasses(rec2);
    ReconstructTotalTaxFromTotals(rec1);
    ReconstructTotalTaxFromTotals(rec2);
  }
}
