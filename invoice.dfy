/** The invoice document: its reconciliation fields, updated in place by the
    checklist stage and then by the reconstruction stage, as the constructor
    of `Invoice` in mindee/documents/invoice.js runs them. Each method is
    proved to change the fields exactly as the matching function of module
    Reconciliation says. */
module InvoiceDocument {
  import opened TaxLines
  import opened Reconciliation

  class Invoice {
    var totalIncl: Amount
    var totalExcl: Amount
    var totalTax: Amount
    var taxes: seq<Tax>
    var checklist: CheckResults

    /** The reconciliation fields as one value. */
    function State(): Record
      reads this
    {
      Record(totalIncl, totalExcl, totalTax, taxes)
    }

    /** An invoice built from an API prediction: the totals and tax lines
        come from the prediction, the total tax starts absent with
        confidence 0, and the checklist and reconstruction stages run. */
    constructor FromPrediction(totalIncl: Amount, totalExcl: Amount, taxes: seq<Tax>)
      ensures (State(), checklist) == Reconciled(Record(totalIncl, totalExcl, Amount(None, 0.0), taxes))
      ensures var start := Record(totalIncl, totalExcl, Amount(None, 0.0), taxes);
        checklist == CheckResults(MatchesTotalIncl(start), MatchesTotalExcl(start), MatchesTaxesPlusExcl(start))
    {
      this.totalIncl := totalIncl;
      this.totalExcl := totalExcl;
      this.totalTax := Amount(None, 0.0);
      this.taxes := taxes;
      this.checklist := CheckResults(false, false, false);
      new;
      Checklist();
      Reconstruct();
    }

    /** An invoice built from given fields, the total tax included. */
    constructor FromScratch(totalIncl: Amount, totalExcl: Amount, totalTax: Amount, taxes: seq<Tax>)
      ensures (State(), checklist) == Reconciled(Record(totalIncl, totalExcl, totalTax, taxes))
      ensures var start := Record(totalIncl, totalExcl, totalTax, taxes);
        checklist == CheckResults(MatchesTotalIncl(start), MatchesTotalExcl(start), MatchesTaxesPlusExcl(start))
    {
      this.totalIncl := totalIncl;
      this.totalExcl := totalExcl;
      this.totalTax := totalTax;
      this.taxes := taxes;
      this.checklist := CheckResults(false, false, false);
      new;
      Checklist();
      Reconstruct();
    }

    /** Runs the three checks in order and records their results. Each
        result is the one its check gives on the fields as they were before
        the stage, whatever the other checks upgraded. */
    method Checklist()
      modifies this
      ensures (State(), checklist) == Checked(old(State()))
      ensures checklist == CheckResults(
        MatchesTotalIncl(old(State())), MatchesTotalExcl(old(State())), MatchesTaxesPlusExcl(old(State())))
      ensures SameValues(State(), old(State()))
    {
      ChecklistOrderIndependent(State());
      var a := TaxesMatchTotalIncl();
      var b := TaxesMatchTotalExcl();
      var c := TaxesPlusTotalExclMatchTotalIncl();
      checklist := CheckResults(a, b, c);
    }

    /** The four reconstruction steps, in order. */
    method Reconstruct()
      modifies this`totalTax, this`totalExcl, this`totalIncl
      ensures State() == Reconstructed(old(State()))
    {
      ReconstructTotalTax();
      ReconstructTotalExcl();
      ReconstructTotalIncl();
      ReconstructTotalTaxFromTotals();
    }

    /** Check A. Lines without a value or with an absent or zero rate are
        skipped; on a pass the lines, the total tax and the total including
        taxes become certain. */
    method TaxesMatchTotalIncl() returns (ok: bool)
      modifies this`taxes, this`totalTax, this`totalIncl
      ensures ok == MatchesTotalIncl(old(State()))
      ensures State() == if ok then CertifyIncl(old(State())) else old(State())
    {
      if |taxes| == 0 || totalIncl.value.None? {
        return false;
      }
      var totalVat := 0.0;
      var reconstructedTotal := 0.0;
      var i := 0;
      while i < |taxes|
        invariant 0 <= i <= |taxes|
        invariant totalVat == Sum(taxes[..i], VatTerm)
        invariant reconstructedTotal == Sum(taxes[..i], InclTerm)
      {
        var tax := taxes[i];
        assert taxes[..i + 1][..i] == taxes[..i];
        if tax.value.None? || tax.rate.None? || tax.rate.value == 0.0 {
          // the callback returns early: the line is skipped
        } else {
          totalVat := totalVat + tax.value.value;
          reconstructedTotal := reconstructedTotal + tax.value.value + (100.0 * tax.value.value) / tax.rate.value;
        }
        i := i + 1;
      }
      assert taxes[..|taxes|] == taxes;
      if totalVat <= 0.0 {
        return false;
      }
      var incl := totalIncl.value.value;
      // eps = 1 / (100 * totalVat); the band is incl * (1 -/+ eps) -/+ 0.02
      if WithinRelative(incl, reconstructedTotal, totalVat) {
        taxes := Certain(taxes);
        totalTax := totalTax.(probability := 1.0);
        totalIncl := totalIncl.(probability := 1.0);
        return true;
      }
      return false;
    }

    /** Check B. Same guards and skip rule as check A, on the total
        excluding taxes; on a pass the lines, the total tax and the total
        excluding taxes become certain. */
    method TaxesMatchTotalExcl() returns (ok: bool)
      modifies this`taxes, this`totalTax, this`totalExcl
      ensures ok == MatchesTotalExcl(old(State()))
      ensures State() == if ok then CertifyExcl(old(State())) else old(State())
    {
      if |taxes| == 0 || totalExcl.value.None? {
        return false;
      }
      var totalVat := 0.0;
      var reconstructedTotal := 0.0;
      var i := 0;
      while i < |taxes|
        invariant 0 <= i <= |taxes|
        invariant totalVat == Sum(taxes[..i], VatTerm)
        invariant reconstructedTotal == Sum(taxes[..i], ExclTerm)
      {
        var tax := taxes[i];
        assert taxes[..i + 1][..i] == taxes[..i];
        if tax.value.None? || tax.rate.None? || tax.rate.value == 0.0 {
          // the callback returns early: the line is skipped
        } else {
          totalVat := totalVat + tax.value.value;
          reconstructedTotal := reconstructedTotal + (100.0 * tax.value.value) / tax.rate.value;
        }
        i := i + 1;
      }
      assert taxes[..|taxes|] == taxes;
      if totalVat <= 0.0 {
        return false;
      }
      var excl := totalExcl.value.value;
      // eps = 1 / (100 * totalVat); the band is excl * (1 -/+ eps) -/+ 0.02
      if WithinRelative(excl, reconstructedTotal, totalVat) {
        taxes := Certain(taxes);
        totalTax := totalTax.(probability := 1.0);
        totalExcl := totalExcl.(probability := 1.0);
        return true;
      }
      return false;
    }

    /** Check C. Every tax value is added, so one absent value makes the sum
        NaN (`None`), and then, like an absent total including taxes, makes
        both comparisons false. The source's test of the total including
        taxes is on the field object, which always exists. */
    method TaxesPlusTotalExclMatchTotalIncl() returns (ok: bool)
      modifies this`taxes, this`totalTax, this`totalIncl
      ensures ok == MatchesTaxesPlusExcl(old(State()))
      ensures State() == if ok then CertifyIncl(old(State())) else old(State())
    {
      if totalExcl.value.None? || |taxes| == 0 {
        return false;
      }
      var totalVat: Option<real> := Some(0.0);
      var i := 0;
      while i < |taxes|
        invariant 0 <= i <= |taxes|
        invariant totalVat == StrictSum(taxes[..i])
      {
        assert taxes[..i + 1][..i] == taxes[..i];
        totalVat := NanAdd(totalVat, taxes[i].value);
        i := i + 1;
      }
      assert taxes[..|taxes|] == taxes;
      var reconstructedTotal := NanAdd(totalVat, totalExcl.value);
      if totalVat.Some? && totalVat.value <= 0.0 {
        return false;
      }
      if reconstructedTotal.Some? && totalIncl.value.Some?
         && totalIncl.value.value - 0.01 <= reconstructedTotal.value
         && reconstructedTotal.value <= totalIncl.value.value + 0.01
      {
        taxes := Certain(taxes);
        totalTax := totalTax.(probability := 1.0);
        totalIncl := totalIncl.(probability := 1.0);
        return true;
      }
      return false;
    }

    /** Step 1: the total tax from the tax lines. */
    method ReconstructTotalTax()
      modifies this`totalTax
      ensures State() == WithTotalTaxFromTaxes(old(State()))
    {
      if |taxes| > 0 {
        var total := Amount(Some(Sum(taxes, PresentTerm)), ArrayProbability(taxes));
        if total.value.value > 0.0 {
          totalTax := total;
        }
      }
    }

    /** Step 4: the total tax from the two totals. */
    method ReconstructTotalTaxFromTotals()
      modifies this`totalTax
      ensures State() == WithTotalTaxFromTotals(old(State()))
    {
      if totalTax.value.None? && IsPositive(totalIncl.value) && IsPositive(totalExcl.value)
         && totalExcl.value.value <= totalIncl.value.value
      {
        var total := Amount(
          Some(totalIncl.value.value - totalExcl.value.value),
          totalIncl.probability * totalExcl.probability);
        if total.value.value > 0.0 {
          totalTax := total;
        }
      }
    }

    /** Step 2: a missing total excluding taxes from the total including
        taxes. */
    method ReconstructTotalExcl()
      modifies this`totalExcl
      ensures State() == WithTotalExclFromIncl(old(State()))
    {
      if |taxes| > 0 && totalIncl.value.Some? && totalExcl.value.None? {
        totalExcl := Amount(
          Some(totalIncl.value.value - Sum(taxes, PresentTerm)),
          ArrayProbability(taxes) * totalIncl.probability);
      }
    }

    /** Step 3: a missing total including taxes from the total excluding
        taxes. */
    method ReconstructTotalIncl()
      modifies this`totalIncl
      ensures State() == WithTotalInclFromExcl(old(State()))
    {
      if |taxes| > 0 && totalExcl.value.Some? && totalIncl.value.None? {
        totalIncl := Amount(
          Some(totalExcl.value.value + Sum(taxes, TruthyTerm)),
          ArrayProbability(taxes) * totalExcl.probability);
      }
    }
  }
}
