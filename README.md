# Invoice reconciliation

A Dafny model of the reconciliation logic of the `Invoice` document in
mindee/documents/invoice.js (the Mindee Node.js client). After an invoice
has been filled, from an API prediction or from given fields, its
constructor runs two stages on the invoice's own fields, in this order:

1. **Checklist.** Three consistency checks compare the totals with the tax
   lines:
   - check A (`taxesMatchTotalIncl`) tests the tax lines against the total
     including taxes;
   - check B (`taxesMatchTotalExcl`) tests them against the total excluding
     taxes;
   - check C (`taxesPlusTotalExclMatchTotalIncl`) tests total excluding
     taxes plus taxes against the total including taxes.

   A passing check raises the confidence of the fields it corroborates
   to 1. The three results are kept in `checklist`.
2. **Reconstruction.** Four steps fill missing totals from the fields that
   are present:
   - step 1: total tax from the tax lines;
   - step 2: total excluding taxes from the total including taxes;
   - step 3: total including taxes from the total excluding taxes;
   - step 4: total tax from the two totals.

   A derived confidence is the product of the confidences it was derived
   from.

Amounts, rates and confidences are `real`. An absent value ("N/A" in the
prediction) is `None`.

Files:
- `tax_lines.dfy` (module `TaxLines`): the `Amount` and `Tax` values, and the
  folds over the tax lines. These are the `forEach` accumulators, the
  `reduce` sums, `Field.arrayProbability` and the confidence upgrade of the
  lines, with their lemmas.
- `reconciliation.dfy` (module `Reconciliation`): the checks, the upgrades,
  the reconstruction steps and the two stages as functions on a `Record` of
  the four reconciliation fields, with the properties proved about them.
- `invoice.dfy` (module `InvoiceDocument`): the class `Invoice`. It has the
  fields `totalIncl`, `totalExcl`, `totalTax`, `taxes` and `checklist`, and
  one method per private method of the source. Each method updates the
  fields in place and is proved to change them exactly as the matching
  function of `Reconciliation` says. The three checks keep the source's
  `forEach` loops as `while` loops.
- `scenarios.dfy` (module `Scenarios`): the concrete cases of
  tests/documents/invoice.js, as lemmas.

Three details of the code are easy to misread; the model follows the code
as written:
- Check C adds every tax value (`totalVat += tax.value`). In JavaScript an
  absent value makes the sum `NaN`, and then every comparison fails. So one
  absent tax value fails check C. It is not counted as 0.
- Check C's guard tests the `totalIncl` field object, which always exists,
  and not its value. An absent total including taxes still fails the check,
  because both comparisons are made with `NaN`.
- Step 3 skips falsy tax values, while steps 1 and 2 skip only absent ones.
  Over exact arithmetic the two sums are equal, because skipping 0 and
  adding 0 are the same (`TaxLines.TruthySumIsPresentSum`).

## Model

| member | source | states |
|---|---|---|
| `Reconciliation.MatchesTotalIncl` | mindee/documents/invoice.js:220-250 | check A: there are tax lines and a total including taxes; the VAT of the usable lines is positive; and the sum of `v + 100v/r` lies in the total's tolerance band |
| `Reconciliation.MatchesTotalExcl` | mindee/documents/invoice.js:255-284 | check B: the same guards on the total excluding taxes, with the sum of `100v/r` |
| `Reconciliation.MatchesTaxesPlusExcl` | mindee/documents/invoice.js:286-309 | check C: the total excluding taxes plus the `NaN`-propagating sum of the tax values, positive, lies within 0.01 of the total including taxes |
| `Reconciliation.CertifyIncl` | mindee/documents/invoice.js:244-246 | what a passing check A or C does: the lines, the total tax and the total including taxes get confidence 1 |
| `Reconciliation.CertifyExcl` | mindee/documents/invoice.js:278-280 | what a passing check B does: the lines, the total tax and the total excluding taxes get confidence 1 |
| `Reconciliation.Checked` | mindee/documents/invoice.js:205-211 | the checklist stage: checks A, B and C in order, each on the record its predecessors left, with the three results |
| `Reconciliation.WithTotalTaxFromTaxes` | mindee/documents/invoice.js:311-326 | step 1: with tax lines whose present values sum to a positive amount, the total tax becomes that sum with the product of line confidences |
| `Reconciliation.WithTotalExclFromIncl` | mindee/documents/invoice.js:348-369 | step 2: an absent total excluding taxes becomes incl minus the present tax values |
| `Reconciliation.WithTotalInclFromExcl` | mindee/documents/invoice.js:371-392 | step 3: an absent total including taxes becomes excl plus the truthy tax values |
| `Reconciliation.WithTotalTaxFromTotals` | mindee/documents/invoice.js:328-346 | step 4: an absent total tax becomes incl − excl when 0 < excl <= incl and the difference is positive |
| `Reconciliation.Reconstructed` | mindee/documents/invoice.js:213-218 | the reconstruction stage: steps 1 to 4 in order |
| `Reconciliation.Reconciled` | mindee/documents/invoice.js:68-69 | the checklist stage, then the reconstruction stage, with the checklist results |
| `Reconciliation.WithinRelative` | mindee/documents/invoice.js:237-242 | the tolerance band of checks A and B: with `eps = 1/(100·totalVat)`, the reconstructed sum lies between `expected·(1 − eps) − 0.02` and `expected·(1 + eps) + 0.02` (also lines 271-276) |
| `Reconciliation.IsPositive` | mindee/documents/invoice.js:331-332 | JavaScript `x > 0` on an optional amount: false when the amount is absent |
| `TaxLines.Usable` | mindee/documents/invoice.js:229 | a line the relative checks count: its value is present and its rate is present and non-zero, so neither `tax.value === undefined` nor `!tax.rate` skips it (also line 263) |
| `TaxLines.VatTerm` | mindee/documents/invoice.js:230 | what a line adds to `totalVat` in checks A and B: its value if usable, else nothing (also line 264) |
| `TaxLines.InclTerm` | mindee/documents/invoice.js:231 | what a line adds to check A's reconstructed total: `v + 100v/r` if usable, else nothing |
| `TaxLines.ExclTerm` | mindee/documents/invoice.js:265 | what a line adds to check B's reconstructed total: `100v/r` if usable, else nothing |
| `TaxLines.PresentTerm` | mindee/documents/invoice.js:314-316 | the body of the `reduce` of steps 1 and 2: a present value is added, an absent one skipped (also lines 357-359) |
| `TaxLines.TruthyTerm` | mindee/documents/invoice.js:380-382 | the body of the `reduce` of step 3: only a truthy value, present and non-zero, is added |
| `TaxLines.Sum` | mindee/documents/invoice.js:226-232 | the fold each `forEach` accumulator and each `reduce` performs: a term per line, added from the first line to the last from 0 |
| `TaxLines.NanAdd` | mindee/documents/invoice.js:294 | JavaScript `+=` of a possibly absent value: adding `undefined` gives `NaN`, and `NaN` stays `NaN` |
| `TaxLines.StrictSum` | mindee/documents/invoice.js:293-294 | check C's accumulator: the sum of every tax value, `NaN` (`None`) once a value is absent |
| `TaxLines.ArrayProbability` | mindee/documents/invoice.js:317 | the confidence of the tax lines together, as the product of their confidences (1 for no lines) |
| `TaxLines.Certain` | mindee/documents/invoice.js:244 | the lines, in order and with the same length, each with confidence 1 and its other fields kept |
| `TaxLines.TruthySumIsPresentSum` | mindee/documents/invoice.js:380-382 | the `reduce` of step 3 skips zero values. It gives the same sum as the `reduce` of steps 1 and 2, which counts every present value |
| `TaxLines.StrictSumDefined` | mindee/documents/invoice.js:293-294 | the `totalVat += tax.value` sum of check C is a number exactly when every tax value is present, and it then equals the sum of the values |
| `TaxLines.SumsIgnoreProbabilities` | mindee/documents/invoice.js:228-232 | every sum the checks and the reconstruction compute is the same for two tax sequences that agree on values, rates and codes, whatever their confidences |
| `TaxLines.StrictSumIgnoresProbabilities` | mindee/documents/invoice.js:294 | check C's sum does not depend on the confidences of the lines |
| `TaxLines.UsableLinesSums` | mindee/documents/invoice.js:228-232 | the lines skipped by the `forEach` add nothing: the sums over the usable lines equal the sums over all lines |
| `TaxLines.CertainKeepsValues` | mindee/documents/invoice.js:244 | the line upgrade keeps every value, rate and code, gives every line confidence 1, and applied twice is the same as once |
| `TaxLines.ArrayProbabilityInUnit` | mindee/documents/invoice.js:317 | the product of line confidences in [0, 1] is in [0, 1] |
| `Reconciliation.ChecksReadOnlyValues` | mindee/documents/invoice.js:220-309 | the three checks read values and rates only: records with equal values get equal results |
| `Reconciliation.CertifyOnlyRaisesConfidence` | mindee/documents/invoice.js:244-246 | an upgrade changes no value, leaves the other total alone, is idempotent, and the two upgrades commute |
| `Reconciliation.ChecklistOrderIndependent` | mindee/documents/invoice.js:205-211 | the checklist stage changes no value. Each recorded result equals its check on the record as it was before the stage, so the results do not depend on one another or on order |
| `Reconciliation.ChecklistEffect` | mindee/documents/invoice.js:205-211 | after the stage, the total including taxes becomes certain if check A or C passed and the total excluding taxes if check B passed; otherwise each keeps its confidence. The total tax and every line become certain if any check passed; if none passed, the record is unchanged |
| `Reconciliation.ChecklistIdempotent` | mindee/documents/invoice.js:205-211 | running the checklist stage on its own output gives the same results and the same record |
| `Reconciliation.RelativeCheckGuards` | mindee/documents/invoice.js:220-269 | checks A and B fail with no tax line, with an absent total to compare with, or when the VAT of the usable lines is at most 0 |
| `Reconciliation.RelativeChecksSkipUnusableLines` | mindee/documents/invoice.js:228-229 | removing the lines with an absent value or an absent or zero rate changes neither check A nor check B |
| `Reconciliation.ExactMatchPassesA` | mindee/documents/invoice.js:237-243 | with a positive VAT of usable lines, when the line sum `Σ(v + 100v/r)` equals the total including taxes, check A passes iff that total is at least -2 times the VAT, so always for a non-negative total |
| `Reconciliation.ExactMatchPassesB` | mindee/documents/invoice.js:271-277 | with a positive VAT of usable lines, when `Σ100v/r` equals the total excluding taxes, check B passes iff that total is at least -2 times the VAT |
| `Reconciliation.ExactWithinRelative` | mindee/documents/invoice.js:238-242 | an amount lies in its own tolerance band, with slack `eps = 1/(100·totalVat)` plus 0.02, iff it is at least `-2·totalVat` |
| `Reconciliation.CheckCPassRule` | mindee/documents/invoice.js:286-301 | check C passes iff the total excluding taxes and the total including taxes are present, there is a tax line, every tax value is present, the value sum is positive, and excl + sum is within 0.01 of incl |
| `Reconciliation.ReconstructKeepsPresentTotals` | mindee/documents/invoice.js:348-392 | a present total including or excluding taxes comes out of reconstruction unchanged, value and confidence, and the lines are untouched |
| `Reconciliation.ReconstructTotalTax` | mindee/documents/invoice.js:311-326 | when there are tax lines whose present values sum to a positive amount, the total tax is that sum with the product of line confidences, even over a present total tax. Otherwise a present total tax is kept |
| `Reconciliation.ReconstructFillsTotalExcl` | mindee/documents/invoice.js:348-369 | with tax lines, a present incl and an absent excl: excl becomes incl minus the present tax values, with confidence Π(line confidences)·incl confidence, and incl is kept |
| `Reconciliation.ReconstructFillsTotalIncl` | mindee/documents/invoice.js:371-392 | with tax lines, a present excl and an absent incl: incl becomes excl plus the present tax values, with confidence Π(line confidences)·excl confidence, and excl is kept |
| `Reconciliation.ReconstructFillsAtMostOneTotal` | mindee/documents/invoice.js:213-218 | one reconstruction pass changes at most one of the two totals |
| `Reconciliation.ReconstructClosesTotalsGap` | mindee/documents/invoice.js:348-392 | with tax lines and one total present, both totals are present afterwards. When one was derived, incl = excl + the present tax values |
| `Reconciliation.ReconstructOnlyFillsGuarded` | mindee/documents/invoice.js:348-392 | an absent total excluding taxes stays absent, confidence included, unless there are tax lines and a total including taxes (lines 349-353), and symmetrically for an absent total including taxes (lines 372-376) |
| `Reconciliation.ReconstructedTotalsPassCheckC` | mindee/documents/invoice.js:348-392 | a total derived in step 2 or 3 satisfies check C, when every tax value is present and their sum is positive |
| `Reconciliation.ReconstructTotalTaxFromTotals` | mindee/documents/invoice.js:328-346 | when no total tax was present and step 1 supplies none, step 4 supplies one iff the totals after steps 2 and 3 satisfy 0 < excl < incl. It is then incl − excl, with confidence incl·excl confidences |
| `Reconciliation.ReconstructIdempotent` | mindee/documents/invoice.js:213-218 | reconstructing a reconstructed record changes nothing |
| `Reconciliation.ReconcileKeepsProbabilitiesInUnit` | mindee/documents/invoice.js:68-69 | the two stages keep every confidence in [0, 1] |
| `Reconciliation.ChecklistKeepsProbabilitiesInUnit` | mindee/documents/invoice.js:205-211 | the checklist stage keeps every confidence in [0, 1] |
| `Reconciliation.ReconstructKeepsProbabilitiesInUnit` | mindee/documents/invoice.js:213-218 | the reconstruction stage keeps every confidence in [0, 1] |
| `InvoiceDocument.Invoice.FromPrediction` | mindee/documents/invoice.js:65-69 | with the total tax absent at confidence 0 (lines 127-131), the fields end as the checklist then the reconstruction make them. The checklist holds the three checks of the starting fields |
| `InvoiceDocument.Invoice.FromScratch` | mindee/documents/invoice.js:48-69 | the same from given fields, total tax included |
| `InvoiceDocument.Invoice.Checklist` | mindee/documents/invoice.js:205-211 | runs checks A, B, C in order. The new fields are the sequential upgrades, the checklist is each check on the original fields, and no value changes |
| `InvoiceDocument.Invoice.Reconstruct` | mindee/documents/invoice.js:213-218 | the fields become the four steps applied in order |
| `InvoiceDocument.Invoice.TaxesMatchTotalIncl` | mindee/documents/invoice.js:220-250 | the result is check A of the old fields. On a pass the lines, total tax and total including taxes become certain; otherwise nothing changes |
| `InvoiceDocument.Invoice.TaxesMatchTotalExcl` | mindee/documents/invoice.js:255-284 | the result is check B of the old fields. On a pass the lines, total tax and total excluding taxes become certain; otherwise nothing changes |
| `InvoiceDocument.Invoice.TaxesPlusTotalExclMatchTotalIncl` | mindee/documents/invoice.js:286-309 | the result is check C of the old fields, with the `NaN` sum. On a pass the lines, total tax and total including taxes become certain |
| `InvoiceDocument.Invoice.ReconstructTotalTax` | mindee/documents/invoice.js:311-326 | only the total tax changes, as step 1 says |
| `InvoiceDocument.Invoice.ReconstructTotalExcl` | mindee/documents/invoice.js:348-369 | only the total excluding taxes changes, as step 2 says |
| `InvoiceDocument.Invoice.ReconstructTotalIncl` | mindee/documents/invoice.js:371-392 | only the total including taxes changes, as step 3 says |
| `InvoiceDocument.Invoice.ReconstructTotalTaxFromTotals` | mindee/documents/invoice.js:328-346 | only the total tax changes, as step 4 says |
| `Scenarios.AllMissing` | tests/documents/invoice.js:30-54 | an all-"N/A" prediction: all three checks fail and nothing is reconstructed, the total tax included (also lines 159-167) |
| `Scenarios.NoTaxesNoReconstruction` | tests/documents/invoice.js:118-141 | without tax lines no total is derived and a present excl 1050/0.4 is kept. The same holds for the case at lines 56-66 |
| `Scenarios.NoTotalsNoReconstruction` | tests/documents/invoice.js:68-78 | with neither total present, neither is derived (also lines 106-116) |
| `Scenarios.PresentTotalInclKept` | tests/documents/invoice.js:80-91 | a present incl 260/0.4 is kept |
| `Scenarios.TotalInclReconstructed` | tests/documents/invoice.js:93-104 | 240.5/0.9 with a tax 9.5/0.9 gives incl 250 with confidence 0.81 |
| `Scenarios.TotalExclReconstructed` | tests/documents/invoice.js:143-157 | 1150.2/0.6 with taxes 10.2/0.5 and 40.0/0.1 gives excl 1100 with confidence 0.03 |
| `Scenarios.TotalTaxReconstructed` | tests/documents/invoice.js:169-181 | taxes 10.2/0.5 and 40.0/0.1 give a total tax of 50.2 with confidence 0.05 |
| `Scenarios.CheckAPasses` | tests/documents/invoice.js:183-197 | 507.25 matches 10.99@20 + 40.12@10, and the total and every line become certain |
| `Scenarios.CheckAFails` | tests/documents/invoice.js:199-222 | with 10.9@20 in place of 10.99@20, or a single zero tax, check A fails |
| `Scenarios.CheckBPasses` | tests/documents/invoice.js:224-238 | 456.15 matches the same lines, and the total and every line become certain |
| `Scenarios.CheckBFails` | tests/documents/invoice.js:240-263 | 507.25 does not match the lines with 10.9@20, nor does a single zero tax |
| `Scenarios.CheckCPasses` | tests/documents/invoice.js:265-281 | 456.15 + taxes matches 507.25, and both totals and every line become certain |
| `Scenarios.CheckCFails` | tests/documents/invoice.js:283-308 | 507.2 fails check C, and so does a single zero tax |
| `Scenarios.TotalTaxFromTotals` | mindee/documents/invoice.js:328-346 | without tax lines, totals 120/0.5 and 100/0.4 give a total tax of 20 with confidence 0.2, and equal totals give none |

## Left out

- Building the fields from a prediction or from arguments
  (`#initFromScratch`, `#initFromApiPrediction`, mindee/documents/invoice.js:72-189)
  is not modelled. That code maps JSON into `Field`, `Amount`, `Tax` and
  other objects whose classes are not part of this model, including the
  "N/A" to absent conversion. The constructors take the already-mapped
  fields instead.
- The `Amount` class is not part of this model. A reconstructed amount is
  taken to keep the value and confidence it was built from.
- `Field.arrayProbability` is not part of this model. It is modelled as the
  product of the line confidences, with 1 for no lines, which is what the
  tests expect.
- The scratch path with `taxes` left undefined throws a `TypeError` in the
  checks (`this.taxes.length`). The model always has a sequence of tax lines.
- `toString`, the words, dates, supplier, numbers, locale, orientation and
  payment details play no part in reconciliation and are not modelled.
  mindee/documents/fields/locale.js is not modelled either: it only copies
  fields.
- The `reconstructed: true` flag of a derived amount is informational and
  not modelled.
- Floating point: amounts are exact reals and IEEE-754 rounding is not
  reproduced. `NaN` is modelled only where the core produces it: check C's
  sum, and check C's comparisons with an absent total.
- `null` and `undefined` are both "absent". The checks test one or the
  other (`=== undefined`, `== null`), and the model cannot tell them apart.
- A passing check replaces each `Tax` object with a plain copy. Object
  identity and aliasing of tax lines are not modelled: the lines are values.
- The case at tests/documents/invoice.js:14-28 reads a prediction file that
  is not part of this model.
