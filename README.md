# Trifecta View: tax comparator and section store, in Dafny

This project models the two service modules of the Trifecta View dashboard
that hold its logic.

- **Tax comparator** (`tax_service.dfy`, module `TaxService`). The federal tax
  walks a progressive bracket table for a single filer, which the source
  keeps in two identical copies, one per business structure. The code ends
  the 24% bracket at 182050, where the published 2023 schedule has 182,100.
  State tax is a flat 6%. Self-employment tax is 14.13% of the 92.35% of
  profit that counts as net earnings. Payroll tax is 7.65% of the S-Corporation
  owner's reasonable salary, which is 40% of profit. The comparator computes
  both structures' taxes and the savings of the S-Corporation. Three helpers
  build on it: the savings change between two profits, projections over a
  list of profits, and a structure recommendation with a 2000 break-even
  threshold.
- **Section store** (`trifecta_service.dfy`, module `TrifectaService`). This
  is a module-level list of section records keyed by an integer `Id`. The
  class `SectionStore` keeps it as a `seq` field. Lookup uses the first record
  with the requested `Id`, and a miss is the error `SectionNotFound`. Update
  replaces that record with the updates spread over it. Create appends a
  record whose `Id` is one more than the largest `Id` (at least 1), unless
  the section data supplies its own `Id`. Delete removes the record and
  returns it.

Amounts and rates are exact rationals (`real`). `Round(x) = Floor(x + 1/2)`
is JavaScript's `Math.round`. Each tax component is rounded on its own, as
the source does, and totals are sums of rounded components. A bracket whose
`max` is `Infinity` has the bound `Unbounded`.

The bracket walk `CalculateFederalTax` is an imperative loop, proved against
the recursive function `BracketTax`. The comparator and the helpers use that
function, because functions cannot call methods. Over a complete table, one
that is contiguous from 0 and ends in an unbounded bracket, the walk equals
the textbook sum of rate times the part of income inside each bracket, and it
taxes all of the income. With non-negative rates it is monotone in income.
Because both tables are equal and both state taxes use the full profit, the
savings reduce to self-employment tax minus payroll tax. Those savings stay
within 1.03825 of 9.989055% of profit. So the S-Corporation is never
recommended at a profit of 20011 or less and always recommended at 20033 or
more.

- Negative profit can give negative state, self-employment and payroll
  taxes; federal tax is then 0.
- `calculateFederalTax` accepts any table; the properties that need a
  complete table require `TaxTable`.

## Model

| member | source | states |
|---|---|---|
| `TaxService.Round` | src/services/api/taxService.js:43 | The result is the integer nearest to x, with halves rounded up: x − 1/2 < r ≤ x + 1/2. |
| `TaxService.RoundMonotone` | src/services/api/taxService.js:43 | Rounding preserves order. |
| `TaxService.FederalTables` | src/services/api/taxService.js:4-21 | The S-Corp table equals the sole-prop table. The table is contiguous from 0 with only the last bracket unbounded. Its rates are non-negative and never decrease. |
| `TaxService.Taxable` | src/services/api/taxService.js:38 | The amount a bracket takes is at most the remaining income and at most max − min. It is non-negative when income remains and the bracket is not inverted. An unbounded bracket takes everything. |
| `TaxService.BracketTax` | src/services/api/taxService.js:35-41 | The walk taxes nothing when the remaining income is ≤ 0 or no bracket is left. |
| `TaxService.FederalTax` | src/services/api/taxService.js:31-44 | Federal tax is 0 whenever income ≤ 0. |
| `TaxService.CalculateFederalTax` | src/services/api/taxService.js:31-44 | The loop returns the rounded walk tax. Its invariant ties the running total plus the walk over the remaining brackets to the whole walk. The invariants on the amount taxed so far and on `Leftover` are bookkeeping; the income left untaxed is stated by `WalkUsesAllIncome`. |
| `TaxService.OverlapTaxBelow` | src/services/api/taxService.js:35-36 | No bracket of a table starting at lo overlaps an income ≤ lo. |
| `TaxService.WalkIsOverlapTax` | src/services/api/taxService.js:35-41 | Over a contiguous table from lo, the walk equals the sum over brackets of rate × overlap of [lo, income] with [min, max). |
| `TaxService.WalkUsesAllIncome` | src/services/api/taxService.js:33-41 | Over a contiguous table ending in an unbounded bracket, no positive income is left untaxed. |
| `TaxService.FederalTaxClosedForm` | src/services/api/taxService.js:4-12 | For a complete table, federal tax is the rounded sum of rate × overlap, and the walk uses up all non-negative income. |
| `TaxService.BracketTaxNonnegative` | src/services/api/taxService.js:35-41 | With non-negative rates and no inverted bracket, the walk's tax is ≥ 0. |
| `TaxService.TaxableMonotone` | src/services/api/taxService.js:38-40 | A larger remainder makes a bracket take no less and leave no less. |
| `TaxService.ShareMonotone` | src/services/api/taxService.js:38-39 | At a non-negative rate, the tax one bracket levies is ≥ 0 and does not decrease as the remaining income grows. |
| `TaxService.BracketTaxMonotone` | src/services/api/taxService.js:35-41 | With non-negative rates, the unrounded walk tax never decreases as income grows. |
| `TaxService.FederalTaxMonotone` | src/services/api/taxService.js:31-44 | With non-negative rates, federal tax never decreases as income grows. |
| `TaxService.FederalTaxAt11000` | src/services/api/taxService.js:5 | Federal tax on 11000 is 1100, exactly the first bracket. |
| `TaxService.FederalTaxAt100000` | src/services/api/taxService.js:5-8 | Federal tax on 100000 is 17400. |
| `TaxService.StateTax` | src/services/api/taxService.js:46-48 | State tax is within 1/2 of 6% of income, and non-negative for non-negative income. |
| `TaxService.SelfEmploymentTax` | src/services/api/taxService.js:50-53 | Self-employment tax is within 1/2 of 0.9235 × 0.1413 = 13.049055% of income, and non-negative for non-negative income. |
| `TaxService.PayrollTax` | src/services/api/taxService.js:55-57 | Payroll tax is within 1/2 of 7.65% of salary, and non-negative for non-negative salary. |
| `TaxService.TaxComparison` | src/services/api/taxService.js:59-92 | The sole-prop federal, state and self-employment taxes are `FederalTax`, `StateTax` and `SelfEmploymentTax` of profit, and the payroll tax is `PayrollTax` of the salary. Each total is the sum of its components. Salary plus distribution equals profit exactly. The salary is within 1/2 of 40% of profit. Federal and state taxes agree between the two structures. Savings are sole-prop total minus S-Corp total, which equals self-employment tax minus payroll tax. Totals are ≥ 0 for profit ≥ 0. |
| `TaxService.ComparisonAt100000` | src/services/api/taxService.js:59-92 | At profit 100000, sole-prop taxes are 17400 + 6000 + 13049 = 36449. S-Corp taxes are 17400 + 6000 + 3060 = 26460, with salary 40000 and distribution 60000. Savings are 9989. |
| `TaxService.SavingsTrackProfit` | src/services/api/taxService.js:63-88 | For every profit, savings lie strictly within 1.03825 of 0.09989055 × profit. |
| `TaxService.BreakEvenProfit` | src/services/api/taxService.js:132-142 | Savings fall short of the 2000 break-even for profit ≤ 20011 and reach it for profit ≥ 20033. |
| `TaxService.CalculateTaxSavings` | src/services/api/taxService.js:94-108 | Current and target savings are the two comparisons' savings, and the additional savings are their difference. |
| `TaxService.MoreProfitMoreSavings` | src/services/api/taxService.js:94-108 | Raising profit by 21 or more always gives positive additional savings. |
| `TaxService.ProjectionAt` | src/services/api/taxService.js:116-122 | A projection carries its profit, the sole-prop and S-Corp totals of `TaxComparison` at that profit, and savings equal to their difference. |
| `TaxService.GetTaxProjections` | src/services/api/taxService.js:110-126 | There is one projection per input profit, in input order. Each projection is that profit's comparison, with savings equal to the difference of the two totals. |
| `TaxService.GetBusinessStructureRecommendation` | src/services/api/taxService.js:128-166 | The structure is the S-Corporation exactly when savings ≥ 2000, and confidence is always "high". Each branch has its reasons and considerations in order. The goal "growth" appends one consideration and the goal "simplicity" appends one reason. The comparison is attached. |
| `TrifectaService.IndexOf` | src/services/api/trifectaService.js:22 | The result is the first index whose `Id` matches, or none exactly when no record matches. |
| `TrifectaService.Merge` | src/services/api/trifectaService.js:27 | The spread keeps every old property and lets each property of the updates override. The `Id` changes only when the updates carry one. |
| `TrifectaService.MaxId` | src/services/api/trifectaService.js:36 | The result is ≥ 0 and ≥ every `Id`, and it is either 0 or one of the `Id`s. |
| `TrifectaService.NewSection` | src/services/api/trifectaService.js:36-40 | Without a supplied `Id`, the new `Id` is `MaxId` + 1, so it is ≥ 1 and larger than every existing `Id`. A supplied `Id` wins. The properties are those of the section data. |
| `TrifectaService.SectionStore.constructor` | src/services/api/trifectaService.js:1 | The store starts with the imported records. |
| `TrifectaService.SectionStore.FindIndex` | src/services/api/trifectaService.js:22 | The linear search returns `IndexOf` of the stored list. |
| `TrifectaService.SectionStore.GetSections` | src/services/api/trifectaService.js:6-9 | Returns the stored list and changes nothing. |
| `TrifectaService.SectionStore.GetSectionById` | src/services/api/trifectaService.js:11-18 | Returns the error exactly when no record has the `Id`. Otherwise it returns the first record with that `Id`. The store is unchanged. |
| `TrifectaService.SectionStore.UpdateSection` | src/services/api/trifectaService.js:20-31 | On a miss: the error, and the store is unchanged. Otherwise only the first matching index changes, to the merged record, which is returned. |
| `TrifectaService.SectionStore.CreateSection` | src/services/api/trifectaService.js:33-44 | Appends exactly the new section at the end and returns it. |
| `TrifectaService.SectionStore.DeleteSection` | src/services/api/trifectaService.js:46-57 | On a miss: the error, and the store is unchanged. Otherwise the first matching record is removed and returned, and the other records keep their order. |
| `TrifectaService.UpdateKeepsIdsDistinct` | src/services/api/trifectaService.js:27-28 | An update without an `Id` keeps the length and keeps the `Id`s pairwise distinct. |
| `TrifectaService.CreateKeepsIdsDistinct` | src/services/api/trifectaService.js:36-42 | A create without an `Id` keeps the `Id`s pairwise distinct. |
| `TrifectaService.DeleteKeepsIdsDistinct` | src/services/api/trifectaService.js:54 | A delete shortens the list by one and keeps the `Id`s pairwise distinct. |
| `TrifectaService.FindAfterCreate` | src/services/api/trifectaService.js:36-42 | A section created without an `Id` is found under its new `Id`, at the end. |
| `TrifectaService.FindAfterDelete` | src/services/api/trifectaService.js:54 | After the record with a unique `Id` is deleted, a lookup of that `Id` misses. |
| `TrifectaService.FindAfterUpdate` | src/services/api/trifectaService.js:27-28 | After an update without an `Id`, the record is still found at the same index. |

## Left out

- Simulated latency (`delay`, `setTimeout`, `async`/`await`) is not modelled. Every operation is synchronous.
- Floating point is not modelled. Amounts are exact rationals, so a product such as `profit * 0.9235 * 0.1413` that lands near a .5 boundary in IEEE-754 can round differently.
- `savings.percentage` and the percentage delta of `calculateTaxSavings` are not modelled. They are strings formatted by `toFixed`, and they are NaN or Infinity when the sole-prop total is 0.
- The formatted dollar text in the recommendation's notes (`toLocaleString`) is not modelled. Those two notes carry the savings amount as a number.
- `parseInt(id)` is not modelled. Ids are integers.
- The JSON import is not modelled. Its records are the store's initial contents.
- Section properties other than `Id` have an arbitrary value type, and their key order is not modelled.
- A property named "Id" inside `fields` is not modelled. The `Id` is always the separate field `Id`, and no predicate keeps the key "Id" out of `fields`.
- The default `businessGoals = []` is not modelled. Callers that omit the goals pass `[]`.
- A supplied `Id` that is not an integer is not modelled. The `Id` in `updates` and `sectionData` is an optional integer.
- Reads and copies return record values. Object identity and aliasing of the returned copies are not modelled.
- `checkQuarterlyEstimateAlert` and `checkOpportunityZoneAlert` are not modelled. A page imports them, but the tax service does not define them.
- The React components, toasts and charts are not modelled, because they only render.
