/** Tax-comparison calculator: progressive federal brackets, flat state,
    self-employment and payroll taxes, and the sole-proprietorship versus
    S-Corporation comparison built from them.

    Amounts and rates are exact rationals (`real`); every component is
    rounded on its own, half up, as JavaScript's Math.round does. */
module TaxService {

  // ---------------------------------------------------------------------
  // Rounding

  /** Math.round: the nearest integer, halves rounded up. */
  function Round(x: real): (r: int)
    ensures x - 0.5 < r as real <= x + 0.5
  {
    (x + 0.5).Floor
  }

  lemma RoundMonotone(x: real, y: real)
    requires x <= y
    ensures Round(x) <= Round(y)
  {
    assert Round(x) as real <= x + 0.5 <= y + 0.5 < (Round(y) + 1) as real;
  }

  function Min(a: real, b: real): real
  {
    if a <= b then a else b
  }

  // ---------------------------------------------------------------------
  // Bracket tables

  /** The upper end of a bracket; the top bracket of a table has none
      (JavaScript's Infinity). */
  datatype Bound = Finite(value: real) | Unbounded

  datatype Bracket = Bracket(min: real, max: Bound, rate: real)

  /** Federal brackets for a single filer, used for the sole-proprietorship
      column. The 24% bracket ends at 182050 here; the published 2023
      schedule ends it at 182,100. */
  const SolePropBrackets: seq<Bracket> := [
    Bracket(0.0, Finite(11000.0), 0.10),
    Bracket(11000.0, Finite(44725.0), 0.12),
    Bracket(44725.0, Finite(95375.0), 0.22),
    Bracket(95375.0, Finite(182050.0), 0.24),
    Bracket(182050.0, Finite(231250.0), 0.32),
    Bracket(231250.0, Finite(578125.0), 0.35),
    Bracket(578125.0, Unbounded, 0.37)
  ]

  /** The S-Corporation column's table, a separate copy with the same
      entries. */
  const SCorpBrackets: seq<Bracket> := [
    Bracket(0.0, Finite(11000.0), 0.10),
    Bracket(11000.0, Finite(44725.0), 0.12),
    Bracket(44725.0, Finite(95375.0), 0.22),
    Bracket(95375.0, Finite(182050.0), 0.24),
    Bracket(182050.0, Finite(231250.0), 0.32),
    Bracket(231250.0, Finite(578125.0), 0.35),
    Bracket(578125.0, Unbounded, 0.37)
  ]

  const StateTaxRate: real := 0.06
  const SelfEmploymentTaxRate: real := 0.1413
  /** Share of net earnings subject to self-employment tax. */
  const NetEarningsFactor: real := 0.9235
  /** Employer share of payroll tax. */
  const PayrollTaxRate: real := 0.0765
  /** Reasonable salary as a share of profit. */
  const SCorpSalaryRatio: real := 0.40
  /** Minimum annual savings that justifies the S-Corporation's overhead. */
  const BreakEvenSavings: int := 2000

  /** A table that covers [lo, infinity) without gaps or overlaps: it starts
      at `lo`, each finite bracket ends where the next one starts, and only
      the last bracket is unbounded. */
  predicate Chain(bs: seq<Bracket>, lo: real)
    decreases |bs|
  {
    |bs| > 0 && bs[0].min == lo &&
    match bs[0].max
    case Unbounded => |bs| == 1
    case Finite(m) => lo <= m && Chain(bs[1..], m)
  }

  /** A complete table: contiguous from zero, last bracket unbounded. */
  predicate TaxTable(bs: seq<Bracket>)
  {
    Chain(bs, 0.0)
  }

  /** Rates are non-negative and no finite bracket is inverted. */
  predicate Sane(bs: seq<Bracket>)
    decreases |bs|
  {
    bs == [] ||
    (bs[0].rate >= 0.0 && (bs[0].max.Finite? ==> bs[0].min <= bs[0].max.value) && Sane(bs[1..]))
  }

  /** Marginal rates never go down from one bracket to the next. */
  predicate Progressive(bs: seq<Bracket>)
  {
    forall k :: 0 <= k < |bs| - 1 ==> bs[k].rate <= bs[k + 1].rate
  }

  lemma FederalTables()
    ensures SCorpBrackets == SolePropBrackets
    ensures TaxTable(SolePropBrackets) && Sane(SolePropBrackets) && Progressive(SolePropBrackets)
  {
    var bs := SolePropBrackets;
    assert Chain(bs[6..], 578125.0);
    assert Chain(bs[5..], 231250.0);
    assert Chain(bs[4..], 182050.0);
    assert Chain(bs[3..], 95375.0);
    assert Chain(bs[2..], 44725.0);
    assert Chain(bs[1..], 11000.0);
  }

  // ---------------------------------------------------------------------
  // The bracket walk

  /** The part of the income still to be taxed that the bracket takes:
      min(remaining, max - min), where an unbounded bracket takes it all. */
  function Taxable(remaining: real, b: Bracket): (t: real)
    ensures t <= remaining
    ensures b.max.Finite? ==> t <= b.max.value - b.min
    ensures remaining > 0.0 && (b.max.Finite? ==> b.min <= b.max.value) ==> t >= 0.0
    ensures b.max.Unbounded? ==> t == remaining
  {
    match b.max
    case Unbounded => remaining
    case Finite(m) => Min(remaining, m - b.min)
  }

  /** The tax one bracket levies on the part of the remaining income it
      takes. */
  function Share(remaining: real, b: Bracket): real
  {
    Taxable(remaining, b) * b.rate
  }

  /** Unrounded tax of the walk over `bs` starting with `remaining` income:
      the walk stops as soon as nothing is left to tax. */
  function BracketTax(remaining: real, bs: seq<Bracket>): (tax: real)
    ensures remaining <= 0.0 || bs == [] ==> tax == 0.0
    decreases |bs|
  {
    if bs == [] || remaining <= 0.0 then 0.0
    else Share(remaining, bs[0]) + BracketTax(remaining - Taxable(remaining, bs[0]), bs[1..])
  }

  /** The income the walk leaves untaxed. */
  function Leftover(remaining: real, bs: seq<Bracket>): real
    decreases |bs|
  {
    if bs == [] || remaining <= 0.0 then remaining
    else Leftover(remaining - Taxable(remaining, bs[0]), bs[1..])
  }

  /** calculateFederalTax as a value: the walk's tax, rounded once at the end. */
  function FederalTax(income: real, rates: seq<Bracket>): (r: int)
    ensures income <= 0.0 ==> r == 0
  {
    Round(BracketTax(income, rates))
  }

  /** calculateFederalTax: walks the brackets in order, taxing at each
      bracket's rate the part of the remaining income the bracket holds, and
      stops once no income remains. */
  method CalculateFederalTax(income: real, rates: seq<Bracket>) returns (tax: int)
    ensures tax == FederalTax(income, rates)
  {
    var total := 0.0;
    var remainingIncome := income;
    ghost var taxed := 0.0;
    var i := 0;
    while i < |rates|
      invariant 0 <= i <= |rates|
      invariant taxed + remainingIncome == income
      invariant income > 0.0 ==> remainingIncome >= 0.0
      invariant total + BracketTax(remainingIncome, rates[i..]) == BracketTax(income, rates)
      invariant Leftover(remainingIncome, rates[i..]) == Leftover(income, rates)
    {
      if remainingIncome <= 0.0 {
        break;
      }
      var bracket := rates[i];
      var taxableInBracket := match bracket.max
        case Unbounded => remainingIncome
        case Finite(m) => Min(remainingIncome, m - bracket.min);
      assert rates[i..][1..] == rates[i + 1..];
      total := total + taxableInBracket * bracket.rate;
      remainingIncome := remainingIncome - taxableInBracket;
      taxed := taxed + taxableInBracket;
      i := i + 1;
    }
    tax := Round(total);
  }

  // ---------------------------------------------------------------------
  // What the walk computes over a complete table

  /** How much of [0, income] falls inside the bracket. */
  function Overlap(income: real, b: Bracket): real
  {
    if income <= b.min then 0.0
    else match b.max
      case Unbounded => income - b.min
      case Finite(m) => Min(income, m) - b.min
  }

  /** Sum over the brackets of rate times overlap: the textbook definition of
      progressive tax, independent of the walk. */
  function OverlapTax(income: real, bs: seq<Bracket>): real
    decreases |bs|
  {
    if bs == [] then 0.0
    else bs[0].rate * Overlap(income, bs[0]) + OverlapTax(income, bs[1..])
  }

  lemma {:induction false} OverlapTaxBelow(income: real, bs: seq<Bracket>, lo: real)
    requires Chain(bs, lo) && income <= lo
    ensures OverlapTax(income, bs) == 0.0
    decreases |bs|
  {
    assert Overlap(income, bs[0]) == 0.0;
    match bs[0].max
    case Unbounded =>
      assert bs[1..] == [];
    case Finite(m) =>
      OverlapTaxBelow(income, bs[1..], m);
  }

  /** Walking a table that covers [lo, infinity) with the income above `lo`
      gives the sum of rate times overlap. */
  lemma {:induction false} WalkIsOverlapTax(income: real, bs: seq<Bracket>, lo: real)
    requires Chain(bs, lo)
    ensures BracketTax(income - lo, bs) == OverlapTax(income, bs)
    decreases |bs|
  {
    if income - lo <= 0.0 {
      OverlapTaxBelow(income, bs, lo);
    } else {
      var t := Taxable(income - lo, bs[0]);
      assert BracketTax(income - lo, bs) == t * bs[0].rate + BracketTax(income - lo - t, bs[1..]);
      match bs[0].max
      case Unbounded =>
        assert bs[1..] == [];
      case Finite(m) =>
        assert Overlap(income, bs[0]) == t;
        WalkIsOverlapTax(income, bs[1..], m);
        if income < m {
          assert income - lo - t == 0.0;
        } else {
          assert income - lo - t == income - m;
        }
    }
  }

  /** Over a complete table the walk taxes all of the income. */
  lemma {:induction false} WalkUsesAllIncome(income: real, bs: seq<Bracket>, lo: real)
    requires Chain(bs, lo)
    ensures Leftover(income, bs) == if income <= 0.0 then income else 0.0
    decreases |bs|
  {
    if income > 0.0 {
      match bs[0].max
      case Unbounded =>
        assert bs[1..] == [];
      case Finite(m) =>
        WalkUsesAllIncome(income - Taxable(income, bs[0]), bs[1..], m);
    }
  }

  lemma FederalTaxClosedForm(income: real, bs: seq<Bracket>)
    requires TaxTable(bs)
    ensures FederalTax(income, bs) == Round(OverlapTax(income, bs))
    ensures Leftover(income, bs) == if income <= 0.0 then income else 0.0
  {
    WalkIsOverlapTax(income, bs, 0.0);
    assert income - 0.0 == income;
    WalkUsesAllIncome(income, bs, 0.0);
  }

  // ---------------------------------------------------------------------
  // Monotonicity

  lemma {:induction false} BracketTaxNonnegative(x: real, bs: seq<Bracket>)
    requires Sane(bs)
    ensures BracketTax(x, bs) >= 0.0
    decreases |bs|
  {
    if bs != [] && x > 0.0 {
      BracketTaxNonnegative(x - Taxable(x, bs[0]), bs[1..]);
      ShareMonotone(x, x, bs[0]);
    }
  }

  /** A bracket takes no less from a larger remainder, and leaves no less. */
  lemma TaxableMonotone(x: real, y: real, b: Bracket)
    requires 0.0 < x <= y && (b.max.Finite? ==> b.min <= b.max.value)
    ensures Taxable(x, b) <= Taxable(y, b)
    ensures x - Taxable(x, b) <= y - Taxable(y, b)
  {
  }

  /** At a non-negative rate, a bracket levies no less on a larger
      remainder, and never less than nothing. */
  lemma ShareMonotone(x: real, y: real, b: Bracket)
    requires 0.0 < x <= y && b.rate >= 0.0 && (b.max.Finite? ==> b.min <= b.max.value)
    ensures 0.0 <= Share(x, b) <= Share(y, b)
  {
    var tx, ty := Taxable(x, b), Taxable(y, b);
    TaxableMonotone(x, y, b);
    assert ty * b.rate - tx * b.rate == (ty - tx) * b.rate;
  }

  lemma {:induction false} BracketTaxMonotone(x: real, y: real, bs: seq<Bracket>)
    requires Sane(bs) && x <= y
    ensures BracketTax(x, bs) <= BracketTax(y, bs)
    decreases |bs|
  {
    if bs == [] {
    } else if x <= 0.0 {
      BracketTaxNonnegative(y, bs);
    } else {
      TaxableMonotone(x, y, bs[0]);
      ShareMonotone(x, y, bs[0]);
      BracketTaxMonotone(x - Taxable(x, bs[0]), y - Taxable(y, bs[0]), bs[1..]);
    }
  }

  /** With non-negative rates, federal tax never goes down as income grows. */
  lemma FederalTaxMonotone(x: real, y: real, bs: seq<Bracket>)
    requires Sane(bs) && x <= y
    ensures FederalTax(x, bs) <= FederalTax(y, bs)
  {
    BracketTaxMonotone(x, y, bs);
    RoundMonotone(BracketTax(x, bs), BracketTax(y, bs));
  }

  lemma FederalTaxAt11000()
    ensures FederalTax(11000.0, SolePropBrackets) == 1100
  {
    var bs := SolePropBrackets;
    assert Taxable(11000.0, bs[0]) == 11000.0;
    assert BracketTax(0.0, bs[1..]) == 0.0;
    assert BracketTax(11000.0, bs) == 1100.0;
  }

  lemma FederalTaxAt100000()
    ensures FederalTax(100000.0, SolePropBrackets) == 17400
  {
    var bs := SolePropBrackets;
    assert BracketTax(0.0, bs[4..]) == 0.0;
    assert BracketTax(4625.0, bs[3..]) == 1110.0;
    assert BracketTax(55275.0, bs[2..]) == 12253.0;
    assert BracketTax(89000.0, bs[1..]) == 16300.0;
    assert BracketTax(100000.0, bs) == 17400.0;
  }

  // ---------------------------------------------------------------------
  // Flat-rate taxes

  /** calculateStateTax: 6% of income, rounded. */
  function StateTax(income: real): (r: int)
    ensures StateTaxRate * income - 0.5 < r as real <= StateTaxRate * income + 0.5
    ensures income >= 0.0 ==> r >= 0
  {
    Round(income * StateTaxRate)
  }

  /** calculateSelfEmploymentTax: 14.13% of the 92.35% of income that counts
      as net earnings, rounded. */
  function SelfEmploymentTax(income: real): (r: int)
    ensures 0.13049055 * income - 0.5 < r as real <= 0.13049055 * income + 0.5
    ensures income >= 0.0 ==> r >= 0
  {
    var seIncome := income * NetEarningsFactor;
    Round(seIncome * SelfEmploymentTaxRate)
  }

  /** calculatePayrollTax: 7.65% of salary, rounded. */
  function PayrollTax(salary: real): (r: int)
    ensures PayrollTaxRate * salary - 0.5 < r as real <= PayrollTaxRate * salary + 0.5
    ensures salary >= 0.0 ==> r >= 0
  {
    Round(salary * PayrollTaxRate)
  }

  // ---------------------------------------------------------------------
  // The comparison

  datatype SolePropTaxes = SolePropTaxes(
    federalTax: int, stateTax: int, selfEmploymentTax: int, totalTax: int)

  datatype SCorpTaxes = SCorpTaxes(
    federalTax: int, stateTax: int, payrollTax: int,
    reasonableSalary: int, distribution: real, totalTax: int)

  /** The comparison result; the formatted savings percentage is not modelled. */
  datatype Comparison = Comparison(
    profit: real, soleProp: SolePropTaxes, sCorp: SCorpTaxes, savings: int)

  /** getTaxComparison: both structures' taxes on the same profit and the
      savings of the S-Corporation over the sole proprietorship. */
  function TaxComparison(profit: real): (r: Comparison)
    ensures r.profit == profit
    ensures r.soleProp.federalTax == FederalTax(profit, SolePropBrackets)
    ensures r.soleProp.stateTax == StateTax(profit)
    ensures r.soleProp.selfEmploymentTax == SelfEmploymentTax(profit)
    ensures r.sCorp.payrollTax == PayrollTax(r.sCorp.reasonableSalary as real)
    ensures r.soleProp.totalTax == r.soleProp.federalTax + r.soleProp.stateTax + r.soleProp.selfEmploymentTax
    ensures r.sCorp.totalTax == r.sCorp.federalTax + r.sCorp.stateTax + r.sCorp.payrollTax
    ensures r.savings == r.soleProp.totalTax - r.sCorp.totalTax
    ensures r.sCorp.reasonableSalary as real + r.sCorp.distribution == profit
    ensures SCorpSalaryRatio * profit - 0.5 < r.sCorp.reasonableSalary as real <= SCorpSalaryRatio * profit + 0.5
    ensures r.sCorp.federalTax == r.soleProp.federalTax && r.sCorp.stateTax == r.soleProp.stateTax
    ensures r.savings == r.soleProp.selfEmploymentTax - r.sCorp.payrollTax
    ensures profit >= 0.0 ==> r.soleProp.totalTax >= 0 && r.sCorp.totalTax >= 0
  {
    var soleFederal := FederalTax(profit, SolePropBrackets);
    var soleState := StateTax(profit);
    var se := SelfEmploymentTax(profit);
    var soleProp := SolePropTaxes(soleFederal, soleState, se, soleFederal + soleState + se);
    var reasonableSalary := Round(profit * SCorpSalaryRatio);
    var distribution := profit - reasonableSalary as real;
    var sCorpFederal := FederalTax(profit, SCorpBrackets);
    var sCorpState := StateTax(profit);
    var payroll := PayrollTax(reasonableSalary as real);
    var sCorp := SCorpTaxes(sCorpFederal, sCorpState, payroll, reasonableSalary, distribution,
                            sCorpFederal + sCorpState + payroll);
    FederalTables();
    BracketTaxNonnegative(profit, SolePropBrackets);
    Comparison(profit, soleProp, sCorp, soleProp.totalTax - sCorp.totalTax)
  }

  lemma ComparisonAt100000()
    ensures var c := TaxComparison(100000.0);
      && c.soleProp == SolePropTaxes(17400, 6000, 13049, 36449)
      && c.sCorp == SCorpTaxes(17400, 6000, 3060, 40000, 60000.0, 26460)
      && c.savings == 9989
  {
    FederalTaxAt100000();
    FederalTables();
  }

  /** Savings stay within about a dollar of 9.989055% of profit: the federal
      and state columns cancel, leaving self-employment tax minus payroll tax
      on the 40% salary, and each of the three roundings moves by at most
      half a unit. */
  lemma SavingsTrackProfit(profit: real)
    ensures 0.09989055 * profit - 1.03825 < TaxComparison(profit).savings as real
    ensures TaxComparison(profit).savings as real < 0.09989055 * profit + 1.03825
  {
    var c := TaxComparison(profit);
    var salary := c.sCorp.reasonableSalary as real;
    assert PayrollTaxRate * salary - 0.5 < c.sCorp.payrollTax as real <= PayrollTaxRate * salary + 0.5;
    assert 0.4 * profit - 0.5 < salary <= 0.4 * profit + 0.5;
    assert 0.0306 * profit - 0.53825 < c.sCorp.payrollTax as real;
    assert c.sCorp.payrollTax as real <= 0.0306 * profit + 0.53825;
  }

  /** The break-even point: below a profit of 20011 the S-Corporation never
      saves the 2000 that justifies it, from 20033 on it always does. */
  lemma BreakEvenProfit(profit: real)
    ensures profit <= 20011.0 ==> TaxComparison(profit).savings < BreakEvenSavings
    ensures profit >= 20033.0 ==> TaxComparison(profit).savings >= BreakEvenSavings
  {
    SavingsTrackProfit(profit);
  }

  // ---------------------------------------------------------------------
  // Derived helpers

  /** calculateTaxSavings without the formatted percentages. */
  datatype SavingsChange = SavingsChange(currentSavings: int, targetSavings: int, additionalSavings: int)

  function CalculateTaxSavings(currentProfit: real, targetProfit: real): (r: SavingsChange)
    ensures r.currentSavings == TaxComparison(currentProfit).savings
    ensures r.targetSavings == TaxComparison(targetProfit).savings
    ensures r.additionalSavings == r.targetSavings - r.currentSavings
  {
    var current := TaxComparison(currentProfit);
    var target := TaxComparison(targetProfit);
    SavingsChange(current.savings, target.savings, target.savings - current.savings)
  }

  /** Raising profit by 21 or more always raises the savings. */
  lemma MoreProfitMoreSavings(currentProfit: real, targetProfit: real)
    requires targetProfit >= currentProfit + 21.0
    ensures CalculateTaxSavings(currentProfit, targetProfit).additionalSavings > 0
  {
    SavingsTrackProfit(currentProfit);
    SavingsTrackProfit(targetProfit);
  }

  datatype Projection = Projection(profit: real, soleProprietorshipTax: int, sCorpTax: int, savings: int)

  function ProjectionAt(profit: real): (p: Projection)
    ensures p.profit == profit
    ensures p.soleProprietorshipTax == TaxComparison(profit).soleProp.totalTax
    ensures p.sCorpTax == TaxComparison(profit).sCorp.totalTax
    ensures p.savings == p.soleProprietorshipTax - p.sCorpTax
  {
    var c := TaxComparison(profit);
    Projection(profit, c.soleProp.totalTax, c.sCorp.totalTax, c.savings)
  }

  /** getTaxProjections: one projection per profit, in input order. */
  method GetTaxProjections(profitRange: seq<real>) returns (projections: seq<Projection>)
    ensures |projections| == |profitRange|
    ensures forall k :: 0 <= k < |projections| ==> projections[k] == ProjectionAt(profitRange[k])
    ensures forall k :: 0 <= k < |projections| ==>
      projections[k].profit == profitRange[k] &&
      projections[k].savings == projections[k].soleProprietorshipTax - projections[k].sCorpTax
  {
    projections := [];
    for i := 0 to |profitRange|
      invariant |projections| == i
      invariant forall k :: 0 <= k < i ==> projections[k] == ProjectionAt(profitRange[k])
    {
      var comparison := TaxComparison(profitRange[i]);
      projections := projections + [Projection(profitRange[i], comparison.soleProp.totalTax,
                                               comparison.sCorp.totalTax, comparison.savings)];
    }
  }

  // ---------------------------------------------------------------------
  // Recommendation

  datatype Structure = SoleProprietorship | SCorporation

  /** A reason or consideration; the two that quote the savings carry the
      amount rather than its formatted text. */
  datatype Note = Text(text: string) | AnnualSavings(amount: int) | LimitedSavings(amount: int)

  datatype Recommendation = Recommendation(
    structure: Structure, confidence: string,
    reasons: seq<Note>, considerations: seq<Note>,
    taxComparison: Comparison)

  /** getBusinessStructureRecommendation: recommends the S-Corporation when it
      saves at least the break-even amount, then adds one note per goal. */
  method GetBusinessStructureRecommendation(profit: real, businessGoals: seq<string>)
    returns (r: Recommendation)
    ensures r.taxComparison == TaxComparison(profit)
    ensures r.confidence == "high"
    ensures r.structure == SCorporation <==> r.taxComparison.savings >= BreakEvenSavings
    ensures var baseConsiderations := if r.structure == SCorporation then 2 else 1;
      |r.considerations| == baseConsiderations + (if "growth" in businessGoals then 1 else 0) &&
      ("growth" in businessGoals ==> r.considerations[baseConsiderations] == Text("Consider S-Corp for future scalability"))
    ensures |r.reasons| == 2 + (if "simplicity" in businessGoals then 1 else 0) &&
      ("simplicity" in businessGoals ==> r.reasons[2] == Text("Maintains operational simplicity"))
    ensures r.structure == SCorporation ==>
      r.reasons[..2] == [AnnualSavings(r.taxComparison.savings), Text("Significant payroll tax reduction on distributions")] &&
      r.considerations[..2] == [Text("Requires reasonable salary payments"), Text("Additional compliance and filing requirements")]
    ensures r.structure == SoleProprietorship ==>
      r.reasons[..2] == [Text("Lower administrative complexity and costs"), Text("Simpler tax filing requirements")] &&
      r.considerations[..1] == [LimitedSavings(r.taxComparison.savings)]
  {
    var comparison := TaxComparison(profit);
    var structure := SoleProprietorship;
    var reasons: seq<Note> := [];
    var considerations: seq<Note> := [];
    if comparison.savings >= BreakEvenSavings {
      structure := SCorporation;
      reasons := reasons + [AnnualSavings(comparison.savings)];
      reasons := reasons + [Text("Significant payroll tax reduction on distributions")];
      considerations := considerations + [Text("Requires reasonable salary payments")];
      considerations := considerations + [Text("Additional compliance and filing requirements")];
    } else {
      reasons := reasons + [Text("Lower administrative complexity and costs")];
      reasons := reasons + [Text("Simpler tax filing requirements")];
      considerations := considerations + [LimitedSavings(comparison.savings)];
    }
    if "growth" in businessGoals {
      considerations := considerations + [Text("Consider S-Corp for future scalability")];
    }
    if "simplicity" in businessGoals {
      reasons := reasons + [Text("Maintains operational simplicity")];
    }
    r := Recommendation(structure, "high", reasons, considerations, comparison);
  }
}
