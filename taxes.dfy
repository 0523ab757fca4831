/** The household tax page: the 2023 married-filing-jointly federal brackets,
    the deduction sum, taxable income, the flat Kentucky state tax, net and
    monthly income, the "optimize" button, and the Roth-versus-Traditional
    comparison built on the annuity future-value factor. */
module Taxes {
  import opened JsMath

  // ---------------------------------------------------------------------
  // Federal brackets
  // ---------------------------------------------------------------------

  /** Lower bound of each bracket; bracket k covers (Thresholds[k], Thresholds[k+1]],
      the last one is unbounded above. */
  const Thresholds: seq<real> := [0.0, 22000.0, 89450.0, 190750.0, 364200.0, 462500.0, 693750.0]
  /** Marginal rate of each bracket. */
  const Rates: seq<real> := [0.10, 0.12, 0.22, 0.24, 0.32, 0.35, 0.37]
  const BracketCount: nat := 7

  /** The part of income `x` that falls in the bracket (lo, hi]. */
  function Slice(x: real, lo: real, hi: real): (r: real)
    requires lo <= hi
    ensures 0.0 <= r <= hi - lo
    ensures x <= lo ==> r == 0.0
    ensures hi <= x ==> r == hi - lo
    ensures lo <= x <= hi ==> r == x - lo
  {
    if x <= lo then 0.0 else if x <= hi then x - lo else hi - lo
  }

  /** The part of income `x` above `lo` (the open-ended top bracket). */
  function SliceAbove(x: real, lo: real): (r: real)
    ensures r >= 0.0
    ensures x <= lo ==> r == 0.0
    ensures lo <= x ==> r == x - lo
  {
    if x <= lo then 0.0 else x - lo
  }

  /** The progressive federal tax before Math.round, as the textbook states
      it: each bracket's rate times the slice of income inside that bracket. */
  function UnroundedFederalTax(x: real): real {
    0.10 * Slice(x, 0.0, 22000.0)
    + 0.12 * Slice(x, 22000.0, 89450.0)
    + 0.22 * Slice(x, 89450.0, 190750.0)
    + 0.24 * Slice(x, 190750.0, 364200.0)
    + 0.32 * Slice(x, 364200.0, 462500.0)
    + 0.35 * Slice(x, 462500.0, 693750.0)
    + 0.37 * SliceAbove(x, 693750.0)
  }

  /** What calculateFederalTax returns, as a function. */
  function FederalTax(taxable: real): int {
    Round(UnroundedFederalTax(taxable))
  }

  /** calculateFederalTax as the page writes it: nested ifs adding each
      bracket's slice into a running `tax`, then Math.round. */
  method CalculateFederalTax(taxable: real) returns (result: int)
    ensures result == FederalTax(taxable)
    ensures taxable <= 0.0 ==> result == 0
  {
    if taxable <= 0.0 {
      return 0;
    }
    var tax := 0.0;
    if taxable > 0.0 {
      if taxable <= 22000.0 {
        tax := tax + taxable * 0.10;
      } else {
        tax := tax + 22000.0 * 0.10;
        if taxable <= 89450.0 {
          tax := tax + (taxable - 22000.0) * 0.12;
        } else {
          tax := tax + (89450.0 - 22000.0) * 0.12;
          if taxable <= 190750.0 {
            tax := tax + (taxable - 89450.0) * 0.22;
          } else {
            tax := tax + (190750.0 - 89450.0) * 0.22;
            if taxable <= 364200.0 {
              tax := tax + (taxable - 190750.0) * 0.24;
            } else {
              tax := tax + (364200.0 - 190750.0) * 0.24;
              if taxable <= 462500.0 {
                tax := tax + (taxable - 364200.0) * 0.32;
              } else {
                tax := tax + (462500.0 - 364200.0) * 0.32;
                if taxable <= 693750.0 {
                  tax := tax + (taxable - 462500.0) * 0.35;
                } else {
                  tax := tax + (693750.0 - 462500.0) * 0.35;
                  tax := tax + (taxable - 693750.0) * 0.37;
                }
              }
            }
          }
        }
      }
    }
    result := Round(tax);
  }

  /** No tax on a non-positive income; otherwise between the lowest and the
      highest marginal rate of the income. */
  lemma FederalTaxBounds(x: real)
    ensures x <= 0.0 ==> UnroundedFederalTax(x) == 0.0 && FederalTax(x) == 0
    ensures x > 0.0 ==> 0.10 * x <= UnroundedFederalTax(x) <= 0.37 * x
    ensures FederalTax(x) >= 0
  {
    RoundOfInt(0);
    if x > 0.0 {
      RoundMonotone(0.0, UnroundedFederalTax(x));
    }
  }

  /** Slope: between two incomes of the same bracket the unrounded tax grows
      at exactly that bracket's rate. */
  lemma BracketSlope(k: nat, x: real, y: real)
    requires k < BracketCount
    requires Thresholds[k] <= x <= y
    requires k == BracketCount - 1 || y <= Thresholds[k + 1]
    ensures UnroundedFederalTax(y) - UnroundedFederalTax(x) == Rates[k] * (y - x)
  {
    if k == 0 {
    } else if k == 1 {
    } else if k == 2 {
    } else if k == 3 {
    } else if k == 4 {
    } else if k == 5 {
    } else {
    }
  }

  /** Continuity: inside bracket k the tax is its value at the bracket's lower
      threshold plus the rate times the excess, and this formula reaches the
      next threshold's value exactly at that threshold. */
  lemma ThresholdContinuity(k: nat)
    requires 0 < k < BracketCount
    ensures UnroundedFederalTax(Thresholds[k])
         == UnroundedFederalTax(Thresholds[k - 1]) + Rates[k - 1] * (Thresholds[k] - Thresholds[k - 1])
  {
    BracketSlope(k - 1, Thresholds[k - 1], Thresholds[k]);
  }

  /** The tax owed at each threshold of the table. */
  lemma BaseValues()
    ensures UnroundedFederalTax(22000.0) == 2200.0
    ensures UnroundedFederalTax(89450.0) == 10294.0
    ensures UnroundedFederalTax(190750.0) == 32580.0
    ensures UnroundedFederalTax(364200.0) == 74208.0
    ensures UnroundedFederalTax(462500.0) == 105664.0
    ensures UnroundedFederalTax(693750.0) == 186601.5
  {
  }

  /** The federal tax never decreases as taxable income grows. */
  lemma FederalTaxMonotone(x: real, y: real)
    requires x <= y
    ensures UnroundedFederalTax(x) <= UnroundedFederalTax(y)
    ensures FederalTax(x) <= FederalTax(y)
  {
    RoundMonotone(UnroundedFederalTax(x), UnroundedFederalTax(y));
  }

  /** The first bracket: 10% of the income, rounded; 22000 owes exactly 2200. */
  lemma FirstBracket(taxable: real)
    requires 0.0 < taxable <= 22000.0
    ensures FederalTax(taxable) == Round(0.10 * taxable)
    ensures FederalTax(22000.0) == 2200
  {
    RoundOfInt(2200);
  }

  // ---------------------------------------------------------------------
  // The recalculation effect
  // ---------------------------------------------------------------------

  /** The inputs the recalculation effect depends on. */
  datatype TaxInputs = TaxInputs(
    katieIncome: real,
    chadIncome: real,
    katieContribPct: real,
    chadRothContrib: real,
    standardDeduction: real,
    additionalDeductions: real,
    useHSA: bool,
    hsaContribution: real,
    studentLoanInterest: real,
    charitableContributions: real,
    educatorExpenses: real,
    kyTaxRate: real)

  /** The values the effect stores. */
  datatype TaxSummary = TaxSummary(
    taxableIncome: real,
    federalTax: int,
    stateTax: int,
    totalTax: int,
    netIncome: real,
    monthlyIncome: int)

  function TotalIncome(t: TaxInputs): real {
    t.katieIncome + t.chadIncome
  }

  /** Katie's 401(k) contribution in dollars: her salary times the percentage, rounded. */
  function KatieContribAmount(katieIncome: real, pct: real): (r: int)
    ensures katieIncome >= 0.0 && pct >= 0.0 ==> r >= 0
  {
    Round(katieIncome * (pct / 100.0))
  }

  lemma KatieContribMonotone(katieIncome: real, pct: real, pct': real)
    requires katieIncome >= 0.0 && pct <= pct'
    ensures KatieContribAmount(katieIncome, pct) <= KatieContribAmount(katieIncome, pct')
  {
    assert katieIncome * (pct / 100.0) <= katieIncome * (pct' / 100.0);
    RoundMonotone(katieIncome * (pct / 100.0), katieIncome * (pct' / 100.0));
  }

  /** Every deduction plus the 401(k) amount; the HSA amount is part of the
      sum only while the HSA switch is on. */
  function TotalDeductions(t: TaxInputs): real {
    t.standardDeduction
    + (if t.useHSA then t.hsaContribution else 0.0)
    + t.studentLoanInterest
    + t.charitableContributions
    + t.educatorExpenses
    + t.additionalDeductions
    + KatieContribAmount(t.katieIncome, t.katieContribPct) as real
  }

  /** The HSA switch: on, it adds exactly the HSA amount; off, the HSA amount
      has no effect at all. */
  lemma HsaGate(t: TaxInputs, h: real)
    ensures TotalDeductions(t.(useHSA := true)) == TotalDeductions(t.(useHSA := false)) + t.hsaContribution
    ensures TotalDeductions(t.(useHSA := false, hsaContribution := h)) == TotalDeductions(t.(useHSA := false))
  {
  }

  /** Math.max(0, income - deductions). */
  function TaxableIncome(totalIncome: real, totalDeductions: real): (r: real)
    ensures r >= 0.0
    ensures r >= totalIncome - totalDeductions
    ensures r == 0.0 || r == totalIncome - totalDeductions
  {
    if totalIncome - totalDeductions > 0.0 then totalIncome - totalDeductions else 0.0
  }

  /** Flat state tax: taxable income times the percentage rate, rounded. */
  function StateTax(taxable: real, ratePct: real): (r: int)
    ensures taxable >= 0.0 && ratePct >= 0.0 ==> r >= 0
  {
    Round(taxable * (ratePct / 100.0))
  }

  /** The effect at lines 98-143 as a function of its inputs. */
  function Summarize(t: TaxInputs): TaxSummary {
    var taxable := TaxableIncome(TotalIncome(t), TotalDeductions(t));
    var federal := FederalTax(taxable);
    var state := StateTax(taxable, t.kyTaxRate);
    var total := federal + state;
    var net := TotalIncome(t) - total as real
               - KatieContribAmount(t.katieIncome, t.katieContribPct) as real - t.chadRothContrib;
    TaxSummary(taxable, federal, state, total, net, Round(net / 12.0))
  }

  /** What the summary cards show: a taxable income that is never negative
      and otherwise income less deductions, the two taxes on it and their
      total, and a take-home pay that accounts for every dollar of income
      (taxes, the 401(k) contribution, the Roth contribution), of which the
      monthly figure is the nearest whole twelfth. */
  lemma SummaryAccounts(t: TaxInputs)
    ensures Summarize(t).taxableIncome >= 0.0
    ensures Summarize(t).taxableIncome >= TotalIncome(t) - TotalDeductions(t)
    ensures Summarize(t).taxableIncome == 0.0 || Summarize(t).taxableIncome == TotalIncome(t) - TotalDeductions(t)
    ensures Summarize(t).federalTax == FederalTax(Summarize(t).taxableIncome) && Summarize(t).federalTax >= 0
    ensures Summarize(t).stateTax == StateTax(Summarize(t).taxableIncome, t.kyTaxRate)
    ensures Summarize(t).totalTax == Summarize(t).federalTax + Summarize(t).stateTax
    ensures Summarize(t).netIncome + Summarize(t).totalTax as real
            + KatieContribAmount(t.katieIncome, t.katieContribPct) as real + t.chadRothContrib
            == TotalIncome(t)
    ensures 12.0 * Summarize(t).monthlyIncome as real - 6.0 <= Summarize(t).netIncome
            < 12.0 * Summarize(t).monthlyIncome as real + 6.0
  {
    var s := Summarize(t);
    FederalTaxBounds(s.taxableIncome);
  }

  // ---------------------------------------------------------------------
  // optimizeTaxes
  // ---------------------------------------------------------------------

  const OptimalContribPct: real := 12.0
  const RothLimit: real := 6500.0

  /** The settings after "Optimize Tax Strategy": HSA on, the 401(k) share
      raised to 12% and the Roth contribution to 6500 where they were lower. */
  function Optimized(t: TaxInputs): (o: TaxInputs)
    ensures o.useHSA
    ensures o.katieContribPct >= OptimalContribPct && o.katieContribPct >= t.katieContribPct
    ensures o.chadRothContrib >= RothLimit && o.chadRothContrib >= t.chadRothContrib
    ensures t.katieContribPct >= OptimalContribPct ==> o.katieContribPct == t.katieContribPct
    ensures t.katieContribPct < OptimalContribPct ==> o.katieContribPct == OptimalContribPct
    ensures t.chadRothContrib >= RothLimit ==> o.chadRothContrib == t.chadRothContrib
    ensures t.chadRothContrib < RothLimit ==> o.chadRothContrib == RothLimit
    ensures o == t.(useHSA := o.useHSA, katieContribPct := o.katieContribPct, chadRothContrib := o.chadRothContrib)
  {
    t.(useHSA := true,
       katieContribPct := if t.katieContribPct < 12.0 then 12.0 else t.katieContribPct,
       chadRothContrib := if t.chadRothContrib < 6500.0 then 6500.0 else t.chadRothContrib)
  }

  /** Pressing the button twice changes nothing the second time. */
  lemma OptimizeIdempotent(t: TaxInputs)
    ensures Optimized(Optimized(t)) == Optimized(t)
  {
  }

  /** With a non-negative salary, HSA amount and state rate, optimizing can
      only lower the household's total tax: every change raises the deductions. */
  lemma OptimizeNeverRaisesTax(t: TaxInputs)
    requires t.katieIncome >= 0.0 && t.hsaContribution >= 0.0 && t.kyTaxRate >= 0.0
    ensures Summarize(Optimized(t)).totalTax <= Summarize(t).totalTax
  {
    var o := Optimized(t);
    KatieContribMonotone(t.katieIncome, t.katieContribPct, o.katieContribPct);
    assert TotalDeductions(o) >= TotalDeductions(t);
    var so, st := Summarize(o), Summarize(t);
    var x, y := so.taxableIncome, st.taxableIncome;
    assert TotalIncome(o) == TotalIncome(t);
    assert x <= y;
    FederalTaxMonotone(x, y);
    StateTaxMonotone(x, y, t.kyTaxRate);
    assert so.totalTax == FederalTax(x) + StateTax(x, t.kyTaxRate);
    assert st.totalTax == FederalTax(y) + StateTax(y, t.kyTaxRate);
  }

  lemma StateTaxMonotone(x: real, y: real, ratePct: real)
    requires x <= y && ratePct >= 0.0
    ensures StateTax(x, ratePct) <= StateTax(y, ratePct)
  {
    assert x * (ratePct / 100.0) <= y * (ratePct / 100.0);
    RoundMonotone(x * (ratePct / 100.0), y * (ratePct / 100.0));
  }

  // ---------------------------------------------------------------------
  // Roth versus Traditional
  // ---------------------------------------------------------------------

  /** The value, in units of one monthly deposit, of `months` deposits made at
      the end of each month and compounded at `monthlyRate`; an independent,
      month-by-month definition of the closed-form factor ((1+i)^m - 1) / i. */
  function AnnuityFactor(monthlyRate: real, months: nat): (f: real)
    ensures 1.0 + monthlyRate > 0.0 ==> f >= 0.0
    ensures 1.0 + monthlyRate > 0.0 && months > 0 ==> f >= 1.0
    ensures monthlyRate >= 0.0 ==> f >= months as real
  {
    if months == 0 then 0.0 else AnnuityFactor(monthlyRate, months - 1) * (1.0 + monthlyRate) + 1.0
  }

  /** The factor agrees with the closed form: i * F(i, m) = (1 + i)^m - 1. */
  lemma {:induction false} AnnuityClosedForm(i: real, m: nat)
    ensures i * AnnuityFactor(i, m) == Pow(1.0 + i, m) - 1.0
  {
    if m > 0 {
      AnnuityClosedForm(i, m - 1);
      AnnuityStep(i, AnnuityFactor(i, m - 1), Pow(1.0 + i, m - 1));
    }
  }

  /** One month of the closed form: if i * a = p - 1 then one more deposit keeps it so. */
  lemma AnnuityStep(i: real, a: real, p: real)
    requires i * a == p - 1.0
    ensures i * (a * (1.0 + i) + 1.0) == (1.0 + i) * p - 1.0
  {
    calc {
      i * (a * (1.0 + i) + 1.0);
      (i * a) * (1.0 + i) + i;
      (p - 1.0) * (1.0 + i) + i;
      (1.0 + i) * p - 1.0;
    }
  }

  /** The factor as the page computes it, (Math.pow(1 + i, m) - 1) / i. */
  function FutureValueFactorAsWritten(monthlyRate: real, months: nat): (r: Number)
    ensures monthlyRate != 0.0 <==> r.Finite?
  {
    Divide(Pow(1.0 + monthlyRate, months) - 1.0, monthlyRate)
  }

  /** With a zero expected return the page's factor is 0/0 = NaN, while the
      month-by-month value is simply the number of deposits; at every other
      rate the two agree. */
  lemma ZeroRateFactor(monthlyRate: real, months: nat)
    ensures monthlyRate == 0.0 ==> FutureValueFactorAsWritten(monthlyRate, months) == NaN
    ensures monthlyRate == 0.0 ==> AnnuityFactor(monthlyRate, months) == months as real
    ensures monthlyRate != 0.0 ==> FutureValueFactorAsWritten(monthlyRate, months) == Finite(AnnuityFactor(monthlyRate, months))
  {
    AnnuityClosedForm(monthlyRate, months);
    if monthlyRate != 0.0 {
      var f := AnnuityFactor(monthlyRate, months);
      assert (monthlyRate * f) / monthlyRate == f;
    }
  }

  /** The monthly deposit rate and number of months the page derives from an
      expected annual return in percent and a horizon in years. */
  function MonthlyRate(annualPct: real): real { annualPct / 100.0 / 12.0 }

  /** The future value of `annualContribution`, paid in twelve equal monthly
      deposits for `years` years. */
  function FutureValue(annualContribution: real, annualPct: real, years: nat): real {
    (annualContribution / 12.0) * AnnuityFactor(MonthlyRate(annualPct), years * 12)
  }

  /** Traditional: the full contribution grows, and the whole value is taxed at
      the retirement rate on withdrawal. */
  function TraditionalAfterTax(contribution: real, annualPct: real, years: nat, retirementTaxRate: real): real {
    FutureValue(contribution, annualPct, years) * (1.0 - retirementTaxRate / 100.0)
  }

  /** Roth: the contribution is taxed now at the current rate, and what is left grows tax-free. */
  function RothFutureValue(contribution: real, annualPct: real, years: nat, currentTaxRate: real): real {
    FutureValue(contribution * (1.0 - currentTaxRate / 100.0), annualPct, years)
  }

  /** Both paths share one future-value factor, so Roth ends ahead exactly
      when today's rate is below the retirement rate, level exactly when the
      rates are equal, and behind otherwise. */
  lemma RothVersusTraditional(contribution: real, annualPct: real, years: nat, currentTaxRate: real, retirementTaxRate: real)
    requires contribution > 0.0 && years > 0 && annualPct > -1200.0
    ensures RothFutureValue(contribution, annualPct, years, currentTaxRate)
            > TraditionalAfterTax(contribution, annualPct, years, retirementTaxRate)
            <==> currentTaxRate < retirementTaxRate
    ensures RothFutureValue(contribution, annualPct, years, currentTaxRate)
            == TraditionalAfterTax(contribution, annualPct, years, retirementTaxRate)
            <==> currentTaxRate == retirementTaxRate
  {
    var f := AnnuityFactor(MonthlyRate(annualPct), years * 12);
    assert f >= 1.0;
    var c := contribution / 12.0 * f;
    assert c > 0.0;
    assert RothFutureValue(contribution, annualPct, years, currentTaxRate)
        == c * (1.0 - currentTaxRate / 100.0);
    assert TraditionalAfterTax(contribution, annualPct, years, retirementTaxRate)
        == c * (1.0 - retirementTaxRate / 100.0);
    assert c * (1.0 - currentTaxRate / 100.0) - c * (1.0 - retirementTaxRate / 100.0)
        == c * (retirementTaxRate - currentTaxRate) / 100.0;
  }

  /** The two bars of the IRA chart, each Math.round-ed. */
  datatype IraComparison = IraComparison(traditional: int, roth: int)

  /** The three texts getRecommendation can show. */
  datatype Advice = FavorRoth | FavorTraditional | EitherIsFine

  function GetRecommendation(currentTaxRate: real, retirementTaxRate: real): (a: Advice)
    ensures a == FavorRoth <==> currentTaxRate < retirementTaxRate
    ensures a == FavorTraditional <==> currentTaxRate > retirementTaxRate
    ensures a == EitherIsFine <==> currentTaxRate == retirementTaxRate
  {
    if currentTaxRate < retirementTaxRate then FavorRoth
    else if currentTaxRate > retirementTaxRate then FavorTraditional
    else EitherIsFine
  }

  /** calculateRothVsTraditional (with the month-by-month factor in place of
      the closed form, which is NaN at a zero rate). The two bars never
      contradict the recommendation text: Roth's bar is at least
      Traditional's when Roth is advised, at most when Traditional is, and
      the two are equal when the rates are. */
  function CalculateRothVsTraditional(contribution: real, years: nat, annualPct: real, currentTaxRate: real, retirementTaxRate: real): (c: IraComparison)
    ensures c.traditional == Round(TraditionalAfterTax(contribution, annualPct, years, retirementTaxRate))
    ensures c.roth == Round(RothFutureValue(contribution, annualPct, years, currentTaxRate))
    ensures contribution > 0.0 && years > 0 && annualPct > -1200.0 ==>
              (GetRecommendation(currentTaxRate, retirementTaxRate) == FavorRoth ==> c.roth >= c.traditional)
    ensures contribution > 0.0 && years > 0 && annualPct > -1200.0 ==>
              (GetRecommendation(currentTaxRate, retirementTaxRate) == FavorTraditional ==> c.roth <= c.traditional)
    ensures contribution > 0.0 && years > 0 && annualPct > -1200.0 ==>
              (GetRecommendation(currentTaxRate, retirementTaxRate) == EitherIsFine ==> c.roth == c.traditional)
  {
    var trad := TraditionalAfterTax(contribution, annualPct, years, retirementTaxRate);
    var roth := RothFutureValue(contribution, annualPct, years, currentTaxRate);
    var bars := IraComparison(Round(trad), Round(roth));
    if contribution > 0.0 && years > 0 && annualPct > -1200.0 then
      RothVersusTraditional(contribution, annualPct, years, currentTaxRate, retirementTaxRate);
      if roth >= trad then RoundMonotone(trad, roth); bars
      else RoundMonotone(roth, trad); bars
    else
      bars
  }

  /** The three numbers of the 401(k) effect, each Math.round-ed. */
  datatype Comparison401k = Comparison401k(traditionalResult: int, rothResult: int, traditionalTax: int)

  /** The 401(k) effect: Katie's dollar contribution grows along both paths; the
      Traditional path's value is split into the withdrawal tax and what is left. */
  function Compare401k(katieContrib: real, annualPct: real, years: nat, currentTaxRate: real, retirementTaxRate: real): (c: Comparison401k)
    // after-tax value and withdrawal tax add back up to the future value (up to Math.round)
    ensures Round(FutureValue(katieContrib, annualPct, years)) - 1
            <= c.traditionalResult + c.traditionalTax
            <= Round(FutureValue(katieContrib, annualPct, years)) + 1
    // the Traditional after-tax value is the one the IRA comparison computes
    ensures c.traditionalResult == CalculateRothVsTraditional(katieContrib, years, annualPct, currentTaxRate, retirementTaxRate).traditional
    ensures c.rothResult == CalculateRothVsTraditional(katieContrib, years, annualPct, currentTaxRate, retirementTaxRate).roth
  {
    var fv := FutureValue(katieContrib, annualPct, years);
    var tax := fv * (retirementTaxRate / 100.0);
    var afterTax := fv - tax;
    assert afterTax == TraditionalAfterTax(katieContrib, annualPct, years, retirementTaxRate);
    var rothContrib := katieContrib * (1.0 - currentTaxRate / 100.0);
    var rothValue := (rothContrib / 12.0) * AnnuityFactor(MonthlyRate(annualPct), years * 12);
    Comparison401k(Round(afterTax), Round(rothValue), Round(tax))
  }

  // ---------------------------------------------------------------------
  // The component's state
  // ---------------------------------------------------------------------

  /** The tax page's state: one field per useState. */
  class TaxOptimization {
    var katieIncome: real
    var chadIncome: real
    var katieContribPct: real
    var chadRothContrib: real
    var standardDeduction: real
    var additionalDeductions: real
    var useHSA: bool
    var hsaContribution: real
    var studentLoanInterest: real
    var charitableContributions: real
    var educatorExpenses: real
    var kyTaxRate: real

    var taxableIncome: real
    var federalTax: int
    var stateTax: int
    var totalTax: int
    var netIncome: real
    var monthlyIncome: int

    var contributionAmount: real
    var yearsToRetirement: nat
    var expectedReturnRate: real
    var currentTaxRate: real
    var retirementTaxRate: real

    var traditional401kResult: int
    var roth401kResult: int
    var traditional401kTax: int

    function Inputs(): TaxInputs
      reads this`katieIncome, this`chadIncome, this`katieContribPct, this`chadRothContrib,
            this`standardDeduction, this`additionalDeductions, this`useHSA, this`hsaContribution,
            this`studentLoanInterest, this`charitableContributions, this`educatorExpenses, this`kyTaxRate
    {
      TaxInputs(katieIncome, chadIncome, katieContribPct, chadRothContrib, standardDeduction,
                additionalDeductions, useHSA, hsaContribution, studentLoanInterest,
                charitableContributions, educatorExpenses, kyTaxRate)
    }

    function Summary(): TaxSummary
      reads this`taxableIncome, this`federalTax, this`stateTax, this`totalTax, this`netIncome, this`monthlyIncome
    {
      TaxSummary(taxableIncome, federalTax, stateTax, totalTax, netIncome, monthlyIncome)
    }

    /** The initial values of the page's state, before any effect runs. */
    constructor ()
      ensures Inputs() == TaxInputs(80000.0, 73265.0, 4.0, 3000.0, 29600.0, 0.0, false, 3850.0, 0.0, 0.0, 0.0, 4.0)
      ensures Summary() == TaxSummary(0.0, 0, 0, 0, 0.0, 0)
      ensures contributionAmount == 6000.0 && yearsToRetirement == 30 && expectedReturnRate == 8.0
      ensures currentTaxRate == 22.0 && retirementTaxRate == 12.0
      ensures traditional401kResult == 0 && roth401kResult == 0 && traditional401kTax == 0
    {
      katieIncome, chadIncome := 80000.0, 73265.0;
      katieContribPct, chadRothContrib := 4.0, 3000.0;
      standardDeduction, additionalDeductions := 29600.0, 0.0;
      useHSA, hsaContribution := false, 3850.0;
      studentLoanInterest, charitableContributions, educatorExpenses := 0.0, 0.0, 0.0;
      kyTaxRate := 4.0;
      taxableIncome, federalTax, stateTax, totalTax, netIncome, monthlyIncome := 0.0, 0, 0, 0, 0.0, 0;
      contributionAmount, yearsToRetirement, expectedReturnRate := 6000.0, 30, 8.0;
      currentTaxRate, retirementTaxRate := 22.0, 12.0;
      traditional401kResult, roth401kResult, traditional401kTax := 0, 0, 0;
    }

    /** The recalculation effect: store taxable income, the two taxes, their
        total, net and monthly income, in that order. */
    method RecalculateTaxes()
      modifies this`taxableIncome, this`federalTax, this`stateTax, this`totalTax, this`netIncome, this`monthlyIncome
      ensures Summary() == Summarize(old(Inputs()))
    {
      var t := Inputs();
      var contrib := KatieContribAmount(katieIncome, katieContribPct);
      taxableIncome := TaxableIncome(TotalIncome(t), TotalDeductions(t));
      federalTax := CalculateFederalTax(taxableIncome);
      stateTax := StateTax(taxableIncome, kyTaxRate);
      totalTax := federalTax + stateTax;
      netIncome := TotalIncome(t) - totalTax as real - contrib as real - chadRothContrib;
      monthlyIncome := Round(netIncome / 12.0);
    }

    /** "Optimize Tax Strategy": switch the HSA on and raise the 401(k) share
        and the Roth contribution to their targets where they are lower. */
    method OptimizeTaxes()
      modifies this`useHSA, this`katieContribPct, this`chadRothContrib
      ensures Inputs() == Optimized(old(Inputs()))
    {
      if !useHSA {
        useHSA := true;
      }
      if katieContribPct < 12.0 {
        katieContribPct := 12.0;
      }
      if chadRothContrib < 6500.0 {
        chadRothContrib := 6500.0;
      }
    }

    /** The 401(k) comparison effect, driven by Katie's dollar contribution. */
    method Recalculate401k()
      modifies this`traditional401kResult, this`roth401kResult, this`traditional401kTax
      ensures Comparison401k(traditional401kResult, roth401kResult, traditional401kTax)
           == Compare401k(KatieContribAmount(katieIncome, katieContribPct) as real,
                          expectedReturnRate, yearsToRetirement, currentTaxRate, retirementTaxRate)
    {
      var c := Compare401k(KatieContribAmount(katieIncome, katieContribPct) as real,
                           expectedReturnRate, yearsToRetirement, currentTaxRate, retirementTaxRate);
      traditional401kResult, roth401kResult, traditional401kTax := c.traditionalResult, c.rothResult, c.traditionalTax;
    }
  }
}
