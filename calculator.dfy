/** The compound-interest calculator page: a year-by-year simulation in which
    each year compounds a number of times that depends on the chosen
    frequency, adding a fixed contribution after every period. */
module Calculator {
  import opened JsMath

  /** Compounding periods per year: 12, 4 or 2 for the three named
      frequencies, once a year for anything else. */
  function PeriodsPerYear(frequency: string): (n: nat)
    ensures n == 12 || n == 4 || n == 2 || n == 1
    ensures frequency == "monthly" <==> n == 12
  {
    if frequency == "monthly" then 12
    else if frequency == "quarterly" then 4
    else if frequency == "semiannually" then 2
    else 1
  }

  /** The contribution added after each period: the monthly amount times the
      number of months the period spans, so a year always receives twelve
      monthly contributions whatever the frequency. */
  function PeriodContribution(frequency: string, monthly: real): (pmt: real)
    ensures PeriodsPerYear(frequency) as real * pmt == 12.0 * monthly
  {
    monthly * (if frequency == "monthly" then 1.0
               else if frequency == "quarterly" then 3.0
               else if frequency == "semiannually" then 6.0
               else 12.0)
  }

  /** The parameters of one simulation: the starting principal, the growth
      factor 1 + r/n of one period, the contribution after each period and
      the number of periods per year. */
  datatype Plan = Plan(principal: real, growth: real, payment: real, periods: nat)

  function PlanOf(principal: real, monthly: real, annualRate: real, frequency: string): (plan: Plan)
    ensures plan.periods >= 1
    ensures plan.periods as real * plan.payment == 12.0 * monthly
    ensures annualRate == 0.0 ==> plan.growth == 1.0
    ensures annualRate >= 0.0 ==> plan.growth >= 1.0
  {
    var n := PeriodsPerYear(frequency);
    Plan(principal, 1.0 + (annualRate / 100.0) / n as real, PeriodContribution(frequency, monthly), n)
  }

  /** `k` periods of `v := v * (1 + r/n) + pmt`, starting from `v`. */
  function Grow(v: real, growth: real, payment: real, k: nat): real {
    if k == 0 then v else Grow(v, growth, payment, k - 1) * growth + payment
  }

  /** The value at the end of year `y`: each year starts from the previous
      year's end and compounds for one year's worth of periods. */
  function YearValue(plan: Plan, y: nat): real {
    if y == 0 then plan.principal
    else Grow(YearValue(plan, y - 1), plan.growth, plan.payment, plan.periods)
  }

  /** The principal plus everything contributed up to the end of year `y`. */
  function Contributed(plan: Plan, y: nat): real {
    plan.principal + y as real * (plan.payment * plan.periods as real)
  }

  lemma ContributedStep(plan: Plan, y: nat)
    ensures Contributed(plan, y + 1) == Contributed(plan, y) + plan.payment * plan.periods as real
  {
    var x := plan.payment * plan.periods as real;
    assert (y + 1) as real * x == y as real * x + x;
  }

  /** One row of the chart. */
  datatype YearPoint = YearPoint(year: int, value: real, principal: real, interest: real)

  function PointAt(plan: Plan, y: nat): YearPoint {
    YearPoint(y, YearValue(plan, y), Contributed(plan, y), YearValue(plan, y) - Contributed(plan, y))
  }

  /** The chart rows for years 1 through t. */
  function Points(plan: Plan, t: nat): (s: seq<YearPoint>)
    ensures |s| == t
    ensures forall i :: 0 <= i < t ==> s[i] == PointAt(plan, i + 1)
  {
    if t == 0 then [] else Points(plan, t - 1) + [PointAt(plan, t)]
  }

  /** What the page shows after a successful calculation. */
  datatype Projection = Projection(futureValue: real, totalContributions: real,
                                   interestEarned: real, chartData: seq<YearPoint>)

  function Projected(plan: Plan, t: nat): Projection {
    Projection(YearValue(plan, t), Contributed(plan, t),
               YearValue(plan, t) - Contributed(plan, t), Points(plan, t))
  }

  /** Whether `yearlyData[t - 1]` exists after the loop: t must be a whole
      number of at least one year. */
  predicate WholeYears(years: real) {
    1.0 <= years && years == years.Floor as real
  }

  /** The inner loop: compound n times, adding the contribution after each
      period. */
  method CompoundOneYear(yearStart: real, r: real, n: nat, pmt: real) returns (yearEnd: real)
    requires n >= 1
    ensures yearEnd == Grow(yearStart, 1.0 + r / n as real, pmt, n)
  {
    yearEnd := yearStart;
    var period := 0;
    while period < n
      invariant 0 <= period <= n
      invariant yearEnd == Grow(yearStart, 1.0 + r / n as real, pmt, period)
    {
      yearEnd := yearEnd * (1.0 + r / n as real) + pmt;
      period := period + 1;
    }
  }

  /** calculateCompoundInterest without the toast: the nested loops, then
      the read of the last row, which throws when `years` is below one or
      not a whole number (no row has that index). */
  method Simulate(principal: real, monthlyContribution: real, annualRate: real,
                  years: real, compoundFrequency: string)
    returns (result: Result<Projection>)
    ensures result.Ok? <==> WholeYears(years)
    ensures result.Ok? ==>
              result.value == Projected(PlanOf(principal, monthlyContribution, annualRate, compoundFrequency), years.Floor)
  {
    ghost var plan := PlanOf(principal, monthlyContribution, annualRate, compoundFrequency);
    var p := principal;
    var r := annualRate / 100.0;
    var t := years;
    var n := PeriodsPerYear(compoundFrequency);
    var pmt := PeriodContribution(compoundFrequency, monthlyContribution);
    var totalPrincipal := p;
    var yearlyData: seq<YearPoint> := [];
    assert plan.growth == 1.0 + r / n as real && plan.payment == pmt && plan.periods == n;
    var year := 1;
    while year as real <= t
      invariant 1 <= year
      invariant year == 1 || year - 1 <= t.Floor
      invariant yearlyData == Points(plan, year - 1)
      invariant totalPrincipal == Contributed(plan, year - 1)
      decreases t.Floor - year + 1
    {
      var yearStart := if year == 1 then p else yearlyData[year - 2].value;
      assert yearStart == YearValue(plan, year - 1);
      var yearEnd := CompoundOneYear(yearStart, r, n, pmt);
      assert yearEnd == YearValue(plan, year);
      totalPrincipal := totalPrincipal + pmt * n as real;
      ContributedStep(plan, year - 1);
      yearlyData := yearlyData + [YearPoint(year, yearEnd, totalPrincipal, yearEnd - totalPrincipal)];
      year := year + 1;
    }
    assert |yearlyData| == if 1.0 <= t then t.Floor else 0;
    var last := t - 1.0;
    if !(last == last.Floor as real && 0 <= last.Floor < |yearlyData|) {
      result := TypeError;
      return;
    }
    var lastPoint := yearlyData[last.Floor];
    result := Ok(Projection(lastPoint.value, totalPrincipal, lastPoint.value - totalPrincipal, yearlyData));
  }

  /** The total contributed by the end of year y is the principal plus twelve
      monthly contributions per year, whatever the frequency. */
  lemma ContributionsPerYear(principal: real, monthly: real, annualRate: real, frequency: string, y: nat)
    ensures Contributed(PlanOf(principal, monthly, annualRate, frequency), y)
            == principal + 12.0 * monthly * y as real
  {
    var plan := PlanOf(principal, monthly, annualRate, frequency);
    assert plan.payment * plan.periods as real == 12.0 * monthly;
  }

  /** The value, contributions and interest the page reports are those of the
      chart's last row, and every row's interest is its value less its
      contributions. */
  lemma ReportIsLastPoint(plan: Plan, t: nat)
    requires t >= 1
    ensures Projected(plan, t).chartData[t - 1].year == t
    ensures Projected(plan, t).futureValue == Projected(plan, t).chartData[t - 1].value
    ensures Projected(plan, t).totalContributions == Projected(plan, t).chartData[t - 1].principal
    ensures Projected(plan, t).interestEarned == Projected(plan, t).chartData[t - 1].interest
    ensures forall i :: 0 <= i < t ==>
              Projected(plan, t).chartData[i].interest
              == Projected(plan, t).chartData[i].value - Projected(plan, t).chartData[i].principal
  {
  }

  /** Compounding a + b periods is compounding a periods and then b more. */
  lemma {:induction false} GrowSplit(v: real, growth: real, payment: real, a: nat, b: nat)
    ensures Grow(v, growth, payment, a + b) == Grow(Grow(v, growth, payment, a), growth, payment, b)
    decreases b
  {
    if b > 0 {
      GrowSplit(v, growth, payment, a, b - 1);
    }
  }

  /** The year-by-year value is the flat period-by-period value after
      y * n periods. */
  lemma {:induction false} YearValueIsFlat(plan: Plan, y: nat)
    ensures YearValue(plan, y) == Grow(plan.principal, plan.growth, plan.payment, y * plan.periods)
  {
    if y > 0 {
      YearValueIsFlat(plan, y - 1);
      GrowSplit(plan.principal, plan.growth, plan.payment, (y - 1) * plan.periods, plan.periods);
      assert (y - 1) * plan.periods + plan.periods == y * plan.periods;
    }
  }

  /** y years of n periods paying x each pay y times a year's n × x; the
      step from the flat run of y × n periods to the year-by-year count. */
  lemma PeriodsTimesPayment(y: nat, n: nat, x: real)
    ensures (y * n) as real * x == y as real * (x * n as real)
  {
    assert (y * n) as real == y as real * n as real;
  }

  /** With no growth, each period just adds its contribution. */
  lemma {:induction false} GrowWithoutInterest(v: real, payment: real, k: nat)
    ensures Grow(v, 1.0, payment, k) == v + k as real * payment
  {
    if k > 0 {
      GrowWithoutInterest(v, payment, k - 1);
    }
  }

  /** At a 0% rate the value is exactly what was paid in and no interest is
      earned. */
  lemma ZeroRate(principal: real, monthly: real, frequency: string, y: nat)
    ensures YearValue(PlanOf(principal, monthly, 0.0, frequency), y) == principal + 12.0 * monthly * y as real
    ensures PointAt(PlanOf(principal, monthly, 0.0, frequency), y).interest == 0.0
  {
    var plan := PlanOf(principal, monthly, 0.0, frequency);
    YearValueIsFlat(plan, y);
    GrowWithoutInterest(principal, plan.payment, y * plan.periods);
    PeriodsTimesPayment(y, plan.periods, plan.payment);
    ContributionsPerYear(principal, monthly, 0.0, frequency, y);
  }

  /** With non-negative growth and contributions, every period adds at least
      its contribution. */
  lemma {:induction false} GrowAtLeastPaidIn(v: real, growth: real, payment: real, k: nat)
    requires v >= 0.0 && growth >= 1.0 && payment >= 0.0
    ensures Grow(v, growth, payment, k) >= v + k as real * payment
  {
    if k > 0 {
      GrowAtLeastPaidIn(v, growth, payment, k - 1);
      GrowthStep(Grow(v, growth, payment, k - 1), growth, payment);
    }
  }

  /** For a non-negative rate, principal and contribution the value never
      falls from one year to the next and the interest is never negative. */
  lemma {:induction false} ValueGrows(principal: real, monthly: real, annualRate: real, frequency: string, y: nat)
    requires principal >= 0.0 && monthly >= 0.0 && annualRate >= 0.0
    ensures YearValue(PlanOf(principal, monthly, annualRate, frequency), y)
            <= YearValue(PlanOf(principal, monthly, annualRate, frequency), y + 1)
    ensures PointAt(PlanOf(principal, monthly, annualRate, frequency), y).interest >= 0.0
  {
    var plan := PlanOf(principal, monthly, annualRate, frequency);
    assert plan.payment >= 0.0;
    YearValueIsFlat(plan, y);
    GrowAtLeastPaidIn(principal, plan.growth, plan.payment, y * plan.periods);
    PeriodsTimesPayment(y, plan.periods, plan.payment);
    assert YearValue(plan, y) >= Contributed(plan, y) >= 0.0;
    GrowAtLeastPaidIn(YearValue(plan, y), plan.growth, plan.payment, plan.periods);
  }

  /** The calculator page's state. */
  class CompoundInterestCalculator {
    var principal: real
    var monthlyContribution: real
    var annualRate: real
    var years: real
    var compoundFrequency: string
    var futureValue: real
    var totalContributions: real
    var interestEarned: real
    var chartData: seq<YearPoint>

    constructor ()
      ensures principal == 10000.0 && monthlyContribution == 500.0 && annualRate == 8.0
      ensures years == 10.0 && compoundFrequency == "monthly"
      ensures futureValue == 0.0 && totalContributions == 0.0 && interestEarned == 0.0 && chartData == []
    {
      principal, monthlyContribution, annualRate := 10000.0, 500.0, 8.0;
      years, compoundFrequency := 10.0, "monthly";
      futureValue, totalContributions, interestEarned, chartData := 0.0, 0.0, 0.0, [];
    }

    /** The calculation effect: on success store the four results; when the
        last row does not exist the exception leaves the state as it was. */
    method CalculateCompoundInterest() returns (outcome: Result<Projection>)
      modifies this`futureValue, this`totalContributions, this`interestEarned, this`chartData
      ensures outcome.Ok? <==> WholeYears(years)
      ensures outcome.Ok? ==>
                outcome.value == Projected(PlanOf(principal, monthlyContribution, annualRate, compoundFrequency), years.Floor)
                && futureValue == outcome.value.futureValue
                && totalContributions == outcome.value.totalContributions
                && interestEarned == outcome.value.interestEarned
                && chartData == outcome.value.chartData
      ensures outcome.TypeError? ==>
                futureValue == old(futureValue) && totalContributions == old(totalContributions)
                && interestEarned == old(interestEarned) && chartData == old(chartData)
    {
      outcome := Simulate(principal, monthlyContribution, annualRate, years, compoundFrequency);
      if outcome.Ok? {
        futureValue := outcome.value.futureValue;
        totalContributions := outcome.value.totalContributions;
        interestEarned := outcome.value.interestEarned;
        chartData := outcome.value.chartData;
      }
    }
  }
}
