/** The baby-fund projection on the Phase 2 page: monthly deposits into an
    account that compounds monthly, sampled every six months, and the
    progress bar against the 12500 goal. */
module BabyFund {
  import opened JsMath

  const Goal: int := 12500
  /** The annual rate, in percent, used when the caller gives none. */
  const DefaultRate: real := 4.35

  /** The monthly growth factor for an annual rate in percent. */
  function MonthlyGrowth(ratePct: real): (g: real)
    ensures ratePct == 0.0 ==> g == 1.0
    ensures ratePct >= 0.0 ==> g >= 1.0
  {
    1.0 + ratePct / 100.0 / 12.0
  }

  /** The balance after `m` months, starting from nothing:
      `balance := balance * (1 + rate/1200) + contribution` each month. */
  function Balance(contribution: real, ratePct: real, m: nat): real {
    if m == 0 then 0.0 else Balance(contribution, ratePct, m - 1) * MonthlyGrowth(ratePct) + contribution
  }

  /** One sample of the chart; `year` is month / 12, which the page shows
      with one decimal. */
  datatype FundPoint = FundPoint(month: int, year: real, balance: int, goal: int)

  function SampleAt(contribution: real, ratePct: real, month: nat): FundPoint {
    FundPoint(month, month as real / 12.0, Round(Balance(contribution, ratePct, month)), Goal)
  }

  /** The first k samples: months 6, 12, ..., 6k, in increasing order, each
      against the goal. */
  function Samples(contribution: real, ratePct: real, k: nat): (s: seq<FundPoint>)
    ensures |s| == k
    ensures forall i :: 0 <= i < k ==> s[i] == SampleAt(contribution, ratePct, 6 * (i + 1))
    ensures forall i :: 0 <= i < k ==> s[i].month == 6 * (i + 1) && s[i].goal == Goal
    ensures forall i, j :: 0 <= i < j < k ==> s[i].month < s[j].month
  {
    if k == 0 then [] else Samples(contribution, ratePct, k - 1) + [SampleAt(contribution, ratePct, 6 * k)]
  }

  /** How many months the loop runs: every whole month up to years * 12. */
  function Months(years: real): (m: nat)
    ensures m as real <= years * 12.0 || m == 0
    ensures years * 12.0 < (m + 1) as real
  {
    if years * 12.0 >= 1.0 then (years * 12.0).Floor else 0
  }

  /** What generateBabyFundData returns: one sample for every sixth month. */
  function FundData(contribution: real, years: real, ratePct: real): seq<FundPoint> {
    Samples(contribution, ratePct, Months(years) / 6)
  }

  /** generateBabyFundData: the monthly loop, recording a rounded sample
      whenever the month is a multiple of six. */
  method GenerateBabyFundData(monthlyContribution: real, years: real, rate: real)
    returns (data: seq<FundPoint>)
    ensures data == FundData(monthlyContribution, years, rate)
  {
    data := [];
    var balance := 0.0;
    var month := 1;
    while month as real <= years * 12.0
      invariant 1 <= month <= Months(years) + 1
      invariant balance == Balance(monthlyContribution, rate, month - 1)
      invariant data == Samples(monthlyContribution, rate, (month - 1) / 6)
      decreases Months(years) + 1 - month
    {
      balance := balance * (1.0 + rate / 100.0 / 12.0) + monthlyContribution;
      if month % 6 == 0 {
        data := data + [FundPoint(month, month as real / 12.0, Round(balance), 12500)];
      }
      month := month + 1;
    }
  }

  /** A whole number of years gives two samples a year, at months 6, 12,
      ..., 12 * years, each against the 12500 goal. */
  lemma WholeYearSamples(contribution: real, years: nat, ratePct: real)
    ensures FundData(contribution, years as real, ratePct) == Samples(contribution, ratePct, 2 * years)
    ensures |FundData(contribution, years as real, ratePct)| == 2 * years
    ensures years > 0 ==> FundData(contribution, years as real, ratePct)[2 * years - 1].month == 12 * years
  {
    assert (years as real * 12.0).Floor == 12 * years;
    if years == 0 {
      assert Months(0.0) == 0;
    }
  }

  /** At a 0% rate the balance is just the deposits. */
  lemma {:induction false} ZeroRateBalance(contribution: real, m: nat)
    ensures Balance(contribution, 0.0, m) == m as real * contribution
  {
    if m > 0 {
      ZeroRateBalance(contribution, m - 1);
    }
  }

  /** With a non-negative rate and contribution the balance never falls and
      is at least the sum of the deposits. */
  lemma {:induction false} BalanceGrows(contribution: real, ratePct: real, m: nat)
    requires contribution >= 0.0 && ratePct >= 0.0
    ensures Balance(contribution, ratePct, m) >= m as real * contribution
    ensures Balance(contribution, ratePct, m) <= Balance(contribution, ratePct, m + 1)
  {
    if m > 0 {
      BalanceGrows(contribution, ratePct, m - 1);
    }
    GrowthStep(Balance(contribution, ratePct, m), MonthlyGrowth(ratePct), contribution);
  }

  /** The progress bar: the last sample's balance as a share of the goal,
      capped at 100. Reading the last sample of an empty series throws. */
  function Progress(data: seq<FundPoint>): (r: Result<real>)
    ensures r.Ok? <==> data != []
    ensures r.Ok? ==> r.value <= 100.0
    ensures r.Ok? && data[|data| - 1].balance >= 0 ==> r.value >= 0.0
    ensures r.Ok? && data[|data| - 1].balance >= Goal ==> r.value == 100.0
    ensures r.Ok? && data[|data| - 1].balance <= Goal ==> r.value == data[|data| - 1].balance as real / 125.0
  {
    if data == [] then TypeError
    else Ok(Min100(Scale(Divide(data[|data| - 1].balance as real, 12500.0), 100.0)).value)
  }

  /** The series has a last sample, so the progress bar has a value, exactly
      when the horizon reaches the sixth month. */
  lemma ProgressDefined(contribution: real, years: real, ratePct: real)
    ensures Progress(FundData(contribution, years, ratePct)).Ok? <==> years * 12.0 >= 6.0
  {
  }

  /** The two tracks the page shows, 300 a month for 3 years and 200 a month
      for 5 years at the default rate, both have a progress value. */
  lemma TracksHaveProgress()
    ensures Progress(FundData(300.0, 3.0, DefaultRate)).Ok?
    ensures Progress(FundData(200.0, 5.0, DefaultRate)).Ok?
  {
    ProgressDefined(300.0, 3.0, DefaultRate);
    ProgressDefined(200.0, 5.0, DefaultRate);
  }
}
