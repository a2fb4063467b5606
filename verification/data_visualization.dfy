/** The cumulative-cost series that `plot_annual_costs` draws for the SCI
    option (src/app/utils/data_visualization.py): the years 1..years on one
    axis and the net cost accumulated by the end of each year on the other.
    The figure itself is not modelled. */
module DataVisualization {
  import opened InvestmentOptions

  /** The years of the chart's horizontal axis: 1, 2, ..., years in
      increasing order, and none when `years` is not positive. */
  function YearsRange(years: int): (yearsRange: seq<int>)
    ensures |yearsRange| == if years <= 0 then 0 else years
    ensures forall y :: y in yearsRange <==> 1 <= y <= years
    ensures forall i, j :: 0 <= i < j < |yearsRange| ==> yearsRange[i] < yearsRange[j]
  {
    var yearsRange := seq(if years <= 0 then 0 else years, i => i + 1);
    assert forall y :: 1 <= y <= years ==> y in yearsRange by {
      forall y | 1 <= y <= years
        ensures y in yearsRange
      {
        assert yearsRange[y - 1] == y;
      }
    }
    yearsRange
  }

  /** The net cost accumulated by the end of each year of the range: the
      yearly net cost times the number of years elapsed. */
  function CumulativeCosts(years: int, netAnnualCost: real): (costs: seq<real>)
    ensures |costs| == |YearsRange(years)|
    ensures forall i :: 0 <= i < |costs| ==> costs[i] == netAnnualCost * ((i + 1) as real)
  {
    var yearsRange := YearsRange(years);
    seq(|yearsRange|, i requires 0 <= i < |yearsRange| => netAnnualCost * (yearsRange[i] as real))
  }

  /** Reference definition: a running total that adds one more year's net
      cost for each year. */
  function RunningTotal(n: nat, step: real): (totals: seq<real>)
    ensures |totals| == n
  {
    if n == 0 then []
    else
      var previous := RunningTotal(n - 1, step);
      previous + [(if n == 1 then 0.0 else previous[n - 2]) + step]
  }

  /** The series has one entry per year and is empty when `years` is not positive. */
  lemma CumulativeLength(years: int, netAnnualCost: real)
    ensures |CumulativeCosts(years, netAnnualCost)| == if years <= 0 then 0 else years
    ensures CumulativeCosts(years, netAnnualCost) == [] <==> years <= 0
  {}

  /** Adding one more year's cost to the total after k - 1 years gives the
      total after k years. */
  lemma OneMoreYear(step: real, k: int)
    ensures step * ((k - 1) as real) + step == step * (k as real)
  {}

  /** The series is the running total of the yearly net cost. */
  lemma {:induction false} CumulativeIsRunningTotal(years: int, netAnnualCost: real)
    ensures CumulativeCosts(years, netAnnualCost)
         == RunningTotal(if years <= 0 then 0 else years, netAnnualCost)
  {
    if years > 0 {
      CumulativeIsRunningTotal(years - 1, netAnnualCost);
      var costs := CumulativeCosts(years, netAnnualCost);
      var shorter := CumulativeCosts(years - 1, netAnnualCost);
      if years > 1 {
        OneMoreYear(netAnnualCost, years);
        assert costs[years - 1] == shorter[years - 2] + netAnnualCost;
      }
      if years == 1 {
        assert costs[0] == 0.0 + netAnnualCost;
      }
      assert RunningTotal(years, netAnnualCost)
          == RunningTotal(years - 1, netAnnualCost) + [costs[years - 1]];
      assert costs == shorter + [costs[years - 1]];
    }
  }

  /** In the running total, each entry exceeds the previous one by the step. */
  lemma {:induction false} RunningTotalStep(n: nat, step: real, i: nat)
    requires i + 1 < n
    ensures RunningTotal(n, step)[i + 1] == RunningTotal(n, step)[i] + step
  {
    if i + 2 < n {
      RunningTotalStep(n - 1, step, i);
    }
  }

  /** Consecutive entries of the series differ by exactly the yearly net cost. */
  lemma CumulativeStep(years: int, netAnnualCost: real, i: nat)
    requires i + 1 < |CumulativeCosts(years, netAnnualCost)|
    ensures CumulativeCosts(years, netAnnualCost)[i + 1]
         == CumulativeCosts(years, netAnnualCost)[i] + netAnnualCost
  {
    CumulativeIsRunningTotal(years, netAnnualCost);
    RunningTotalStep(years, netAnnualCost, i);
  }

  /** With a non-negative yearly net cost the series never decreases. */
  lemma {:induction false} CumulativeNonDecreasing(years: int, netAnnualCost: real, i: nat, j: nat)
    requires 0.0 <= netAnnualCost
    requires i <= j < |CumulativeCosts(years, netAnnualCost)|
    ensures CumulativeCosts(years, netAnnualCost)[i] <= CumulativeCosts(years, netAnnualCost)[j]
  {
    if i < j {
      CumulativeNonDecreasing(years, netAnnualCost, i, j - 1);
      CumulativeStep(years, netAnnualCost, j - 1);
    }
  }

  /** The last point of the series is the SCI option's total cost over the
      period: the chart ends where `SCIInvestment.calculate` does. */
  lemma CumulativeEndsAtSciTotal(rentPerMonth: real, corporateTaxRate: real,
                                 dividendTaxRate: real, years: int)
    requires 1 <= years
    ensures var report := SciCalculate(rentPerMonth, corporateTaxRate, dividendTaxRate, years);
            CumulativeCosts(years, report.netAnnualCost)[years - 1] == report.totalCostOverYears
  {}
}
