/** What the dashboard's ratios are on the generator's own output: every
    division it performs is defined, and each ratio lies in a band fixed by
    the draw ranges. */
module GeneratedRatios {
  import opened Records
  import opened Generator
  import opened Ratios
  import opened Analysis

  /** A quotient q of x by a positive d, with x between lo * d and hi * d,
      lies between lo and hi. */
  lemma QuotientBand(q: real, d: real, x: real, lo: real, hi: real)
    requires d > 0.0 && q * d == x && lo * d <= x <= hi * d
    ensures lo <= q <= hi
  {
    assert (q - lo) * d == x - lo * d;
    assert (hi - q) * d == hi * d - x;
  }

  /** Two numbers whose products with the same non-zero a agree are equal. */
  lemma Cancel(a: real, x: real, y: real, p: real)
    requires a != 0.0 && x * a == p && y * a == p
    ensures x == y
  {
    assert (x - y) * a == 0.0;
  }

  /** On a consistent row, net profit lies between 18% and 30% of revenue. */
  lemma ConsistentNetBand(r: FinancialRecord)
    requires Consistent(r)
    ensures 0.18 * r.revenue <= r.netProfit <= 0.30 * r.revenue
  {
    var gross := r.revenue - r.operatingExpenses;
    assert 0.30 * r.revenue <= gross <= 0.40 * r.revenue;
  }

  /** On a consistent row every ratio is defined and lies in the band the
      draw ranges allow. */
  lemma ConsistentRatioBands(r: FinancialRecord)
    requires Consistent(r)
    ensures r.revenue != 0.0 && r.totalAssets != 0.0 && r.equity != 0.0 && r.currentLiabilities != 0.0
    ensures 18.0 <= ProfitMargin(r) <= 30.0
    ensures 5.14 <= ReturnOnAssets(r) <= 12.0
    ensures 9.35 <= ReturnOnEquity(r) <= 26.67
    ensures 5.0 / 3.0 <= CurrentRatio(r) <= 2.5
    ensures 7.0 / 6.0 <= QuickRatio(r) <= 1.75
    ensures 9.0 / 11.0 <= DebtToEquity(r) <= 11.0 / 9.0
  {
    ConsistentFacts(r);
    ConsistentNetBand(r);
    QuotientBand(ProfitMargin(r), r.revenue, 100.0 * r.netProfit, 18.0, 30.0);
    QuotientBand(ReturnOnAssets(r), r.totalAssets, 100.0 * r.netProfit, 5.14, 12.0);
    assert 1.125 * r.revenue <= r.equity <= 1.925 * r.revenue;
    QuotientBand(ReturnOnEquity(r), r.equity, 100.0 * r.netProfit, 9.35, 26.67);
    QuotientBand(CurrentRatio(r), r.currentLiabilities, r.currentAssets, 5.0 / 3.0, 2.5);
    QuotientBand(DebtToEquity(r), r.equity, r.totalAssets - r.equity, 9.0 / 11.0, 11.0 / 9.0);
  }

  /** The margin of a row whose expenses and net profit are shares u1 and
      u2 of revenue and of gross profit depends on those shares only. */
  lemma MarginFromShares(r: FinancialRecord, u1: real, u2: real)
    requires r.revenue > 0.0
    requires r.operatingExpenses == r.revenue * u1
    requires r.netProfit == (r.revenue - r.operatingExpenses) * u2
    ensures ProfitMargin(r) == 100.0 * (1.0 - u1) * u2
  {
    assert (100.0 * (1.0 - u1) * u2) * r.revenue == 100.0 * r.netProfit;
    Cancel(r.revenue, ProfitMargin(r), 100.0 * (1.0 - u1) * u2, 100.0 * r.netProfit);
  }

  /** The current ratio of a row whose current liabilities are a share u5
      of its positive current assets is 1 / u5. */
  lemma CurrentRatioFromShare(r: FinancialRecord, u5: real)
    requires r.currentAssets > 0.0 && u5 > 0.0
    requires r.currentLiabilities == r.currentAssets * u5
    ensures CurrentRatio(r) == 1.0 / u5
  {
    var c := CurrentRatio(r);
    var k := c * u5;
    assert k * r.currentAssets == c * r.currentLiabilities == r.currentAssets;
    Cancel(r.currentAssets, k, 1.0, r.currentAssets);
  }

  /** The debt-to-equity ratio of a row whose equity is the share 1 - u6
      of its positive total assets is u6 / (1 - u6). */
  lemma DebtToEquityFromShare(r: FinancialRecord, u6: real)
    requires r.totalAssets > 0.0 && u6 < 1.0
    requires r.equity == r.totalAssets * (1.0 - u6)
    ensures DebtToEquity(r) == u6 / (1.0 - u6)
  {
    var d := DebtToEquity(r);
    assert (d * (1.0 - u6)) * r.totalAssets == d * r.equity;
    Cancel(r.totalAssets, d * (1.0 - u6), u6, r.totalAssets - r.equity);
  }

  /** The margin of a row built from a positive revenue is fixed by its
      expense and net-profit draws alone. */
  lemma RowMarginFromDraws(quarter: string, rev: real, u: seq<real>)
    requires rev > 0.0 && |u| == 7
    ensures ProfitMargin(RowFromRevenue(quarter, rev, u)) == 100.0 * (1.0 - u[1]) * u[2]
  {
    MarginFromShares(RowFromRevenue(quarter, rev, u), u[1], u[2]);
  }

  /** The current ratio of a row built from a positive revenue and in-range
      draws is fixed by its current-liabilities draw alone. */
  lemma RowCurrentRatioFromDraws(quarter: string, rev: real, u: seq<real>)
    requires rev > 0.0 && QuarterDrawsInRange(u)
    ensures var r := RowFromRevenue(quarter, rev, u);
      r.currentLiabilities != 0.0 && CurrentRatio(r) == 1.0 / u[5]
  {
    var r := RowFromRevenue(quarter, rev, u);
    RowFromRevenueConsistent(quarter, rev, u);
    ConsistentFacts(r);
    assert Low[5] <= u[5];
    CurrentRatioFromShare(r, u[5]);
  }

  /** The debt-to-equity ratio of a row built from a positive revenue and
      in-range draws is fixed by its total-liabilities draw alone. */
  lemma RowDebtToEquityFromDraws(quarter: string, rev: real, u: seq<real>)
    requires rev > 0.0 && QuarterDrawsInRange(u)
    ensures var r := RowFromRevenue(quarter, rev, u);
      r.equity != 0.0 && DebtToEquity(r) == u[6] / (1.0 - u[6])
  {
    var r := RowFromRevenue(quarter, rev, u);
    RowFromRevenueConsistent(quarter, rev, u);
    ConsistentFacts(r);
    assert u[6] <= High[6];
    assert r.equity == r.totalAssets * (1.0 - u[6]);
    DebtToEquityFromShare(r, u[6]);
  }

  /** On a generated quarter the margin, the current ratio and the
      debt-to-equity ratio depend on its share draws only, not on the base
      revenue, the growth or the season. */
  lemma GeneratedRatiosFromDraws(i: nat, quarter: string, u: seq<real>)
    requires QuarterDrawsInRange(u)
    ensures var r := QuarterRecord(i, quarter, u);
      && ProfitMargin(r) == 100.0 * (1.0 - u[1]) * u[2]
      && CurrentRatio(r) == 1.0 / u[5]
      && DebtToEquity(r) == u[6] / (1.0 - u[6])
  {
    var rev := QuarterRevenue(i, u[0]);
    QuarterRecordConsistent(i, quarter, u);
    RowMarginFromDraws(quarter, rev, u);
    RowCurrentRatioFromDraws(quarter, rev, u);
    RowDebtToEquityFromDraws(quarter, rev, u);
  }

  /** Every division the dashboard performs on a generated series of at
      least one quarter is defined, and every ratio it shows lies in its band. */
  lemma GeneratedSeriesAnalyzable(n: int, draws: seq<real>)
    requires 7 * n <= |draws| && DrawsInRange(draws) && n >= 1
    ensures Analyzable(GeneratedSeries(n, draws))
    ensures var s := GeneratedSeries(n, draws);
      forall i :: 0 <= i < |s| ==>
        && 18.0 <= ProfitMargin(s[i]) <= 30.0
        && 5.14 <= ReturnOnAssets(s[i]) <= 12.0
        && 9.35 <= ReturnOnEquity(s[i]) <= 26.67
        && 5.0 / 3.0 <= CurrentRatio(s[i]) <= 2.5
        && 7.0 / 6.0 <= QuickRatio(s[i]) <= 1.75
        && 9.0 / 11.0 <= DebtToEquity(s[i]) <= 11.0 / 9.0
  {
    var s := GeneratedSeries(n, draws);
    GeneratedSeriesConsistent(n, draws);
    forall i | 0 <= i < |s|
      ensures s[i].revenue != 0.0 && s[i].totalAssets != 0.0 && s[i].equity != 0.0
      ensures s[i].currentLiabilities != 0.0 && s[i].netProfit != 0.0
      ensures 18.0 <= ProfitMargin(s[i]) <= 30.0
      ensures 5.14 <= ReturnOnAssets(s[i]) <= 12.0
      ensures 9.35 <= ReturnOnEquity(s[i]) <= 26.67
      ensures 5.0 / 3.0 <= CurrentRatio(s[i]) <= 2.5
      ensures 7.0 / 6.0 <= QuickRatio(s[i]) <= 1.75
      ensures 9.0 / 11.0 <= DebtToEquity(s[i]) <= 11.0 / 9.0
    {
      ConsistentFacts(s[i]);
      ConsistentRatioBands(s[i]);
    }
  }
}
