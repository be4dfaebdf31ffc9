/** The synthetic quarterly series generator. The seeded random stream is an
    input: `draws` lists the uniform draws in the order they are taken,
    seven per quarter. */
module Generator {
  import opened Records
  import opened Periods

  /** Ranges of the seven draws of one quarter, in the order they are taken:
      revenue noise, expense share, net share of gross profit, assets per
      revenue, current share of assets, current liabilities per current
      assets, liabilities share of assets. */
  const Low: seq<real> := [0.95, 0.60, 0.60, 2.5, 0.35, 0.40, 0.45]
  const High: seq<real> := [1.05, 0.70, 0.75, 3.5, 0.45, 0.60, 0.55]

  /** The seven draws of one quarter, each within the range of its slot. */
  predicate QuarterDrawsInRange(u: seq<real>) {
    |u| == 7 && forall k :: 0 <= k < 7 ==> Low[k] <= u[k] <= High[k]
  }

  /** The draws of quarter i are positions 7i .. 7i+6 of the stream. */
  function QuarterDraws(draws: seq<real>, i: nat): seq<real>
    requires 7 * (i + 1) <= |draws|
  {
    draws[7 * i .. 7 * i + 7]
  }

  /** Every complete quarter of the stream has its seven draws in range. */
  predicate DrawsInRange(draws: seq<real>) {
    forall i: nat :: i < |draws| && 7 * (i + 1) <= |draws| ==> QuarterDrawsInRange(QuarterDraws(draws, i))
  }

  /** sin(i * pi / 2), exactly: 0, 1, 0, -1 repeating. */
  function SinQuarterTurns(i: nat): real {
    if i % 4 == 1 then 1.0 else if i % 4 == 3 then -1.0 else 0.0
  }

  /** The seasonal factor 1 + 0.1 * sin(i * pi / 2). */
  function SeasonalFactor(i: nat): (f: real)
    ensures 0.9 <= f <= 1.1
  {
    1.0 + 0.1 * SinQuarterTurns(i)
  }

  /** The seasonal factor repeats every four quarters. */
  lemma SeasonalCycle(i: nat)
    ensures SeasonalFactor(i + 4) == SeasonalFactor(i)
  {
    assert (i + 4) % 4 == i % 4;
  }

  /** (1 + 0.05) ** i, the compound growth after i quarters; never below 1. */
  function Growth(i: nat): (g: real)
    ensures g >= 1.0
  {
    if i == 0 then 1.0 else Growth(i - 1) * 1.05
  }

  /** Compound growth is never below simple growth: (1 + r) ** i >= 1 + r * i. */
  lemma {:induction false} GrowthAtLeastSimple(i: nat)
    ensures Growth(i) >= 1.0 + 0.05 * (i as real)
  {
    if i > 0 {
      GrowthAtLeastSimple(i - 1);
    }
  }

  /** Revenue of quarter i before rounding: the base revenue grown for i
      quarters, times the seasonal factor, times the noise draw. */
  function QuarterRevenue(i: nat, noise: real): real {
    1000000.0 * Growth(i) * SeasonalFactor(i) * noise
  }

  /** The columns of a row that follow from its revenue and the six remaining draws
      u[1..7]; total liabilities u[6] * assets are subtracted from assets, not stored. */
  function RowFromRevenue(quarter: string, revenue: real, u: seq<real>): FinancialRecord
    requires |u| == 7
  {
    var operatingExpenses := revenue * u[1];
    var grossProfit := revenue - operatingExpenses;
    var netProfit := grossProfit * u[2];
    var totalAssets := revenue * u[3];
    var currentAssets := totalAssets * u[4];
    var currentLiabilities := currentAssets * u[5];
    var totalLiabilities := totalAssets * u[6];
    FinancialRecord(quarter, revenue, operatingExpenses, netProfit, totalAssets,
                    currentAssets, currentLiabilities, totalAssets - totalLiabilities)
  }

  /** The row of quarter i with label `quarter`, before rounding, from its seven draws u. */
  function QuarterRecord(i: nat, quarter: string, u: seq<real>): FinancialRecord
    requires |u| == 7
  {
    RowFromRevenue(quarter, QuarterRevenue(i, u[0]), u)
  }

  /** Row i of a generated series: labelled by its index, built from its own seven draws. */
  function QuarterRow(i: nat, draws: seq<real>): FinancialRecord
    requires 7 * (i + 1) <= |draws|
  {
    QuarterRecord(i, QuarterLabel(i), QuarterDraws(draws, i))
  }

  /** The series the generator returns for `n` quarters: row i is the row of
      quarter i; there are no rows when n <= 0. */
  function GeneratedSeries(n: int, draws: seq<real>): (s: seq<FinancialRecord>)
    requires 7 * n <= |draws|
    ensures |s| == if n <= 0 then 0 else n
  {
    if n <= 0 then [] else seq(n, i requires 0 <= i < n => QuarterRow(i, draws))
  }

  /** The internal consistency of one row (before rounding): every column
      within the band of the column it is derived from. */
  predicate Consistent(r: FinancialRecord) {
    && r.revenue > 0.0
    && 0.60 * r.revenue <= r.operatingExpenses <= 0.70 * r.revenue
    && 0.60 * (r.revenue - r.operatingExpenses) <= r.netProfit <= 0.75 * (r.revenue - r.operatingExpenses)
    && 2.5 * r.revenue <= r.totalAssets <= 3.5 * r.revenue
    && 0.35 * r.totalAssets <= r.currentAssets <= 0.45 * r.totalAssets
    && 0.40 * r.currentAssets <= r.currentLiabilities <= 0.60 * r.currentAssets
    && 0.45 * r.totalAssets <= r.equity <= 0.55 * r.totalAssets
  }

  /** What consistency gives downstream: positive gross profit, net profit and
      equity, current assets below total assets, current liabilities below
      current assets and above zero, and current liabilities below total
      liabilities (total assets minus equity). */
  lemma ConsistentFacts(r: FinancialRecord)
    requires Consistent(r)
    ensures r.revenue - r.operatingExpenses >= 0.30 * r.revenue > 0.0
    ensures r.netProfit > 0.0
    ensures 0.0 < r.currentLiabilities < r.currentAssets < r.totalAssets
    ensures r.equity > 0.0
    ensures r.currentLiabilities < r.totalAssets - r.equity
  {
  }

  /** y is the share u of a positive x, with u between lo and hi. */
  lemma Share(x: real, lo: real, hi: real, u: real, y: real)
    requires x > 0.0 && lo <= u <= hi && y == x * u
    ensures lo * x <= y <= hi * x
  {
  }

  /** A positive trend times a seasonal factor in [0.9, 1.1] times a noise
      draw in [0.95, 1.05] stays within [0.855, 1.155] of the trend. */
  lemma SeasonalNoiseBand(g: real, f: real, noise: real, r: real)
    requires g > 0.0 && 0.9 <= f <= 1.1 && 0.95 <= noise <= 1.05
    requires r == g * f * noise
    ensures 0.855 * g <= r <= 1.155 * g
  {
    Share(g, 0.9, 1.1, f, g * f);
    Share(g * f, 0.95, 1.05, noise, r);
  }

  /** Revenue lies within [0.9 * 0.95, 1.1 * 1.05] of the base revenue grown for i quarters. */
  lemma RevenueBand(i: nat, noise: real)
    requires Low[0] <= noise <= High[0]
    ensures 0.855 * (1000000.0 * Growth(i)) <= QuarterRevenue(i, noise) <= 1.155 * (1000000.0 * Growth(i))
  {
    SeasonalNoiseBand(1000000.0 * Growth(i), SeasonalFactor(i), noise, QuarterRevenue(i, noise));
  }

  /** Equity is assets minus the liabilities drawn as a share u[6] of assets. */
  lemma QuarterEquity(i: nat, quarter: string, u: seq<real>)
    requires |u| == 7
    ensures var r := QuarterRecord(i, quarter, u);
      r.equity == r.totalAssets * (1.0 - u[6])
  {
  }

  /** The chain of shares: a row whose columns are each a share, within its
      draw range, of the column it is taken from is consistent. */
  lemma ShareChainConsistent(r: FinancialRecord, u: seq<real>)
    requires r.revenue > 0.0 && QuarterDrawsInRange(u)
    requires r.operatingExpenses == r.revenue * u[1]
    requires r.netProfit == (r.revenue - r.operatingExpenses) * u[2]
    requires r.totalAssets == r.revenue * u[3]
    requires r.currentAssets == r.totalAssets * u[4]
    requires r.currentLiabilities == r.currentAssets * u[5]
    requires r.equity == r.totalAssets - r.totalAssets * u[6]
    ensures Consistent(r)
  {
    assert Low[1] <= u[1] <= High[1] && Low[2] <= u[2] <= High[2] && Low[3] <= u[3] <= High[3];
    assert Low[4] <= u[4] <= High[4] && Low[5] <= u[5] <= High[5] && Low[6] <= u[6] <= High[6];
    Share(r.revenue, 0.60, 0.70, u[1], r.operatingExpenses);
    Share(r.revenue - r.operatingExpenses, 0.60, 0.75, u[2], r.netProfit);
    Share(r.revenue, 2.5, 3.5, u[3], r.totalAssets);
    Share(r.totalAssets, 0.35, 0.45, u[4], r.currentAssets);
    Share(r.currentAssets, 0.40, 0.60, u[5], r.currentLiabilities);
    Share(r.totalAssets, 0.45, 0.55, u[6], r.totalAssets - r.equity);
  }

  /** A row whose revenue is positive and whose other draws are in range is consistent. */
  lemma RowFromRevenueConsistent(quarter: string, rev: real, u: seq<real>)
    requires rev > 0.0 && QuarterDrawsInRange(u)
    ensures Consistent(RowFromRevenue(quarter, rev, u))
  {
    ShareChainConsistent(RowFromRevenue(quarter, rev, u), u);
  }

  /** Every row built from in-range draws is consistent. */
  lemma QuarterRecordConsistent(i: nat, quarter: string, u: seq<real>)
    requires QuarterDrawsInRange(u)
    ensures Consistent(QuarterRecord(i, quarter, u))
  {
    assert Low[0] <= u[0] <= High[0];
    RevenueBand(i, u[0]);
    RowFromRevenueConsistent(quarter, QuarterRevenue(i, u[0]), u);
  }

  /** Every row of a generated series is consistent. */
  lemma GeneratedSeriesConsistent(n: int, draws: seq<real>)
    requires 7 * n <= |draws| && DrawsInRange(draws)
    ensures forall i :: 0 <= i < |GeneratedSeries(n, draws)| ==> Consistent(GeneratedSeries(n, draws)[i])
  {
    var s := GeneratedSeries(n, draws);
    forall i | 0 <= i < |s|
      ensures Consistent(s[i])
    {
      QuarterRecordConsistent(i, QuarterLabel(i), QuarterDraws(draws, i));
    }
  }

  /** Rows carry the labels of their index: pairwise distinct, and in
      chronological order exactly when in row order. */
  lemma GeneratedSeriesLabels(n: int, draws: seq<real>, i: nat, j: nat)
    requires 7 * n <= |draws|
    requires i < |GeneratedSeries(n, draws)| && j < |GeneratedSeries(n, draws)|
    ensures var s := GeneratedSeries(n, draws);
      && (i != j ==> s[i].quarter != s[j].quarter)
      && (i < j <==> LabelBefore(s[i].quarter, s[j].quarter))
  {
    if i != j {
      QuarterLabelsDistinct(i, j);
    }
    QuarterLabelsChronological(i, j);
  }

  /** Row i depends on draws 7i .. 7i+6 only: two streams that agree there
      give the same row i, whatever else they hold and however many quarters
      are asked for. */
  lemma RowDependsOnItsDraws(n: int, m: int, draws: seq<real>, other: seq<real>, i: nat)
    requires 7 * n <= |draws| && 7 * m <= |other|
    requires i < n && i < m
    requires draws[7 * i .. 7 * i + 7] == other[7 * i .. 7 * i + 7]
    ensures GeneratedSeries(n, draws)[i] == GeneratedSeries(m, other)[i]
  {
  }

  /** One pass of the generator's second loop: the row of quarter i, built from
      the next seven draws of the stream, taken one at a time from position `next`. */
  method NextQuarterRow(i: nat, quarter: string, draws: seq<real>, next: nat) returns (row: FinancialRecord, after: nat)
    requires next + 7 <= |draws|
    ensures after == next + 7
    ensures row == QuarterRecord(i, quarter, draws[next .. after])
  {
    after := next;
    var seasonalFactor := 1.0 + 0.1 * SinQuarterTurns(i);
    var noise := draws[after];
    after := after + 1;
    var revenue := 1000000.0 * Growth(i) * seasonalFactor * noise;
    var expenseShare := draws[after];
    after := after + 1;
    var operatingExpenses := revenue * expenseShare;
    var grossProfit := revenue - operatingExpenses;
    var netShare := draws[after];
    after := after + 1;
    var netProfit := grossProfit * netShare;
    var assetsPerRevenue := draws[after];
    after := after + 1;
    var totalAssets := revenue * assetsPerRevenue;
    var currentShare := draws[after];
    after := after + 1;
    var currentAssets := totalAssets * currentShare;
    var liquidityShare := draws[after];
    after := after + 1;
    var currentLiabilities := currentAssets * liquidityShare;
    var liabilityShare := draws[after];
    after := after + 1;
    var totalLiabilities := totalAssets * liabilityShare;
    var equity := totalAssets - totalLiabilities;
    row := FinancialRecord(quarter, revenue, operatingExpenses, netProfit, totalAssets,
                           currentAssets, currentLiabilities, equity);
    ghost var u := draws[next .. after];
    assert u[0] == noise && u[1] == expenseShare && u[2] == netShare && u[3] == assetsPerRevenue;
    assert u[4] == currentShare && u[5] == liquidityShare && u[6] == liabilityShare;
    assert seasonalFactor == SeasonalFactor(i);
  }

  /** The generator's first loop: one label per quarter, appended in order. */
  method BuildQuarterLabels(numQuarters: int) returns (quarters: seq<string>)
    ensures |quarters| == if numQuarters <= 0 then 0 else numQuarters
    ensures forall k :: 0 <= k < |quarters| ==> quarters[k] == QuarterLabel(k)
  {
    quarters := [];
    var i := 0;
    while i < numQuarters
      invariant 0 <= i && (numQuarters >= 0 ==> i <= numQuarters)
      invariant numQuarters < 0 ==> i == 0
      invariant |quarters| == i
      invariant forall k :: 0 <= k < i ==> quarters[k] == QuarterLabel(k)
    {
      var year := StartYear + i / 4;
      var quarter := i % 4 + 1;
      assert Period(quarter, year) == PeriodOf(i);
      quarters := quarters + [Label(Period(quarter, year))];
      i := i + 1;
    }
  }

  /** Appending the row built for quarter i from the seven draws starting
      at 7i to the first i rows of the series gives its first i + 1 rows. */
  lemma ExtendRows(data: seq<FinancialRecord>, draws: seq<real>, i: nat, quarter: string, row: FinancialRecord)
    requires 7 * (i + 1) <= |draws| && quarter == QuarterLabel(i)
    requires |data| == i && forall k :: 0 <= k < i ==> data[k] == QuarterRow(k, draws)
    requires row == QuarterRecord(i, quarter, draws[7 * i .. 7 * i + 7])
    ensures forall k :: 0 <= k < i + 1 ==> (data + [row])[k] == QuarterRow(k, draws)
  {
    assert row == QuarterRow(i, draws);
  }

  /** A sequence holding row k of the series at every index k is the series. */
  lemma SeriesFromRows(n: int, draws: seq<real>, data: seq<FinancialRecord>)
    requires 7 * n <= |draws|
    requires |data| == if n <= 0 then 0 else n
    requires forall k :: 0 <= k < |data| ==> data[k] == QuarterRow(k, draws)
    ensures data == GeneratedSeries(n, draws)
  {
  }

  /** The generator: the labels first, then one row per label, each taking
      the next seven draws from the stream. */
  method GenerateFinancialData(numQuarters: int, draws: seq<real>) returns (data: seq<FinancialRecord>, used: nat)
    requires 7 * numQuarters <= |draws|
    ensures data == GeneratedSeries(numQuarters, draws)
    ensures used == 7 * |data|
  {
    var quarters := BuildQuarterLabels(numQuarters);
    data := [];
    var next := 0;  // position of the next draw in the stream
    var i := 0;
    while i < |quarters|
      invariant 0 <= i <= |quarters|
      invariant next == 7 * i
      invariant |data| == i
      invariant forall k :: 0 <= k < i ==> data[k] == QuarterRow(k, draws)
    {
      var row;
      row, next := NextQuarterRow(i, quarters[i], draws, next);
      ExtendRows(data, draws, i, quarters[i], row);
      data := data + [row];
      i := i + 1;
    }
    SeriesFromRows(numQuarters, draws, data);
    used := next;
  }
}
