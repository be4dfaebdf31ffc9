/** The dashboard's ratio formulas and headline figures, read off the
    quarterly table. Divisions carry a non-zero-denominator precondition:
    the dashboard has no guard of its own. */
module Ratios {
  import opened Records

  /** Percent change from `previous` to `latest`. */
  function PercentChange(latest: real, previous: real): (c: real)
    requires previous != 0.0
    ensures c * previous == 100.0 * (latest - previous)
  {
    (latest - previous) / previous * 100.0
  }

  /** Growing `previous` by `pct` percent. */
  function ApplyChange(previous: real, pct: real): real {
    previous * (1.0 + pct / 100.0)
  }

  /** A percent change, applied back to the previous value, gives the latest value. */
  lemma PercentChangeRecovers(latest: real, previous: real)
    requires previous != 0.0
    ensures ApplyChange(previous, PercentChange(latest, previous)) == latest
  {
    var c := PercentChange(latest, previous);
    assert previous * (c / 100.0) == latest - previous;
  }

  /** The percent change of a value grown by pct percent is pct. */
  lemma PercentChangeOfApplied(previous: real, pct: real)
    requires previous != 0.0
    ensures PercentChange(ApplyChange(previous, pct), previous) == pct
  {
    var latest := ApplyChange(previous, pct);
    assert latest - previous == previous * (pct / 100.0);
    var c := PercentChange(latest, previous);
    assert c * previous == pct * previous;
  }

  /** From a positive previous value, the change is positive exactly when the
      value grew and zero exactly when it stayed the same. */
  lemma PercentChangeSign(latest: real, previous: real)
    requires previous > 0.0
    ensures PercentChange(latest, previous) > 0.0 <==> latest > previous
    ensures PercentChange(latest, previous) == 0.0 <==> latest == previous
  {
  }

  /** Net profit as a percentage of revenue. */
  function ProfitMargin(r: FinancialRecord): (m: real)
    requires r.revenue != 0.0
    ensures m * r.revenue == 100.0 * r.netProfit
  {
    r.netProfit / r.revenue * 100.0
  }

  /** Net profit as a percentage of total assets (ROA). */
  function ReturnOnAssets(r: FinancialRecord): (m: real)
    requires r.totalAssets != 0.0
    ensures m * r.totalAssets == 100.0 * r.netProfit
  {
    r.netProfit / r.totalAssets * 100.0
  }

  /** Net profit as a percentage of equity (ROE). */
  function ReturnOnEquity(r: FinancialRecord): (m: real)
    requires r.equity != 0.0
    ensures m * r.equity == 100.0 * r.netProfit
  {
    r.netProfit / r.equity * 100.0
  }

  /** Current assets per unit of current liabilities. */
  function CurrentRatio(r: FinancialRecord): (c: real)
    requires r.currentLiabilities != 0.0
    ensures c * r.currentLiabilities == r.currentAssets
  {
    r.currentAssets / r.currentLiabilities
  }

  /** Current assets less a presumed 30% of inventory, per unit of current
      liabilities: always 0.7 times the current ratio. */
  function QuickRatio(r: FinancialRecord): (q: real)
    requires r.currentLiabilities != 0.0
    ensures q == 0.7 * CurrentRatio(r)
  {
    (r.currentAssets - r.currentAssets * 0.3) / r.currentLiabilities
  }

  /** Total assets per unit of equity, less one: the liabilities implied by
      assets minus equity, per unit of equity. */
  function DebtToEquity(r: FinancialRecord): (d: real)
    requires r.equity != 0.0
    ensures d * r.equity == r.totalAssets - r.equity
  {
    r.totalAssets / r.equity - 1.0
  }

  /** The most recent row: the last one. */
  function Latest(rows: seq<FinancialRecord>): FinancialRecord
    requires |rows| >= 1
  {
    rows[|rows| - 1]
  }

  /** The row the latest is compared with: the one before it, or the latest
      itself when there is only one. */
  function Previous(rows: seq<FinancialRecord>): FinancialRecord
    requires |rows| >= 1
  {
    if |rows| > 1 then rows[|rows| - 2] else Latest(rows)
  }

  /** The four headline figures: latest revenue and its change, latest net
      profit and its change, latest profit margin, latest ROE. */
  datatype Headline = Headline(
    revenue: real,
    revenueChange: real,
    netProfit: real,
    profitChange: real,
    profitMargin: real,
    returnOnEquity: real)

  /** Every division the headline performs has a non-zero denominator. */
  predicate HeadlineDefined(rows: seq<FinancialRecord>) {
    && |rows| >= 1
    && Previous(rows).revenue != 0.0
    && Previous(rows).netProfit != 0.0
    && Latest(rows).revenue != 0.0
    && Latest(rows).equity != 0.0
  }

  function HeadlineMetrics(rows: seq<FinancialRecord>): (h: Headline)
    requires HeadlineDefined(rows)
    ensures h.revenue == rows[|rows| - 1].revenue && h.netProfit == rows[|rows| - 1].netProfit
    ensures |rows| == 1 ==> h.revenueChange == 0.0 && h.profitChange == 0.0
    ensures |rows| >= 2 ==>
      && h.revenueChange * rows[|rows| - 2].revenue == 100.0 * (rows[|rows| - 1].revenue - rows[|rows| - 2].revenue)
      && h.profitChange * rows[|rows| - 2].netProfit == 100.0 * (rows[|rows| - 1].netProfit - rows[|rows| - 2].netProfit)
    ensures h.profitMargin == ProfitMargin(rows[|rows| - 1]) && h.returnOnEquity == ReturnOnEquity(rows[|rows| - 1])
  {
    var latest := Latest(rows);
    var previous := Previous(rows);
    Headline(
      latest.revenue,
      PercentChange(latest.revenue, previous.revenue),
      latest.netProfit,
      PercentChange(latest.netProfit, previous.netProfit),
      latest.netProfit / latest.revenue * 100.0,
      latest.netProfit / latest.equity * 100.0)
  }

  /** A revenue of 100 followed by 110 is a 10% rise. */
  lemma TenPercentRise(a: FinancialRecord, b: FinancialRecord)
    requires a.revenue == 100.0 && b.revenue == 110.0 && a.netProfit != 0.0 && b.equity != 0.0
    ensures HeadlineMetrics([a, b]).revenueChange == 10.0
  {
  }
}
