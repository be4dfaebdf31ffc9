# Financial analysis dashboard — a Dafny model

This project models the computational core of a small quarterly financial analysis dashboard. The core has two parts.

**The synthetic data generator.** It produces a series of quarters labelled "Q1 2022", "Q2 2022", and so on. Each quarter gets eight columns:
- its Quarter label;
- revenue, which follows a 5%-per-quarter compound growth trend, a ±10% seasonal swing and ±5% noise;
- operating expenses, net profit, total assets, current assets, current liabilities and equity, each a random share of the column it is derived from.

**The dashboard's arithmetic.** It covers:
- the latest and previous quarter, and the percent changes between them;
- the headline profit margin and ROE;
- the derived ratio columns the dashboard adds to its table (profit margin, ROA, ROE, current ratio, quick ratio);
- the ratio summary table with the debt-to-equity ratio;
- the dashboard's own fallback generator, which builds twelve quarters when no stored workbook exists.

The modules are:
- `Wrappers`: the optional value used for a label parse that may fail and a table that may be absent.
- `Records`: one row of the quarterly table. Total liabilities are not a column: before rounding they are total assets minus equity.
- `Periods`: quarter labels. This covers the period of a row index, its decimal rendering, and the parse back, which proves that labels are distinct and chronological.
- `Generator`: the generator's two loops as methods. `BuildQuarterLabels` is proved to give label k as `QuarterLabel(k)`; `GenerateFinancialData` is proved to return the specification function `GeneratedSeries`. The random stream is an input sequence of draws, seven per quarter, in the order they are taken. The lemmas prove that every row built from in-range draws is internally consistent (each column within the band of the column it comes from).
- `Ratios`: the percent-change formula and its inverse, the six ratio formulas, and the headline figures.
- `Analysis`: the loaded table as a class, `Frame`, whose derived columns are added in place. It also has the ratio summary and one pass of the dashboard (`Analyze`).
- `SampleData`: the dashboard's own sample loader. It uses the stored workbook, or the on-the-spot generator, or gives no table.
- `GeneratedRatios`: what the dashboard computes on generated data. Every division is defined, every ratio lies in a fixed band, and three of the ratios depend only on the share draws.

## Model

| member | source | states |
|---|---|---|
| Periods.PeriodOf | generate_data.py:15-16 | row i is a well-formed quarter from 2022 on, and its position in the run of quarters is exactly i |
| Periods.PeriodOfNext | generate_data.py:15-16 | the next row advances the quarter, or wraps to Q1 of the next year after Q4 |
| Periods.BeforeIsIndexOrder | generate_data.py:15-16 | on well-formed periods, chronological order is the order of positions |
| Periods.PeriodsChronological | generate_data.py:14-16 | row order and chronological order agree, in both directions |
| Periods.Decimal | generate_data.py:17 | the rendering of a number is a non-empty digit string, one digit exactly below 10, with no leading zero |
| Periods.ParseDecimalOfDecimal | generate_data.py:17 | parsing a rendered number gives the number back |
| Periods.LabelRoundTrip | generate_data.py:17 | parsing the label "Q{quarter} {year}" of a period gives the period back |
| Periods.QuarterLabelShape | generate_data.py:15-17 | the label of row i is "Q", the digit (i % 4) + 1, a space and the year 2022 + i / 4, and it parses back to row i's period |
| Periods.QuarterLabelsDistinct | generate_data.py:14-17 | labels of different rows differ |
| Periods.QuarterLabelsChronological | generate_data.py:14-17 | label i comes before label j exactly when i < j |
| Generator.SeasonalFactor | generate_data.py:27 | the seasonal factor lies in [0.9, 1.1] |
| Generator.SeasonalCycle | generate_data.py:27 | the seasonal factor repeats every four quarters |
| Generator.Growth | generate_data.py:28 | compound growth (1 + 0.05) ** i is never below 1 |
| Generator.GrowthAtLeastSimple | generate_data.py:28 | compound growth is at least simple growth 1 + 0.05 i |
| Generator.GeneratedSeries | generate_data.py:23-60 | the series has num_quarters rows, or none when num_quarters <= 0 |
| Generator.ConsistentFacts | generate_data.py:30-46 | a consistent row has positive gross profit (at least 30% of revenue), positive net profit and equity, and 0 < current liabilities < current assets < total assets; current liabilities are below total liabilities, which are total assets minus equity |
| Generator.SeasonalNoiseBand | generate_data.py:27-28 | trend times season times noise stays within [0.855, 1.155] of the trend |
| Generator.RevenueBand | generate_data.py:27-28 | revenue lies within [0.855, 1.155] of the base revenue grown for i quarters |
| Generator.QuarterEquity | generate_data.py:43-46 | equity is total assets times one minus the liabilities draw |
| Generator.ShareChainConsistent | generate_data.py:30-46 | a row whose columns are in-range shares of the columns they derive from is consistent |
| Generator.RowFromRevenueConsistent | generate_data.py:30-46 | a row built from a positive revenue and in-range draws is consistent |
| Generator.QuarterRecordConsistent | generate_data.py:26-46 | every quarter built from in-range draws is consistent |
| Generator.GeneratedSeriesConsistent | generate_data.py:25-57 | every row of a generated series is consistent |
| Generator.GeneratedSeriesLabels | generate_data.py:14-49 | generated rows carry pairwise distinct labels that are chronological exactly in row order |
| Generator.RowDependsOnItsDraws | generate_data.py:25-43 | row i depends only on its own seven draws, positions 7i to 7i+6 of the stream, whatever the length of the series |
| Generator.NextQuarterRow | generate_data.py:26-57 | one pass of the second loop takes exactly the next seven draws, in the order noise, expense share, net share, assets, current assets, current liabilities, liabilities, and builds that quarter's row from them |
| Generator.BuildQuarterLabels | generate_data.py:12-17 | the first loop yields one label per quarter, label k being row k's |
| Generator.GenerateFinancialData | generate_data.py:5-60 | the generator returns the generated series, row i built from draws 7i to 7i+6, and uses seven draws per row |
| Ratios.PercentChange | app.py:93 | the change times the previous value is 100 times the difference |
| Ratios.PercentChangeRecovers | app.py:93 | applying the percent change to the previous value gives the latest |
| Ratios.PercentChangeOfApplied | app.py:101 | the percent change of a value grown by p percent is p |
| Ratios.PercentChangeSign | app.py:93-97 | from a positive previous value, the change is positive exactly on growth and zero exactly on no change |
| Ratios.ProfitMargin | app.py:139 | margin times revenue is 100 times net profit |
| Ratios.ReturnOnAssets | app.py:140 | ROA times total assets is 100 times net profit |
| Ratios.ReturnOnEquity | app.py:141 | ROE times equity is 100 times net profit |
| Ratios.CurrentRatio | app.py:159 | current ratio times current liabilities is current assets |
| Ratios.QuickRatio | app.py:160 | the quick ratio is always 0.7 times the current ratio |
| Ratios.DebtToEquity | app.py:183 | debt to equity times equity is assets minus equity, the implied liabilities |
| Ratios.HeadlineMetrics | app.py:89-118 | the headline shows the last row's revenue and net profit; the changes are 0 for a single row, otherwise percent changes against the row before; margin and ROE are the last row's |
| Ratios.TenPercentRise | app.py:93 | revenue 100 then 110 is shown as a 10% rise |
| Analysis.HeadersDistinct | app.py:139-160 | the five derived columns are stored under five different headers |
| Analysis.Frame.constructor | app.py:74-83 | a loaded table holds its rows and no derived columns |
| Analysis.Frame.AddProfitabilityColumns | app.py:139-141 | adds the margin, ROA and ROE columns, each the formula on every row; other columns unchanged |
| Analysis.Frame.AddLiquidityColumns | app.py:159-160 | adds the current and quick ratio columns, each the formula on every row; other columns unchanged |
| Analysis.Frame.RatioSummary | app.py:177-184 | one summary row per table row, in order, with the quarter label and that row's margin, ROA, ROE, current ratio and debt to equity |
| Analysis.Analyze | app.py:85-184 | one dashboard pass yields the headline figures and a summary whose every row holds that table row's ratios |
| SampleData.SampleQuarters | app.py:41 | the twelve sample labels are the generator's labels of rows 0 to 11 |
| SampleData.SampleQuartersChronological | app.py:41 | the sample labels are distinct and chronological exactly in row order |
| SampleData.LoadSampleData | app.py:33-72 | a stored workbook's table is used as is; without a workbook the twelve-quarter generated series is built; any other read failure gives no table |
| SampleData.SampleMatchesGenerator | app.py:46-57 | the first twelve rows of any longer generated series are the sample series |
| GeneratedRatios.ConsistentNetBand | generate_data.py:31-35 | net profit lies between 18% and 30% of revenue |
| GeneratedRatios.ConsistentRatioBands | app.py:139-183 | on a consistent row every ratio is defined: margin in [18, 30], ROA in [5.14, 12], ROE in [9.35, 26.67], current ratio in [5/3, 2.5], quick ratio in [7/6, 1.75], debt to equity in [9/11, 11/9] |
| GeneratedRatios.MarginFromShares | app.py:139 | the margin of a row is 100 (1 - u1) u2 when expenses and net profit are shares u1 and u2 |
| GeneratedRatios.CurrentRatioFromShare | app.py:159 | the current ratio is 1 / u5 when current liabilities are the share u5 of current assets |
| GeneratedRatios.DebtToEquityFromShare | app.py:183 | debt to equity is u6 / (1 - u6) when equity is the share 1 - u6 of assets |
| GeneratedRatios.RowMarginFromDraws | generate_data.py:31-35 | the margin of a generated row depends only on its expense and net-profit draws |
| GeneratedRatios.RowCurrentRatioFromDraws | generate_data.py:39-42 | the current ratio of a generated row depends only on its current-liabilities draw |
| GeneratedRatios.RowDebtToEquityFromDraws | generate_data.py:43-46 | debt to equity of a generated row depends only on its liabilities draw |
| GeneratedRatios.GeneratedRatiosFromDraws | generate_data.py:26-46 | a generated quarter's margin, current ratio and debt to equity are independent of base revenue, growth and season |
| GeneratedRatios.GeneratedSeriesAnalyzable | app.py:89-183 | on a generated series of at least one quarter, every division the dashboard performs is defined, and margin, ROA, ROE, current ratio, quick ratio and debt to equity of every row lie in their bands |

## Left out

- The Streamlit page, sidebar, tabs, metric widgets and Plotly charts (app.py outside the lines above): presentation only.
- The CSV export of the ratio summary (app.py:194-200) and its download name `financial_analysis_YYYYMMDD.csv`, taken from the current date: file output and the clock.
- The numpy random generator and its seed 42: the draws are an input sequence, and `DrawsInRange` states the ranges `np.random.uniform` guarantees.
- `round(x, 2)` on the stored columns: rows are the values before rounding. Consistency bands and ratio bands hold for these values. After rounding to cents they hold only up to that rounding.
- Floating point: all quantities are exact reals. `np.sin(i * pi / 2)` is the exact cycle 0, 1, 0, -1, whereas floating point gives values near zero in place of 0. `(1 + 0.05) ** i` is exact compound growth.
- Division by zero: pandas yields inf or NaN in the table. The model instead requires non-zero denominators (`HeadlineDefined`, `Derivable`, `Analyzable`). `GeneratedSeriesAnalyzable` shows that generated data always meets this.
- Analysis.Frame: the table's other columns (Revenue, Net_Profit, …) are the immutable `rows`. Only the derived columns are modelled as state, keyed by a datatype that `Header` maps to the column names.
- Reading Excel or CSV uploads, writing `financial_data.xlsx` and the `__main__` report of generate_data.py: file I/O. An uploaded table reaches `Analyze` as its input rows.
- The `st.cache_data` caching of the sample loader: `LoadSampleData` describes one uncached call. The cached loader takes no arguments, so after its first call it keeps returning that first result: a workbook written or removed later is not seen, and a failed read (no table) is cached too.
- The display formatting of the ratio summary (two decimals) and of the metrics (`:+.1f`, `:,.0f`): presentation only.
- An empty table: app.py:89 (`df.iloc[-1]`) raises an IndexError on an uploaded or stored table with no rows. `HeadlineDefined`, and so `Analyzable` and `Analyze`, require at least one row and do not model that failure.
- The default `num_quarters=12` of `generate_financial_data`: `GenerateFinancialData` always takes the number of quarters as an argument; the sample loader's twelve quarters are `SampleQuarterCount`.
- The headline shows no error or "undefined" marker when a denominator is zero. The model follows the code, which divides unguarded, and therefore has no such error case.
