/** The dashboard's table after loading: derived ratio columns are added to
    it in place, then a ratio summary is read off it. */
module Analysis {
  import opened Records
  import opened Ratios

  /** The derived columns the dashboard adds to the table. */
  datatype DerivedColumn = MarginColumn | RoaColumn | RoeColumn | CurrentRatioColumn | QuickRatioColumn

  /** The column header each derived column is stored under. */
  function Header(c: DerivedColumn): string {
    match c
    case MarginColumn => "Profit_Margin"
    case RoaColumn => "ROA"
    case RoeColumn => "ROE"
    case CurrentRatioColumn => "Current_Ratio"
    case QuickRatioColumn => "Quick_Ratio"
  }

  /** Distinct derived columns are stored under distinct headers, so adding
      one never overwrites another. */
  lemma HeadersDistinct(c: DerivedColumn, d: DerivedColumn)
    ensures Header(c) == Header(d) <==> c == d
  {
  }

  /** The column a derived column's formula divides by. */
  function Denominator(c: DerivedColumn, r: FinancialRecord): real {
    match c
    case MarginColumn => r.revenue
    case RoaColumn => r.totalAssets
    case RoeColumn => r.equity
    case CurrentRatioColumn => r.currentLiabilities
    case QuickRatioColumn => r.currentLiabilities
  }

  /** The value of a derived column on one row. */
  function Formula(c: DerivedColumn, r: FinancialRecord): real
    requires Denominator(c, r) != 0.0
  {
    match c
    case MarginColumn => ProfitMargin(r)
    case RoaColumn => ReturnOnAssets(r)
    case RoeColumn => ReturnOnEquity(r)
    case CurrentRatioColumn => CurrentRatio(r)
    case QuickRatioColumn => QuickRatio(r)
  }

  /** No row of the table has a zero denominator for column c. */
  predicate Derivable(c: DerivedColumn, rows: seq<FinancialRecord>) {
    forall i :: 0 <= i < |rows| ==> Denominator(c, rows[i]) != 0.0
  }

  /** Column c computed over the whole table, row by row. */
  function ColumnValues(c: DerivedColumn, rows: seq<FinancialRecord>): (v: seq<real>)
    requires Derivable(c, rows)
  {
    seq(|rows|, i requires 0 <= i < |rows| => Formula(c, rows[i]))
  }

  /** One row of the ratio summary, columns Quarter, Profit Margin (%),
      ROA (%), ROE (%), Current Ratio and Debt to Equity. */
  datatype RatioRow = RatioRow(
    quarter: string,
    profitMargin: real,
    returnOnAssets: real,
    returnOnEquity: real,
    currentRatio: real,
    debtToEquity: real)

  /** The loaded table: its eight source columns never change; derived
      columns are added under their headers. */
  class Frame {
    const rows: seq<FinancialRecord>
    var derived: map<DerivedColumn, seq<real>>

    /** Every derived column present holds its formula on every row. */
    ghost predicate Valid()
      reads this
    {
      forall c :: c in derived ==> Derivable(c, rows) && derived[c] == ColumnValues(c, rows)
    }

    constructor (rows: seq<FinancialRecord>)
      ensures this.rows == rows && derived == map[] && Valid()
    {
      this.rows := rows;
      derived := map[];
    }

    /** Adds the profit margin, ROA and ROE columns. */
    method AddProfitabilityColumns()
      requires Valid()
      requires Derivable(MarginColumn, rows) && Derivable(RoaColumn, rows) && Derivable(RoeColumn, rows)
      modifies this
      ensures Valid()
      ensures derived == old(derived)[MarginColumn := ColumnValues(MarginColumn, rows)]
                                     [RoaColumn := ColumnValues(RoaColumn, rows)]
                                     [RoeColumn := ColumnValues(RoeColumn, rows)]
    {
      derived := derived[MarginColumn := ColumnValues(MarginColumn, rows)];
      derived := derived[RoaColumn := ColumnValues(RoaColumn, rows)];
      derived := derived[RoeColumn := ColumnValues(RoeColumn, rows)];
    }

    /** Adds the current ratio and quick ratio columns. */
    method AddLiquidityColumns()
      requires Valid()
      requires Derivable(CurrentRatioColumn, rows)
      modifies this
      ensures Valid()
      ensures derived == old(derived)[CurrentRatioColumn := ColumnValues(CurrentRatioColumn, rows)]
                                     [QuickRatioColumn := ColumnValues(QuickRatioColumn, rows)]
    {
      derived := derived[CurrentRatioColumn := ColumnValues(CurrentRatioColumn, rows)];
      derived := derived[QuickRatioColumn := ColumnValues(QuickRatioColumn, rows)];
    }

    /** The ratio summary: one row per table row, in table order, the
      quarter label passed through and each ratio that row's formula. */
    function RatioSummary(): (table: seq<RatioRow>)
      reads this
      requires Valid()
      requires MarginColumn in derived && RoaColumn in derived && RoeColumn in derived
      requires CurrentRatioColumn in derived
      requires forall i :: 0 <= i < |rows| ==> rows[i].equity != 0.0
      ensures |table| == |rows|
      ensures forall i :: 0 <= i < |rows| ==>
        table[i] == RatioRow(rows[i].quarter, ProfitMargin(rows[i]), ReturnOnAssets(rows[i]),
                             ReturnOnEquity(rows[i]), CurrentRatio(rows[i]), DebtToEquity(rows[i]))
    {
      var margin, roa, roe, current := derived[MarginColumn], derived[RoaColumn], derived[RoeColumn],
                                       derived[CurrentRatioColumn];
      seq(|rows|, i requires 0 <= i < |rows| =>
        RatioRow(rows[i].quarter, margin[i], roa[i], roe[i], current[i],
                 rows[i].totalAssets / rows[i].equity - 1.0))
    }
  }

  /** Every division the dashboard performs on the table is defined: a
      non-empty table whose rows have non-zero revenue, total assets, equity
      and current liabilities, and whose comparison row has non-zero net profit. */
  predicate Analyzable(rows: seq<FinancialRecord>) {
    && HeadlineDefined(rows)
    && forall i :: 0 <= i < |rows| ==>
         rows[i].revenue != 0.0 && rows[i].totalAssets != 0.0 && rows[i].equity != 0.0
         && rows[i].currentLiabilities != 0.0
  }

  /** One pass of the dashboard over a loaded table: the headline figures,
      then the profitability and liquidity columns added to the table, then
      the ratio summary read off it. */
  method Analyze(rows: seq<FinancialRecord>) returns (headline: Headline, summary: seq<RatioRow>)
    requires Analyzable(rows)
    ensures headline == HeadlineMetrics(rows)
    ensures |summary| == |rows|
    ensures forall i :: 0 <= i < |rows| ==>
      && summary[i].quarter == rows[i].quarter
      && summary[i].profitMargin == ProfitMargin(rows[i])
      && summary[i].returnOnAssets == ReturnOnAssets(rows[i])
      && summary[i].returnOnEquity == ReturnOnEquity(rows[i])
      && summary[i].currentRatio == CurrentRatio(rows[i])
      && summary[i].debtToEquity == DebtToEquity(rows[i])
  {
    headline := HeadlineMetrics(rows);
    var frame := new Frame(rows);
    frame.AddProfitabilityColumns();
    frame.AddLiquidityColumns();
    summary := frame.RatioSummary();
  }
}
