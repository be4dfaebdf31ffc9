/** The quarterly table that the generator writes and the dashboard reads. */
module Records {

  /** One row of the table: a period label and the seven monetary columns
      Revenue, Operating_Expenses, Net_Profit, Total_Assets, Current_Assets,
      Current_Liabilities and Equity. Total liabilities are not a column. */
  datatype FinancialRecord = FinancialRecord(
    quarter: string,
    revenue: real,
    operatingExpenses: real,
    netProfit: real,
    totalAssets: real,
    currentAssets: real,
    currentLiabilities: real,
    equity: real)
}
