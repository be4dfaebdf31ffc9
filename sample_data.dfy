/** The dashboard's own sample data: the stored workbook when there is one,
    otherwise twelve quarters generated on the spot by the same formulas as
    the stand-alone generator. */
module SampleData {
  import opened Wrappers
  import opened Records
  import opened Periods
  import opened Generator

  /** Number of quarters in the on-the-spot sample. */
  const SampleQuarterCount: nat := 12

  /** The sample's labels, built directly from the quarter index. */
  function SampleQuarters(): (qs: seq<string>)
    ensures |qs| == SampleQuarterCount
    ensures forall i :: 0 <= i < |qs| ==> qs[i] == QuarterLabel(i)
  {
    seq(12, i requires 0 <= i < 12 => "Q" + Decimal(i % 4 + 1) + " " + Decimal(2022 + i / 4))
  }

  /** The sample's labels are pairwise distinct and in chronological order. */
  lemma SampleQuartersChronological(i: nat, j: nat)
    requires i < SampleQuarterCount && j < SampleQuarterCount
    ensures i != j ==> SampleQuarters()[i] != SampleQuarters()[j]
    ensures i < j <==> LabelBefore(SampleQuarters()[i], SampleQuarters()[j])
  {
    if i != j {
      QuarterLabelsDistinct(i, j);
    }
    QuarterLabelsChronological(i, j);
  }

  /** What reading the stored workbook gives: its table, no file at all,
      or a failure of any other kind. */
  datatype Workbook = Stored(rows: seq<FinancialRecord>) | Missing | Unreadable

  /** Loads the sample: the stored table when the workbook can be read, the
      twelve-quarter series built from the draw stream one quarter at a time
      when there is no workbook, and no table when reading fails otherwise. */
  method LoadSampleData(workbook: Workbook, draws: seq<real>) returns (data: Option<seq<FinancialRecord>>)
    requires 7 * SampleQuarterCount <= |draws|
    ensures workbook.Stored? ==> data == Some(workbook.rows)
    ensures workbook.Missing? ==> data == Some(GeneratedSeries(SampleQuarterCount, draws))
    ensures workbook.Unreadable? <==> data.None?
  {
    if workbook.Stored? {
      return Some(workbook.rows);
    } else if workbook.Unreadable? {
      return None;
    }
    var quarters := SampleQuarters();
    var rows := [];
    var next := 0;
    for i := 0 to |quarters|
      invariant next == 7 * i
      invariant |rows| == i
      invariant forall k :: 0 <= k < i ==> rows[k] == QuarterRow(k, draws)
    {
      var row;
      row, next := NextQuarterRow(i, quarters[i], draws, next);
      ExtendRows(rows, draws, i, quarters[i], row);
      rows := rows + [row];
    }
    SeriesFromRows(SampleQuarterCount, draws, rows);
    data := Some(rows);
  }

  /** The generated sample agrees quarter by quarter with the stand-alone
      generator run for twelve quarters on the same draws. */
  lemma SampleMatchesGenerator(draws: seq<real>, n: int)
    requires 7 * n <= |draws| && n >= SampleQuarterCount
    ensures GeneratedSeries(n, draws)[..SampleQuarterCount] == GeneratedSeries(SampleQuarterCount, draws)
  {
  }
}
