/** Quarter labels such as "Q3 2023": the period a row index stands for,
    its rendering as text and the inverse parse. */
module Periods {
  import opened Wrappers

  /** The year of the first generated quarter. */
  const StartYear: int := 2022

  /** A reporting period; well-formed periods have quarter 1..4. */
  datatype Period = Period(quarter: int, year: int)

  predicate WellFormed(p: Period) {
    1 <= p.quarter <= 4 && p.year >= 0
  }

  /** Position of a period in the run of consecutive quarters that starts at Q1 of StartYear. */
  function Index(p: Period): int {
    4 * (p.year - StartYear) + p.quarter - 1
  }

  /** Chronological order: an earlier year, or the same year and an earlier quarter. */
  predicate Before(p: Period, q: Period) {
    p.year < q.year || (p.year == q.year && p.quarter < q.quarter)
  }

  /** The period of row i: quarter (i % 4) + 1 of year StartYear + i / 4. */
  function PeriodOf(i: nat): (p: Period)
    ensures WellFormed(p) && p.year >= StartYear
    ensures Index(p) == i
  {
    Period(i % 4 + 1, StartYear + i / 4)
  }

  /** The year advances exactly when the quarter wraps from 4 back to 1. */
  lemma PeriodOfNext(i: nat)
    ensures PeriodOf(i + 1) ==
      if PeriodOf(i).quarter < 4 then Period(PeriodOf(i).quarter + 1, PeriodOf(i).year)
      else Period(1, PeriodOf(i).year + 1)
  {
    var p, q := PeriodOf(i), PeriodOf(i + 1);
    assert Index(q) == Index(p) + 1;
  }

  /** On well-formed periods, chronological order is the order of their indices. */
  lemma BeforeIsIndexOrder(p: Period, q: Period)
    requires WellFormed(p) && WellFormed(q)
    ensures Before(p, q) <==> Index(p) < Index(q)
  {
  }

  /** Row order and chronological order agree, in both directions. */
  lemma PeriodsChronological(i: nat, j: nat)
    ensures i < j <==> Before(PeriodOf(i), PeriodOf(j))
  {
    BeforeIsIndexOrder(PeriodOf(i), PeriodOf(j));
  }

  predicate IsDigit(c: char) {
    '0' <= c <= '9'
  }

  predicate AllDigits(s: string) {
    forall k :: 0 <= k < |s| ==> IsDigit(s[k])
  }

  function DigitChar(d: nat): (c: char)
    requires d < 10
    ensures IsDigit(c)
  {
    ('0' as int + d) as char
  }

  function DigitValue(c: char): (d: nat)
    requires IsDigit(c)
    ensures d < 10
  {
    c as int - '0' as int
  }

  /** Decimal text of a natural number, as Python's str() writes it:
      at least one digit and no leading zero unless the number is 0. */
  function Decimal(n: nat): (s: string)
    ensures |s| >= 1 && AllDigits(s)
    ensures s[0] == '0' ==> n == 0
    ensures n < 10 <==> |s| == 1
  {
    if n < 10 then [DigitChar(n)] else Decimal(n / 10) + [DigitChar(n % 10)]
  }

  /** Value of a non-empty run of decimal digits. */
  function ParseDecimal(s: string): nat
    requires |s| >= 1 && AllDigits(s)
  {
    if |s| == 1 then DigitValue(s[0])
    else 10 * ParseDecimal(s[..|s| - 1]) + DigitValue(s[|s| - 1])
  }

  lemma {:induction false} ParseDecimalOfDecimal(n: nat)
    ensures ParseDecimal(Decimal(n)) == n
  {
    if n >= 10 {
      var s := Decimal(n);
      assert s[..|s| - 1] == Decimal(n / 10);
      ParseDecimalOfDecimal(n / 10);
    }
  }

  /** The label f"Q{quarter} {year}". */
  function Label(p: Period): string
    requires WellFormed(p)
  {
    "Q" + Decimal(p.quarter) + " " + Decimal(p.year)
  }

  /** Reads a label back: "Q", one quarter digit 1..4, a space, then the year's digits. */
  function ParseLabel(s: string): Option<Period> {
    if |s| >= 4 && s[0] == 'Q' && '1' <= s[1] <= '4' && s[2] == ' ' && AllDigits(s[3..])
    then Some(Period(DigitValue(s[1]), ParseDecimal(s[3..])))
    else None
  }

  lemma LabelRoundTrip(p: Period)
    requires WellFormed(p)
    ensures ParseLabel(Label(p)) == Some(p)
  {
    var s := Label(p);
    assert s[3..] == Decimal(p.year);
    ParseDecimalOfDecimal(p.year);
  }

  /** The label of row i. */
  function QuarterLabel(i: nat): string {
    Label(PeriodOf(i))
  }

  /** The label of row i is "Q", the quarter digit (i % 4) + 1, a space and the
      year StartYear + i / 4; it parses back to the period of row i. */
  lemma QuarterLabelShape(i: nat)
    ensures var s := QuarterLabel(i);
      && |s| >= 4 && s[0] == 'Q' && s[2] == ' '
      && IsDigit(s[1]) && DigitValue(s[1]) == i % 4 + 1
      && s[3..] == Decimal(StartYear + i / 4)
      && ParseLabel(s) == Some(PeriodOf(i))
  {
    LabelRoundTrip(PeriodOf(i));
  }

  /** Order of labels: both parse, and the first period comes before the second. */
  predicate LabelBefore(a: string, b: string) {
    ParseLabel(a).Some? && ParseLabel(b).Some? && Before(ParseLabel(a).value, ParseLabel(b).value)
  }

  /** Labels of different rows differ. */
  lemma QuarterLabelsDistinct(i: nat, j: nat)
    requires i != j
    ensures QuarterLabel(i) != QuarterLabel(j)
  {
    QuarterLabelShape(i);
    QuarterLabelShape(j);
    assert Index(PeriodOf(i)) != Index(PeriodOf(j));
  }

  /** Labels increase strictly with the row index, and only then. */
  lemma QuarterLabelsChronological(i: nat, j: nat)
    ensures i < j <==> LabelBefore(QuarterLabel(i), QuarterLabel(j))
  {
    QuarterLabelShape(i);
    QuarterLabelShape(j);
    PeriodsChronological(i, j);
  }
}
