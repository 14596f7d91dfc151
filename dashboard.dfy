/**
  The data behind one rendering of the dashboard: the selected rows
  (`main_df`), the three metrics and the tables of the five grouped charts and
  of the working-day chart.
 */
module Dashboard {
  import opened Wrappers
  import opened Recode
  import opened Frame
  import opened Selection
  import opened Metrics
  import opened GroupBy

  datatype View = View(
    metrics: DailyMetrics,
    byWeekday: seq<Group>,
    byWorkingday: seq<Group>,
    byHoliday: seq<Group>,
    byMonthYear: seq<Group>,
    bySeasonYear: seq<Group>,
    workingRegistered: seq<Record>)

  /** Every grouping keys this row: none of its key cells is missing. */
  predicate FullyKeyed(r: Record)
  {
    forall g :: Keyed(r, g)
  }

  /** No row of `main_df` for [start, end] has a missing label. */
  predicate SelectionKeyed(rows: seq<Record>, start: int, end: int)
  {
    forall r :: r in rows && start <= r.dateday <= end ==> FullyKeyed(r)
  }

  /**
    Everything the dashboard shows for the range [start, end]: the tiles and
    the five group tables of `main_df`, and its working-day subset. The flag
    charts always add up to the total tile; the weekday, month and season
    charts do when no selected row has a missing label. An inverted range
    shows zeros and empty charts.
   */
  function BuildView(rows: seq<Record>, start: int, end: int): (v: View)
    ensures v.metrics == Daily(DateFilter(rows, start, end))
    ensures v.byWeekday == GroupSum(DateFilter(rows, start, end), ByWeekday)
    ensures v.byWorkingday == GroupSum(DateFilter(rows, start, end), ByWorkingday)
    ensures v.byHoliday == GroupSum(DateFilter(rows, start, end), ByHoliday)
    ensures v.byMonthYear == GroupSum(DateFilter(rows, start, end), ByMonthYear)
    ensures v.bySeasonYear == GroupSum(DateFilter(rows, start, end), BySeasonYear)
    ensures SumTotals(v.byWorkingday) == v.metrics.total
    ensures SumTotals(v.byHoliday) == v.metrics.total
    ensures SelectionKeyed(rows, start, end) ==>
      SumTotals(v.byWeekday) == v.metrics.total &&
      SumTotals(v.byMonthYear) == v.metrics.total &&
      SumTotals(v.bySeasonYear) == v.metrics.total
    ensures forall r :: r in v.workingRegistered <==>
      r in rows && start <= r.dateday <= end && r.workingday == 1 && r.registered > 0
    ensures start > end ==>
      v.metrics == DailyMetrics(0, 0, 0) && v.byWeekday == [] && v.byWorkingday == [] &&
      v.byHoliday == [] && v.byMonthYear == [] && v.bySeasonYear == [] &&
      v.workingRegistered == []
  {
    var main := DateFilter(rows, start, end);
    FlagGroupsPartitionTotal(main);
    SelectionPartitionsTotal(rows, start, end);
    View(
      Daily(main),
      GroupSum(main, ByWeekday),
      GroupSum(main, ByWorkingday),
      GroupSum(main, ByHoliday),
      GroupSum(main, ByMonthYear),
      GroupSum(main, BySeasonYear),
      WorkingDayRegistered(main))
  }

  /**
    When no selected row has a missing label, the weekday, month and season
    groups of `main_df` add up to its total-count tile.
   */
  lemma SelectionPartitionsTotal(rows: seq<Record>, start: int, end: int)
    ensures var main := DateFilter(rows, start, end);
      SelectionKeyed(rows, start, end) ==>
      && SumTotals(GroupSum(main, ByWeekday)) == Total(main, Count)
      && SumTotals(GroupSum(main, ByMonthYear)) == Total(main, Count)
      && SumTotals(GroupSum(main, BySeasonYear)) == Total(main, Count)
  {
    var main := DateFilter(rows, start, end);
    if SelectionKeyed(rows, start, end) {
      GroupsPartitionTotal(main, ByWeekday);
      GroupsPartitionTotal(main, ByMonthYear);
      GroupsPartitionTotal(main, BySeasonYear);
    }
  }

  /** Normalising changes no date, so the default bounds are those of the loaded rows. */
  lemma NormalizeKeepsBounds(raw: seq<Record>)
    ensures MinDate(NormalizeRows(raw)) == MinDate(raw)
    ensures MaxDate(NormalizeRows(raw)) == MaxDate(raw)
  {
    SameDatesSameBounds(NormalizeRows(raw), raw);
  }

  /**
    On first display (the default selection over the normalised data set,
    every code in its table's domain) the metrics cover every row and every
    chart's groups add up to the total metric.
   */
  lemma DefaultViewShowsAll(raw: seq<Record>)
    requires |raw| > 0
    requires forall r :: r in raw ==> InDomain(r)
    ensures var rows := NormalizeRows(raw);
      var v := BuildView(rows, MinDate(raw).value, MaxDate(raw).value);
      && v.metrics == Daily(rows)
      && SumTotals(v.byWeekday) == v.metrics.total
      && SumTotals(v.byWorkingday) == v.metrics.total
      && SumTotals(v.byHoliday) == v.metrics.total
      && SumTotals(v.byMonthYear) == v.metrics.total
      && SumTotals(v.bySeasonYear) == v.metrics.total
  {
    var rows := NormalizeRows(raw);
    NormalizeKeepsBounds(raw);
    DefaultRangeKeepsAll(rows);
    forall r | r in rows ensures FullyKeyed(r) {
      forall g ensures Keyed(r, g) {
        NormalizedRowsAreKeyed(raw, g);
      }
    }
  }

  /**
    Three days with totals 10, 20 and 30: the range over the last two days
    selects exactly those two rows, and the total metric is 50.
   */
  lemma ThreeDayScenario()
    ensures var d1 := Record(18628, Num(4), 0, Num(1), 0, Num(5), 1, Num(1), 4, 6, 10);
      var d2 := Record(18629, Num(4), 0, Num(1), 0, Num(6), 0, Num(1), 8, 12, 20);
      var d3 := Record(18630, Num(4), 0, Num(1), 0, Num(0), 0, Num(1), 12, 18, 30);
      DateFilter([d1, d2, d3], 18629, 18630) == [d2, d3] &&
      Daily(DateFilter([d1, d2, d3], 18629, 18630)).total == 50
  {
    var d1 := Record(18628, Num(4), 0, Num(1), 0, Num(5), 1, Num(1), 4, 6, 10);
    var d2 := Record(18629, Num(4), 0, Num(1), 0, Num(6), 0, Num(1), 8, 12, 20);
    var d3 := Record(18630, Num(4), 0, Num(1), 0, Num(0), 0, Num(1), 12, 18, 30);
    var rows := [d1, d2, d3];
    assert rows[1..] == [d2, d3];
    assert rows[1..][1..] == [d3];
    assert rows[1..][1..][1..] == [];
    assert [d2, d3][1..] == [d3];
  }
}
