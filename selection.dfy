/**
  The date bounds offered as the default selection (dashboard.py:42-43, 51),
  the inclusive date-range filter that yields `main_df` (dashboard.py:55) and
  the working-day subset of it (dashboard.py:146).
 */
module Selection {
  import opened Wrappers
  import opened Seqs
  import opened Frame

  /** The `dateday` column. */
  function Dates(rows: seq<Record>): (d: seq<int>)
    ensures |d| == |rows|
    ensures forall i :: 0 <= i < |rows| ==> d[i] == rows[i].dateday
  {
    seq(|rows|, i requires 0 <= i < |rows| => rows[i].dateday)
  }

  /** The least element of `ds`; None when `ds` is empty. */
  function Least(ds: seq<int>): (d: Option<int>)
    ensures d.None? <==> |ds| == 0
    ensures d.Some? ==> d.value in ds && forall x :: x in ds ==> d.value <= x
  {
    if |ds| == 0 then None
    else
      assert ds == [ds[0]] + ds[1..];
      match Least(ds[1..])
      case None => Some(ds[0])
      case Some(m) => Some(if ds[0] <= m then ds[0] else m)
  }

  /** The greatest element of `ds`; None when `ds` is empty. */
  function Greatest(ds: seq<int>): (d: Option<int>)
    ensures d.None? <==> |ds| == 0
    ensures d.Some? ==> d.value in ds && forall x :: x in ds ==> x <= d.value
  {
    if |ds| == 0 then None
    else
      assert ds == [ds[0]] + ds[1..];
      match Greatest(ds[1..])
      case None => Some(ds[0])
      case Some(m) => Some(if ds[0] >= m then ds[0] else m)
  }

  /** `min_date`: the earliest date in the data set; None on an empty one. */
  function MinDate(rows: seq<Record>): (d: Option<int>)
    ensures d.None? <==> |rows| == 0
    ensures d.Some? ==> exists i :: 0 <= i < |rows| && rows[i].dateday == d.value
    ensures d.Some? ==> forall r :: r in rows ==> d.value <= r.dateday
  {
    var ds := Dates(rows);
    assert forall r :: r in rows ==> r.dateday in ds;
    Least(ds)
  }

  /** `max_date`: the latest date in the data set; None on an empty one. */
  function MaxDate(rows: seq<Record>): (d: Option<int>)
    ensures d.None? <==> |rows| == 0
    ensures d.Some? ==> exists i :: 0 <= i < |rows| && rows[i].dateday == d.value
    ensures d.Some? ==> forall r :: r in rows ==> r.dateday <= d.value
  {
    var ds := Dates(rows);
    assert forall r :: r in rows ==> r.dateday in ds;
    Greatest(ds)
  }

  /** Row sequences with the same dates, position by position, have the same bounds. */
  lemma SameDatesSameBounds(a: seq<Record>, b: seq<Record>)
    requires |a| == |b|
    requires forall i :: 0 <= i < |a| ==> a[i].dateday == b[i].dateday
    ensures MinDate(a) == MinDate(b) && MaxDate(a) == MaxDate(b)
  {
    assert Dates(a) == Dates(b);
  }

  predicate InRange(r: Record, start: int, end: int)
  {
    start <= r.dateday <= end
  }

  /**
    `main_df`: the rows dated from `start` to `end`, both inclusive, in their
    original order (multiplicities: DateFilterCounts).
   */
  function DateFilter(rows: seq<Record>, start: int, end: int): (r: seq<Record>)
    ensures forall x :: x in r <==> x in rows && start <= x.dateday <= end
    ensures SubSeq(r, rows)
  {
    Select(rows, x => InRange(x, start, end))
  }

  predicate WorkingRegistered(r: Record)
  {
    r.workingday == 1 && r.registered > 0
  }

  /** `main_df` keeps each in-range row as often as the data set holds it, and no other row. */
  lemma DateFilterCounts(rows: seq<Record>, start: int, end: int)
    ensures var main := DateFilter(rows, start, end);
      forall x :: multiset(main)[x] == if InRange(x, start, end) then multiset(rows)[x] else 0
  {
    SelectCounts(rows, x => InRange(x, start, end));
  }

  /** `filtered_data`: the rows of a working day with at least one registered rental. */
  function WorkingDayRegistered(rows: seq<Record>): (r: seq<Record>)
    ensures forall x :: x in r <==> x in rows && x.workingday == 1 && x.registered > 0
    ensures SubSeq(r, rows)
  {
    Select(rows, WorkingRegistered)
  }

  /** The default selection [min date, max date] keeps every row, in order. */
  lemma DefaultRangeKeepsAll(rows: seq<Record>)
    requires |rows| > 0
    ensures DateFilter(rows, MinDate(rows).value, MaxDate(rows).value) == rows
  {
    var lo, hi := MinDate(rows).value, MaxDate(rows).value;
    SelectAll(rows, x => InRange(x, lo, hi));
  }

  /** An inverted range keeps nothing. */
  lemma InvertedRangeIsEmpty(rows: seq<Record>, start: int, end: int)
    requires start > end
    ensures DateFilter(rows, start, end) == []
  {
    SelectNone(rows, x => InRange(x, start, end));
  }

  /** A range that misses every date in the data set keeps nothing, and is no error. */
  lemma DisjointRangeIsEmpty(rows: seq<Record>, start: int, end: int)
    requires |rows| > 0
    requires end < MinDate(rows).value || start > MaxDate(rows).value
    ensures DateFilter(rows, start, end) == []
  {
    SelectNone(rows, x => InRange(x, start, end));
  }

  /** Filtering the filtered rows by a second range is filtering once by the intersection. */
  lemma DateFilterTwice(rows: seq<Record>, s1: int, e1: int, s2: int, e2: int)
    ensures DateFilter(DateFilter(rows, s1, e1), s2, e2) ==
      DateFilter(rows, if s1 < s2 then s2 else s1, if e1 < e2 then e1 else e2)
  {
    var s, e := if s1 < s2 then s2 else s1, if e1 < e2 then e1 else e2;
    SelectSelect(rows, x => InRange(x, s1, e1), x => InRange(x, s2, e2), x => InRange(x, s, e));
  }

  /** Filtering twice with the same bounds equals filtering once. */
  lemma DateFilterIdempotent(rows: seq<Record>, start: int, end: int)
    ensures DateFilter(DateFilter(rows, start, end), start, end) == DateFilter(rows, start, end)
  {
    DateFilterTwice(rows, start, end, start, end);
  }

  /** The working-day subset of `main_df` is the working-day subset of the whole data set in range. */
  lemma WorkingDayOfFiltered(rows: seq<Record>, start: int, end: int)
    ensures WorkingDayRegistered(DateFilter(rows, start, end)) ==
      DateFilter(WorkingDayRegistered(rows), start, end)
  {
    var both := (x: Record) => InRange(x, start, end) && WorkingRegistered(x);
    SelectSelect(rows, x => InRange(x, start, end), WorkingRegistered, both);
    SelectSelect(rows, WorkingRegistered, x => InRange(x, start, end), both);
  }
}
