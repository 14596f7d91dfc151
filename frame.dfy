/**
  The loaded daily data set and its in-place normalisation: the header is
  renamed and four categorical columns are replaced by their labels
  (dashboard.py:15-39). Reading the CSV and parsing dates happen before this
  model starts: a record's date is already a day ordinal.
 */
module Frame {
  import opened Wrappers
  import opened Recode

  /**
    One day of rentals, with its fields under their canonical names. The four
    categorical fields hold integer codes when loaded and labels (or missing
    values) once normalised.
   */
  datatype Record = Record(
    dateday: int,
    season: Cell,
    year: int,
    month: Cell,
    holiday: int,
    weekday: Cell,
    workingday: int,
    weatherCond: Cell,
    casual: int,
    registered: int,
    count: int)

  /** The four columns the dashboard recodes. */
  datatype CatColumn = MonthColumn | SeasonColumn | WeekdayColumn | WeatherColumn

  /** The closed code range of each table. */
  function Lo(col: CatColumn): int
  {
    if col == WeekdayColumn then 0 else 1
  }

  function Hi(col: CatColumn): int
  {
    match col
    case MonthColumn => 12
    case SeasonColumn => 4
    case WeekdayColumn => 6
    case WeatherColumn => 4
  }

  /** The table each recoded column is mapped through; its keys are exactly the column's code range. */
  function TableOf(col: CatColumn): (t: map<int, string>)
    ensures forall code :: code in t <==> Lo(col) <= code <= Hi(col)
  {
    match col
    case MonthColumn => MonthTableExact(); MonthTable
    case SeasonColumn => SeasonTableExact(); SeasonTable
    case WeekdayColumn => WeekdayTableExact(); WeekdayTable
    case WeatherColumn => WeatherTableExact(); WeatherTable
  }

  function CellOf(r: Record, col: CatColumn): Cell
  {
    match col
    case MonthColumn => r.month
    case SeasonColumn => r.season
    case WeekdayColumn => r.weekday
    case WeatherColumn => r.weatherCond
  }

  /** A record as loaded: every categorical field is an integer code. */
  predicate Coded(r: Record)
  {
    r.season.Num? && r.month.Num? && r.weekday.Num? && r.weatherCond.Num?
  }

  /** A loaded record whose every code lies in its table's domain. */
  predicate InDomain(r: Record)
  {
    Coded(r) &&
    1 <= r.month.n <= 12 && 1 <= r.season.n <= 4 &&
    0 <= r.weekday.n <= 6 && 1 <= r.weatherCond.n <= 4
  }

  /** The record after `df[col] = df[col].map(table)`: only that field changes. */
  function RecodeRecord(r: Record, col: CatColumn): (r': Record)
    ensures CellOf(r', col) == MapCell(TableOf(col), CellOf(r, col))
    ensures forall other :: other != col ==> CellOf(r', other) == CellOf(r, other)
    ensures r'.dateday == r.dateday && r'.year == r.year && r'.holiday == r.holiday
    ensures r'.workingday == r.workingday
    ensures r'.casual == r.casual && r'.registered == r.registered && r'.count == r.count
  {
    var c := MapCell(TableOf(col), CellOf(r, col));
    match col
    case MonthColumn => r.(month := c)
    case SeasonColumn => r.(season := c)
    case WeekdayColumn => r.(weekday := c)
    case WeatherColumn => r.(weatherCond := c)
  }

  /** One column recoded over every row, row order and count kept. */
  function RecodeColumn(rows: seq<Record>, col: CatColumn): (r: seq<Record>)
    ensures |r| == |rows|
    ensures forall i :: 0 <= i < |rows| ==> r[i] == RecodeRecord(rows[i], col)
  {
    seq(|rows|, i requires 0 <= i < |rows| => RecodeRecord(rows[i], col))
  }

  /**
    The four recodings of dashboard.py:24-39, in the order the source applies
    them: each categorical column goes through its own table exactly once, and
    the date, the year, the flags and the counts are untouched.
   */
  function NormalizeRecord(r: Record): (n: Record)
    ensures forall col :: CellOf(n, col) == MapCell(TableOf(col), CellOf(r, col))
    ensures n.dateday == r.dateday && n.year == r.year
    ensures n.holiday == r.holiday && n.workingday == r.workingday
    ensures n.casual == r.casual && n.registered == r.registered && n.count == r.count
  {
    var m := RecodeRecord(r, MonthColumn);
    var s := RecodeRecord(m, SeasonColumn);
    var w := RecodeRecord(s, WeekdayColumn);
    RecodeRecord(w, WeatherColumn)
  }

  function NormalizeRows(rows: seq<Record>): (r: seq<Record>)
    ensures |r| == |rows|
    ensures forall i :: 0 <= i < |rows| ==> r[i] == NormalizeRecord(rows[i])
  {
    seq(|rows|, i requires 0 <= i < |rows| => NormalizeRecord(rows[i]))
  }

  /**
    Normalisation labels a loaded code: the cell becomes the table's label
    exactly when the code is in the table's range, and a missing value
    otherwise; no code survives as a number.
   */
  lemma NormalizeLabels(r: Record, col: CatColumn)
    requires CellOf(r, col).Num?
    ensures var c := CellOf(NormalizeRecord(r), col);
      && !c.Num?
      && (c.Text? <==> Lo(col) <= CellOf(r, col).n <= Hi(col))
      && (c.Text? ==> Lookup(TableOf(col), CellOf(r, col).n) == Some(c.s))
  {
  }

  /** A season code of 5 is outside the table: the cell becomes missing, nothing fails. */
  lemma SeasonFiveBecomesMissing(r: Record)
    requires r.season == Num(5)
    ensures NormalizeRecord(r).season == NaN
  {
    NormalizeLabels(r, SeasonColumn);
  }

  /**
    The data frame `df_day` of the source: a header and rows, updated in place
    by the rename and by the four column reassignments.
   */
  class DayFrame {
    var columns: seq<string>
    var rows: seq<Record>

    /** The frame as loaded, with its raw header. */
    constructor (header: seq<string>, data: seq<Record>)
      ensures columns == header && rows == data
    {
      columns := header;
      rows := data;
    }

    /** `df.rename(columns=RenameTable, inplace=True)`: the header changes, the rows do not. */
    method Rename()
      modifies this
      ensures columns == RenameColumns(old(columns))
      ensures rows == old(rows)
    {
      columns := RenameColumns(columns);
    }

    /** `df[col] = df[col].map(table)`: one column is replaced, everything else stays. */
    method MapColumn(col: CatColumn)
      modifies this
      ensures columns == old(columns)
      ensures rows == RecodeColumn(old(rows), col)
    {
      rows := RecodeColumn(rows, col);
    }

    /** The whole load phase after parsing: rename, then month, season, weekday and weather. */
    method Normalize()
      modifies this
      ensures columns == RenameColumns(old(columns))
      ensures rows == NormalizeRows(old(rows))
    {
      ghost var loaded := rows;
      Rename();
      MapColumn(MonthColumn);
      MapColumn(SeasonColumn);
      MapColumn(WeekdayColumn);
      MapColumn(WeatherColumn);
      assert |rows| == |loaded|;
      assert forall i :: 0 <= i < |rows| ==> rows[i] == NormalizeRecord(loaded[i]);
    }
  }
}
