/**
  The column vocabulary of the daily rental data set: the fixed renaming of the
  raw column names and the four closed tables that turn integer codes into
  labels, applied with the semantics of a data frame's `Series.map(dict)`.
 */
module Recode {
  import opened Wrappers

  /** One cell of a data frame column: an integer, a text label, or a missing value. */
  datatype Cell = Num(n: int) | Text(s: string) | NaN

  /** Raw column name to canonical column name (dashboard.py:15-22). */
  const RenameTable: map<string, string> := map[
    "dteday" := "dateday",
    "yr" := "year",
    "mnth" := "month",
    "hr" := "hour",
    "weathersit" := "weather_cond",
    "cnt" := "count"
  ]

  const MonthTable: map<int, string> := map[
    1 := "Jan", 2 := "Feb", 3 := "Mar", 4 := "Apr", 5 := "May", 6 := "Jun",
    7 := "Jul", 8 := "Aug", 9 := "Sep", 10 := "Oct", 11 := "Nov", 12 := "Dec"
  ]

  const SeasonTable: map<int, string> := map[
    1 := "Spring", 2 := "Summer", 3 := "Fall", 4 := "Winter"
  ]

  const WeekdayTable: map<int, string> := map[
    0 := "Sun", 1 := "Mon", 2 := "Tue", 3 := "Wed", 4 := "Thu", 5 := "Fri", 6 := "Sat"
  ]

  /** The last label keeps the source's spelling "Thunderstrom". */
  const WeatherTable: map<int, string> := map[
    1 := "Clear/Partly Cloudy",
    2 := "Misty/Cloudy",
    3 := "Light Snow/Rain",
    4 := "Heavy Rain/Thunderstrom"
  ]

  /** Distinct keys carry distinct values. */
  ghost predicate Injective<K, V>(m: map<K, V>)
  {
    forall a, b :: a in m && b in m && a != b ==> m[a] != m[b]
  }

  /** The label for `code`, or None when the table has no entry for it. */
  function Lookup(table: map<int, string>, code: int): (r: Option<string>)
    ensures r.Some? <==> code in table
    ensures r.Some? ==> r.value in table.Values
  {
    if code in table then Some(table[code]) else None
  }

  /**
    `Series.map(dict)` on one cell: an integer code found in the table becomes
    its label; anything else (an unknown code, a label, a missing value)
    becomes a missing value. Nothing is raised.
   */
  function MapCell(table: map<int, string>, c: Cell): (r: Cell)
    ensures !r.Num?
    ensures r.Text? <==> c.Num? && c.n in table
    ensures r.Text? ==> Lookup(table, c.n) == Some(r.s)
  {
    match c
    case Num(code) => if code in table then Text(table[code]) else NaN
    case _ => NaN
  }

  /** The name a column carries after the in-place rename. */
  function RenameColumn(name: string): (r: string)
    ensures name in RenameTable ==> r == RenameTable[name]
    ensures name !in RenameTable ==> r == name
  {
    if name in RenameTable then RenameTable[name] else name
  }

  /** The whole header after the rename, column by column. */
  function RenameColumns(columns: seq<string>): (r: seq<string>)
    ensures |r| == |columns|
    ensures forall i :: 0 <= i < |columns| ==> r[i] == RenameColumn(columns[i])
  {
    seq(|columns|, i requires 0 <= i < |columns| => RenameColumn(columns[i]))
  }

  /** Each table labels exactly its closed code range, one distinct label per code. */
  lemma MonthTableExact()
    ensures forall c :: Lookup(MonthTable, c).Some? <==> 1 <= c <= 12
    ensures Injective(MonthTable)
  {
  }

  lemma SeasonTableExact()
    ensures forall c :: Lookup(SeasonTable, c).Some? <==> 1 <= c <= 4
    ensures Injective(SeasonTable)
  {
  }

  lemma WeekdayTableExact()
    ensures forall c :: Lookup(WeekdayTable, c).Some? <==> 0 <= c <= 6
    ensures Injective(WeekdayTable)
  {
  }

  lemma WeatherTableExact()
    ensures forall c :: Lookup(WeatherTable, c).Some? <==> 1 <= c <= 4
    ensures Injective(WeatherTable)
    ensures Lookup(WeatherTable, 4) == Some("Heavy Rain/Thunderstrom")
  {
  }

  /** Two raw names never collapse onto one canonical name. */
  lemma RenameTableInjective()
    ensures Injective(RenameTable)
  {
  }

  /**
    The rename preserves distinct column names when no column already carries a
    canonical name that the table produces.
   */
  lemma RenamePreservesDistinct(columns: seq<string>)
    requires forall i, j :: 0 <= i < j < |columns| ==> columns[i] != columns[j]
    requires forall i :: 0 <= i < |columns| ==> columns[i] !in RenameTable.Values
    ensures forall i, j :: 0 <= i < j < |columns| ==>
      RenameColumns(columns)[i] != RenameColumns(columns)[j]
  {
    RenameTableInjective();
    var r := RenameColumns(columns);
    forall i, j | 0 <= i < j < |columns| ensures r[i] != r[j] {
      if columns[i] in RenameTable && columns[j] in RenameTable {
      } else if columns[i] in RenameTable {
        assert RenameTable[columns[i]] in RenameTable.Values;
      } else if columns[j] in RenameTable {
        assert RenameTable[columns[j]] in RenameTable.Values;
      }
    }
  }

  /**
    The `hr` entry is inert on a header without `hr`: renaming with the full
    table gives the same header as renaming with the table minus that entry.
   */
  lemma HourEntryInert(columns: seq<string>)
    requires "hr" !in columns
    ensures forall i :: 0 <= i < |columns| ==>
      RenameColumns(columns)[i] ==
        (var t := RenameTable - {"hr"}; if columns[i] in t then t[columns[i]] else columns[i])
  {
    forall i | 0 <= i < |columns|
      ensures RenameColumns(columns)[i] ==
        (var t := RenameTable - {"hr"}; if columns[i] in t then t[columns[i]] else columns[i])
    {
      assert columns[i] != "hr";
    }
  }
}
