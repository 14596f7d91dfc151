/**
  The `groupby(...)` sums of `count` behind the charts: by weekday, working
  day and holiday (dashboard.py:79, 83, 87), by month and year
  (dashboard.py:104) and by season and year (dashboard.py:182). The result
  of `groupby(keys)["count"].sum().reset_index()` is a table with one row per
  key; as in pandas' default, rows whose key holds a missing value belong to
  no group.
 */
module GroupBy {
  import opened Wrappers
  import opened Seqs
  import opened Recode
  import opened Frame
  import opened Metrics

  /** The five groupings the dashboard charts. */
  datatype Grouping = ByWeekday | ByWorkingday | ByHoliday | ByMonthYear | BySeasonYear

  /** A group key: the values of the grouping's columns, in order. */
  type Key = seq<Cell>

  /** The row's key under `g`, or None when one of its key cells is missing. */
  function KeyOf(r: Record, g: Grouping): (k: Option<Key>)
    ensures k.None? <==> (g == ByWeekday && r.weekday.NaN?) ||
                         (g == ByMonthYear && r.month.NaN?) ||
                         (g == BySeasonYear && r.season.NaN?)
    ensures k.Some? ==> forall c :: c in k.value ==> !c.NaN?
  {
    match g
    case ByWeekday => if r.weekday.NaN? then None else Some([r.weekday])
    case ByWorkingday => Some([Num(r.workingday)])
    case ByHoliday => Some([Num(r.holiday)])
    case ByMonthYear => if r.month.NaN? then None else Some([r.month, Num(r.year)])
    case BySeasonYear => if r.season.NaN? then None else Some([r.season, Num(r.year)])
  }

  predicate Keyed(r: Record, g: Grouping)
  {
    KeyOf(r, g).Some?
  }

  /** One output row of a group-by: a key and the sum of `count` over its rows. */
  datatype Group = Group(key: Key, total: int)

  function KeysOf(t: seq<Group>): set<Key>
  {
    if |t| == 0 then {} else {t[0].key} + KeysOf(t[1..])
  }

  /** Each key appears in the table at most once. */
  predicate Distinct(t: seq<Group>)
  {
    |t| == 0 || (t[0].key !in KeysOf(t[1..]) && Distinct(t[1..]))
  }

  /** The total the table holds for `k`; 0 when `k` has no row. */
  function GroupValue(t: seq<Group>, k: Key): int
  {
    if |t| == 0 then 0
    else if t[0].key == k then t[0].total
    else GroupValue(t[1..], k)
  }

  function SumTotals(t: seq<Group>): int
  {
    if |t| == 0 then 0 else t[0].total + SumTotals(t[1..])
  }

  /** The sum of `count` over the rows whose key under `g` is `k`: the reference for a group's value. */
  function KeyedTotal(rows: seq<Record>, g: Grouping, k: Key): int
  {
    Total(Select(rows, r => KeyOf(r, g) == Some(k)), Count)
  }

  /** Adds `v` to the group of `k`, opening the group when `k` is new. */
  function Add(t: seq<Group>, k: Key, v: int): (r: seq<Group>)
    ensures KeysOf(r) == KeysOf(t) + {k}
    ensures Distinct(t) ==> Distinct(r)
    ensures forall j :: GroupValue(r, j) == GroupValue(t, j) + (if j == k then v else 0)
    ensures SumTotals(r) == SumTotals(t) + v
  {
    if |t| == 0 then
      assert [Group(k, v)][1..] == [];
      [Group(k, v)]
    else if t[0].key == k then
      var r := [Group(k, t[0].total + v)] + t[1..];
      assert r[1..] == t[1..];
      r
    else
      var r := [t[0]] + Add(t[1..], k, v);
      assert r[1..] == Add(t[1..], k, v);
      r
  }

  /**
    `groupby(g)["count"].sum()`: the rows folded into a table, one group per
    key; a row without a key is dropped. Each key appears at most once.
   */
  function GroupSum(rows: seq<Record>, g: Grouping): (t: seq<Group>)
    ensures Distinct(t)
  {
    if |rows| == 0 then []
    else
      var rest := GroupSum(rows[1..], g);
      match KeyOf(rows[0], g)
      case None => rest
      case Some(k) => Add(rest, k, rows[0].count)
  }

  /** Unfolds a reference group value by one row. */
  lemma KeyedTotalCons(rows: seq<Record>, g: Grouping, k: Key)
    requires |rows| > 0
    ensures KeyedTotal(rows, g, k) ==
      (if KeyOf(rows[0], g) == Some(k) then rows[0].count else 0) + KeyedTotal(rows[1..], g, k)
  {
    var p := (r: Record) => KeyOf(r, g) == Some(k);
    var s := Select(rows[1..], p);
    assert ([rows[0]] + s)[0] == rows[0] && ([rows[0]] + s)[1..] == s;
  }

  /** Unfolds the total of the keyed rows by one row. */
  lemma KeyedRowsCons(rows: seq<Record>, g: Grouping)
    requires |rows| > 0
    ensures Total(Select(rows, r => Keyed(r, g)), Count) ==
      (if Keyed(rows[0], g) then rows[0].count else 0) + Total(Select(rows[1..], r => Keyed(r, g)), Count)
  {
    var p := (r: Record) => Keyed(r, g);
    var s := Select(rows[1..], p);
    assert ([rows[0]] + s)[0] == rows[0] && ([rows[0]] + s)[1..] == s;
  }

  /** A key has a group exactly when some row carries it. */
  lemma {:induction false} GroupSumKeys(rows: seq<Record>, g: Grouping)
    ensures forall k :: k in KeysOf(GroupSum(rows, g)) <==> exists r :: r in rows && KeyOf(r, g) == Some(k)
  {
    if |rows| > 0 {
      GroupSumKeys(rows[1..], g);
      assert rows == [rows[0]] + rows[1..];
    }
  }

  /** A group's value is the sum of `count` over exactly the rows with its key. */
  lemma {:induction false} GroupSumValue(rows: seq<Record>, g: Grouping, k: Key)
    ensures GroupValue(GroupSum(rows, g), k) == KeyedTotal(rows, g, k)
  {
    if |rows| > 0 {
      GroupSumValue(rows[1..], g, k);
      KeyedTotalCons(rows, g, k);
    }
  }

  /** The group values sum to the total of the rows that have a key. */
  lemma {:induction false} GroupSumTotal(rows: seq<Record>, g: Grouping)
    ensures SumTotals(GroupSum(rows, g)) == Total(Select(rows, r => Keyed(r, g)), Count)
  {
    if |rows| > 0 {
      GroupSumTotal(rows[1..], g);
      KeyedRowsCons(rows, g);
    } else {
      assert Select(rows, r => Keyed(r, g)) == [];
    }
  }

  /** Distinct keys in index form: no two rows of the table share a key. */
  lemma {:induction false} DistinctAt(t: seq<Group>)
    requires Distinct(t)
    ensures forall i, j :: 0 <= i < j < |t| ==> t[i].key != t[j].key
  {
    if |t| > 0 {
      DistinctAt(t[1..]);
      KeysOfAt(t[1..]);
      forall j | 0 < j < |t| ensures t[0].key != t[j].key {
        assert t[j] == t[1..][j - 1];
      }
    }
  }

  lemma {:induction false} KeysOfAt(t: seq<Group>)
    ensures forall i :: 0 <= i < |t| ==> t[i].key in KeysOf(t)
  {
    if |t| > 0 {
      KeysOfAt(t[1..]);
      assert forall i :: 0 < i < |t| ==> t[i] == t[1..][i - 1];
    }
  }

  /** The groups of one grouping add up to the total of the rows it keys, plus nothing else. */
  lemma GroupsPlusDroppedIsTotal(rows: seq<Record>, g: Grouping)
    ensures SumTotals(GroupSum(rows, g)) + Total(Select(rows, r => !Keyed(r, g)), Count)
         == Total(rows, Count)
  {
    GroupSumTotal(rows, g);
    TotalSplit(rows, r => Keyed(r, g), r => !Keyed(r, g), Count);
  }

  /** When every row has a key, the groups partition the total-count metric. */
  lemma GroupsPartitionTotal(rows: seq<Record>, g: Grouping)
    requires forall r :: r in rows ==> Keyed(r, g)
    ensures SumTotals(GroupSum(rows, g)) == Total(rows, Count)
  {
    GroupSumTotal(rows, g);
    SelectAll(rows, r => Keyed(r, g));
  }

  /** The working-day and holiday charts never drop a row: their groups always sum to the total. */
  lemma FlagGroupsPartitionTotal(rows: seq<Record>)
    ensures SumTotals(GroupSum(rows, ByWorkingday)) == Total(rows, Count)
    ensures SumTotals(GroupSum(rows, ByHoliday)) == Total(rows, Count)
  {
    GroupsPartitionTotal(rows, ByWorkingday);
    GroupsPartitionTotal(rows, ByHoliday);
  }

  /** After normalising rows whose codes are all in domain, every grouping keys every row. */
  lemma NormalizedRowsAreKeyed(rows: seq<Record>, g: Grouping)
    requires forall r :: r in rows ==> InDomain(r)
    ensures forall r :: r in NormalizeRows(rows) ==> Keyed(r, g)
  {
    var n := NormalizeRows(rows);
    forall r | r in n ensures Keyed(r, g) {
      var i :| 0 <= i < |n| && n[i] == r;
      assert rows[i] in rows;
      NormalizeLabels(rows[i], MonthColumn);
      NormalizeLabels(rows[i], SeasonColumn);
      NormalizeLabels(rows[i], WeekdayColumn);
    }
  }

  /** Group sums do not depend on row order: reordered rows give the same groups and values. */
  lemma GroupSumReorder(a: seq<Record>, b: seq<Record>, g: Grouping)
    requires multiset(a) == multiset(b)
    ensures KeysOf(GroupSum(a, g)) == KeysOf(GroupSum(b, g))
    ensures forall k :: GroupValue(GroupSum(a, g), k) == GroupValue(GroupSum(b, g), k)
  {
    GroupSumKeys(a, g);
    GroupSumKeys(b, g);
    assert forall r :: r in a <==> r in b by {
      forall r ensures r in a <==> r in b {
        assert r in a <==> r in multiset(a);
        assert r in b <==> r in multiset(b);
      }
    }
    forall k ensures GroupValue(GroupSum(a, g), k) == GroupValue(GroupSum(b, g), k) {
      var p := (r: Record) => KeyOf(r, g) == Some(k);
      GroupSumValue(a, g, k);
      GroupSumValue(b, g, k);
      SelectPermutation(a, b, p);
      TotalPermutation(Select(a, p), Select(b, p), Count);
    }
  }
}
