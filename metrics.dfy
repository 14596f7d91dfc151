/**
  The three summary metrics of the "Daily Rentals" row (dashboard.py:65-71):
  column sums over the selected rows.
 */
module Metrics {
  import opened Seqs
  import opened Frame

  /** The three integer columns the dashboard sums. */
  datatype Measure = Casual | Registered | Count

  function ValueOf(r: Record, m: Measure): int
  {
    match m
    case Casual => r.casual
    case Registered => r.registered
    case Count => r.count
  }

  /** `df[m].sum()`: zero on no rows. */
  function Total(rows: seq<Record>, m: Measure): (t: int)
    ensures |rows| == 0 ==> t == 0
  {
    if |rows| == 0 then 0 else ValueOf(rows[0], m) + Total(rows[1..], m)
  }

  /** A sum of non-negative values is non-negative. */
  lemma {:induction false} TotalNonNegative(rows: seq<Record>, m: Measure)
    requires forall r :: r in rows ==> ValueOf(r, m) >= 0
    ensures Total(rows, m) >= 0
  {
    if |rows| > 0 {
      assert forall r :: r in rows[1..] ==> r in rows;
      TotalNonNegative(rows[1..], m);
    }
  }

  datatype DailyMetrics = DailyMetrics(casual: int, registered: int, total: int)

  /** The three metric tiles shown for the selected rows. */
  function Daily(rows: seq<Record>): (d: DailyMetrics)
    ensures d.casual == Total(rows, Casual)
    ensures d.registered == Total(rows, Registered)
    ensures d.total == Total(rows, Count)
  {
    DailyMetrics(Total(rows, Casual), Total(rows, Registered), Total(rows, Count))
  }

  /** Every row's counts are non-negative. */
  predicate NonNegative(rows: seq<Record>)
  {
    forall r :: r in rows ==> r.casual >= 0 && r.registered >= 0 && r.count >= 0
  }

  /** The day's total is its casual plus its registered rentals. */
  predicate CountsAdd(rows: seq<Record>)
  {
    forall r :: r in rows ==> r.count == r.casual + r.registered
  }

  /** On an empty selection every metric is 0; on non-negative data none is negative. */
  lemma DailyBounds(rows: seq<Record>)
    ensures |rows| == 0 ==> Daily(rows) == DailyMetrics(0, 0, 0)
    ensures NonNegative(rows) ==>
      Daily(rows).casual >= 0 && Daily(rows).registered >= 0 && Daily(rows).total >= 0
  {
    if NonNegative(rows) {
      TotalNonNegative(rows, Casual);
      TotalNonNegative(rows, Registered);
      TotalNonNegative(rows, Count);
    }
  }

  /** The sum over a concatenation is the sum of the sums. */
  lemma {:induction false} TotalConcat(a: seq<Record>, b: seq<Record>, m: Measure)
    ensures Total(a + b, m) == Total(a, m) + Total(b, m)
  {
    if |a| == 0 {
      assert a + b == b;
    } else {
      assert (a + b)[0] == a[0];
      assert (a + b)[1..] == a[1..] + b;
      TotalConcat(a[1..], b, m);
    }
  }

  /** Taking one row out of a sum removes exactly its value. */
  lemma TotalRemove(b: seq<Record>, i: nat, m: Measure)
    requires i < |b|
    ensures Total(b, m) == ValueOf(b[i], m) + Total(b[..i] + b[i + 1..], m)
  {
    assert b == b[..i] + ([b[i]] + b[i + 1..]);
    TotalConcat(b[..i], [b[i]] + b[i + 1..], m);
    TotalConcat(b[..i], b[i + 1..], m);
    assert ([b[i]] + b[i + 1..])[1..] == b[i + 1..];
  }

  lemma MultisetRemove(b: seq<Record>, i: nat)
    requires i < |b|
    ensures multiset(b[..i] + b[i + 1..]) == multiset(b) - multiset{b[i]}
  {
    assert b == b[..i] + [b[i]] + b[i + 1..];
  }

  /** A sum does not depend on row order: reordered rows give the same sum. */
  lemma {:induction false} TotalPermutation(a: seq<Record>, b: seq<Record>, m: Measure)
    requires multiset(a) == multiset(b)
    ensures Total(a, m) == Total(b, m)
    decreases |a|
  {
    if |a| == 0 {
      assert |b| == |multiset(b)| == 0;
    } else {
      assert a[0] in multiset(b);
      var i :| 0 <= i < |b| && b[i] == a[0];
      var rest := b[..i] + b[i + 1..];
      TotalRemove(b, i, m);
      assert multiset(a[1..]) == multiset(rest) by {
        MultisetRemove(b, i);
        MultisetRemove(a, 0);
        assert a[..0] + a[1..] == a[1..];
      }
      TotalPermutation(a[1..], rest, m);
    }
  }

  /** Rows split by a predicate and its negation: the two sums add up to the whole. */
  lemma {:induction false} TotalSplit(rows: seq<Record>, p: Record -> bool, q: Record -> bool, m: Measure)
    requires forall r :: q(r) == !p(r)
    ensures Total(Select(rows, p), m) + Total(Select(rows, q), m) == Total(rows, m)
  {
    if |rows| > 0 {
      TotalSplit(rows[1..], p, q, m);
      var sp, sq := Select(rows[1..], p), Select(rows[1..], q);
      if p(rows[0]) {
        assert ([rows[0]] + sp)[1..] == sp;
      } else {
        assert ([rows[0]] + sq)[1..] == sq;
      }
    }
  }

  /** When every day's total is casual plus registered, so is the total metric. */
  lemma {:induction false} TotalOfAddingCounts(rows: seq<Record>)
    requires CountsAdd(rows)
    ensures Total(rows, Count) == Total(rows, Casual) + Total(rows, Registered)
  {
    if |rows| > 0 {
      assert forall r :: r in rows[1..] ==> r in rows;
      TotalOfAddingCounts(rows[1..]);
    }
  }
}
