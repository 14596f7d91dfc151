# Bike rental dashboard: verified data pipeline

This project models the data pipeline of a Streamlit dashboard over daily
bicycle-rental records (`dashboard.py`). The pipeline loads the day table and
renames its columns to a canonical vocabulary. It recodes four integer-coded
categorical columns (month, season, weekday, weather) into labels. It offers
the earliest and latest date as the default range. It keeps the rows whose
date falls in the chosen range (`main_df`), sums the casual, registered and
total counts, and sums `count` by weekday, working day, holiday,
month × year and season × year. It also takes the working-day rows that have
at least one registered rental.

Modules:

- `Recode` (`recode.dfy`): pandas cells (`Num`, `Text`, `NaN`), the rename
  table and the four code tables, `Series.map(dict)` on one cell, and the
  header rename.
- `Frame` (`frame.dfy`): the typed day record and the in-place load phase. The
  class `DayFrame` holds `df_day`'s header and rows. Its methods rename the
  header and reassign the recoded columns, as the source does with
  `inplace=True` and `df[c] = df[c].map(...)`.
- `Selection` (`selection.dfy`): the min/max date, the inclusive date filter
  and the working-day subset.
- `Metrics` (`metrics.dfy`): column sums and the three metric tiles.
- `GroupBy` (`groupby.dfy`): `groupby(...)["count"].sum()` as a table of
  (key, total) rows, with a reference definition of each group's value.
- `Dashboard` (`dashboard.dfy`): all of the above for one date range.
- `Seqs` (`seqs.dfy`), `Wrappers` (`wrappers.dfy`): order-preserving
  selection (a boolean mask) and `Option`.

Behaviour that follows the code:

- `Series.map` with a dict turns an unknown code into a missing value and
  raises nothing. A stricter design would reject season code 5. The code does
  not, and the model gives `NaN` (`Frame.SeasonFiveBecomesMissing`).
- pandas `groupby` drops rows whose key is missing (its default `dropna=True`).
  So the weekday, month and season charts add up to the total metric when no
  selected row has a missing label. In general, the group values plus the
  count of the dropped rows give the total (`GroupBy.GroupsPlusDroppedIsTotal`).
  The working-day and holiday charts always add up to the total.
- A range with start after end is not rejected. It selects nothing.
- The weather label is spelled `Heavy Rain/Thunderstrom`, as in the source.

Dates are day ordinals (for example, days since 1970-01-01). Comparing them is
the date comparison the filter performs.

## Model

| member | source | states |
|---|---|---|
| Recode.Lookup | dashboard.py:24-39 | a table gives a label exactly for the codes it holds, and the label is one of its values |
| Recode.MapCell | dashboard.py:24-39 | `Series.map(dict)` on a cell: a label exactly when the cell is an integer code in the table, with that code's label; a missing value otherwise; never a number |
| Recode.MonthTableExact | dashboard.py:24-27 | the month table labels exactly the codes 1..12, each with a distinct label |
| Recode.SeasonTableExact | dashboard.py:28-30 | the season table labels exactly the codes 1..4, each with a distinct label |
| Recode.WeekdayTableExact | dashboard.py:31-33 | the weekday table labels exactly the codes 0..6, each with a distinct label |
| Recode.WeatherTableExact | dashboard.py:34-39 | the weather table labels exactly the codes 1..4, each with a distinct label; code 4 is spelled "Heavy Rain/Thunderstrom" |
| Recode.RenameColumn | dashboard.py:15-22 | a name in the rename table gets its canonical name; every other name is unchanged |
| Recode.RenameColumns | dashboard.py:15-22 | the header after the rename has the same length, and each column is renamed on its own |
| Recode.RenameTableInjective | dashboard.py:15-22 | no two raw names are renamed to the same canonical name |
| Recode.RenamePreservesDistinct | dashboard.py:15-22 | a header of distinct names, none already canonical, stays a header of distinct names |
| Recode.HourEntryInert | dashboard.py:15-22 | without an `hr` column, renaming with the full table gives the same header as renaming with the table minus its `hr` entry |
| Frame.TableOf | dashboard.py:24-39 | each recoded column's table has exactly the column's code range as keys (month 1..12, season 1..4, weekday 0..6, weather 1..4) |
| Frame.RecodeRecord | dashboard.py:24-39 | recoding one column maps that cell through its table and leaves every other cell, the date, the flags and the counts unchanged |
| Frame.RecodeColumn | dashboard.py:24-39 | recoding a column keeps the row count and the row order, recoding each row |
| Frame.NormalizeRecord | dashboard.py:24-39 | the four reassignments map each categorical cell of a row through its own table exactly once and leave the date, the year, the flags and the counts unchanged |
| Frame.NormalizeRows | dashboard.py:24-39 | normalising keeps the row count and the row order and normalises each row |
| Frame.NormalizeLabels | dashboard.py:24-39 | a loaded code becomes its table's label exactly when it lies in the table's range, and a missing value otherwise |
| Frame.SeasonFiveBecomesMissing | dashboard.py:28-30 | season code 5 becomes a missing value and raises no error |
| Frame.DayFrame.constructor | dashboard.py:11 | the frame starts with the loaded header and rows |
| Frame.DayFrame.Rename | dashboard.py:15-22 | the in-place rename replaces the header with its renamed form and leaves the rows alone |
| Frame.DayFrame.MapColumn | dashboard.py:24-39 | a column reassignment replaces the rows with that column recoded and leaves the header alone |
| Frame.DayFrame.Normalize | dashboard.py:15-39 | after the whole load phase the header is renamed and every row is normalised |
| Selection.Dates | dashboard.py:42-43 | the date column has one entry per row, in row order |
| Selection.Least | dashboard.py:42 | the least element is in the sequence and at most every element; none for an empty sequence |
| Selection.Greatest | dashboard.py:43 | the greatest element is in the sequence and at least every element; none for an empty sequence |
| Selection.MinDate | dashboard.py:42 | `min_date` is the date of some row and no row is earlier; none for an empty data set |
| Selection.MaxDate | dashboard.py:43 | `max_date` is the date of some row and no row is later; none for an empty data set |
| Selection.SameDatesSameBounds | dashboard.py:42-43 | the bounds depend only on the date column |
| Selection.DateFilter | dashboard.py:55 | a row is in `main_df` exactly when `start <= dateday <= end`, inclusive at both ends, and `main_df` keeps the original relative order |
| Selection.WorkingDayRegistered | dashboard.py:146 | a row is in the subset exactly when it has `workingday == 1` and `registered > 0`, and the subset keeps the original order |
| Selection.DefaultRangeKeepsAll | dashboard.py:42-55 | the default selection `[min_date, max_date]` returns every row, unchanged and in order |
| Selection.DateFilterCounts | dashboard.py:55 | `main_df` keeps each in-range row as often as the data set holds it, and no out-of-range row |
| Selection.InvertedRangeIsEmpty | dashboard.py:55 | a range with start after end selects nothing |
| Selection.DisjointRangeIsEmpty | dashboard.py:47-55 | a range wholly before or after the data set's dates selects nothing and is no error |
| Selection.DateFilterTwice | dashboard.py:55 | filtering by one range and then another equals filtering once by their intersection |
| Selection.DateFilterIdempotent | dashboard.py:55 | filtering twice with the same bounds equals filtering once |
| Selection.WorkingDayOfFiltered | dashboard.py:55-146 | the working-day subset of `main_df` is the in-range part of the whole data set's working-day subset |
| Seqs.Select | dashboard.py:55 | a boolean mask keeps exactly the elements that satisfy it, as a sub-sequence of the input |
| Seqs.SelectCounts | dashboard.py:55 | a boolean mask keeps each satisfying element as often as the input has it, and no other element |
| Seqs.SelectPermutation | dashboard.py:55 | masking a reordered input gives a reordering of the masked input |
| Metrics.Total | dashboard.py:65-71 | a column sum over no rows is 0 |
| Metrics.TotalNonNegative | dashboard.py:65-71 | a column sum over non-negative values is non-negative |
| Metrics.Daily | dashboard.py:65-71 | the three tiles are the sums of `casual`, `registered` and `count` |
| Metrics.DailyBounds | dashboard.py:65-71 | on an empty selection every tile is 0; on non-negative data no tile is negative |
| Metrics.TotalPermutation | dashboard.py:65-71 | a column sum does not depend on row order |
| Metrics.TotalSplit | dashboard.py:55-71 | the sum over the rows a mask keeps plus the sum over the rows it drops is the sum over all rows |
| Metrics.TotalOfAddingCounts | dashboard.py:65-71 | when every day's `count` is `casual + registered`, the total tile is the casual tile plus the registered tile |
| GroupBy.KeyOf | dashboard.py:79-87 | a row has no key exactly when a categorical key cell is missing; a key holds no missing value |
| GroupBy.Add | dashboard.py:79-87 | adding a row to a group table adds its key once, keeps the keys distinct, adds its value to that key's group only, and adds it to the table's grand total |
| GroupBy.GroupSum | dashboard.py:79-87 | each key appears in the group table at most once |
| GroupBy.DistinctAt | dashboard.py:79-87 | no two rows of a group table share a key |
| GroupBy.GroupSumKeys | dashboard.py:79-87 | a key has a group exactly when some row carries that key |
| GroupBy.GroupSumValue | dashboard.py:104 | a group's value is the sum of `count` over exactly the rows with its key |
| GroupBy.GroupSumTotal | dashboard.py:182 | the group values sum to the total of `count` over the rows that have a key |
| GroupBy.GroupsPlusDroppedIsTotal | dashboard.py:71-87 | the group values plus the count of the rows dropped for a missing key give the total-count tile |
| GroupBy.GroupsPartitionTotal | dashboard.py:71-87 | when every row has a key, the group values sum to the total-count tile |
| GroupBy.FlagGroupsPartitionTotal | dashboard.py:71-87 | the working-day and holiday groups always sum to the total-count tile |
| GroupBy.NormalizedRowsAreKeyed | dashboard.py:24-39 | after normalising rows whose codes are all in range, every grouping keys every row |
| GroupBy.GroupSumReorder | dashboard.py:79-87 | reordering the rows changes neither the set of keys nor any group's value |
| Dashboard.BuildView | dashboard.py:55-182 | the tiles are `Daily` of `main_df` and the five charts are its `GroupSum` tables by weekday, working day, holiday, month × year and season × year; the working-day and holiday charts sum to the total tile, and so do the weekday, month and season charts when no selected row has a missing label; the working-day chart holds exactly the in-range working days with registered rentals; an inverted range shows zeros and empty charts |
| Dashboard.SelectionPartitionsTotal | dashboard.py:71-182 | when no row of `main_df` has a missing label, its weekday, month × year and season × year groups each sum to its total-count tile |
| Dashboard.NormalizeKeepsBounds | dashboard.py:42-43 | normalisation does not change the default date bounds |
| Dashboard.DefaultViewShowsAll | dashboard.py:42-182 | on first display, over normalised in-range codes, the tiles cover every row and all five charts sum to the total tile |
| Dashboard.ThreeDayScenario | dashboard.py:55-71 | for three days with totals 10, 20 and 30, the range over the last two selects exactly those rows and the total tile is 50 |

## Left out

- Loading the CSV over the network and parsing `dteday` (dashboard.py:11-12, 42-43). These are I/O and library parsing. The model starts from loaded rows whose dates are already day ordinals.
- The filter compares a datetime column with `str(start_date)` (dashboard.py:55), which relies on pandas turning the string into a midnight timestamp. The model compares dates directly.
- The Streamlit widgets and layout: sidebar, image, `date_input` (dashboard.py:45-52), headers, metrics, columns, captions. `date_input` keeps its value inside `[min_date, max_date]`; the model accepts any range, which covers that case. A selection with only one date picked is not modelled.
- All matplotlib and seaborn plotting (dashboard.py:76-198), including the bar-label loop over float bar heights (dashboard.py:90-95).
- The windspeed scatter (dashboard.py:127-132) and the `windspeed`, `temp`, `atemp`, `hum` and `instant` columns. They are floating point or unused, and a record carries no field for them.
- The seaborn bar charts drawn straight from rows (dashboard.py:148-151, 164-167). Their estimator is a mean with confidence intervals computed inside seaborn. The model gives only their input rows (`Selection.WorkingDayRegistered`).
- The order of group rows. pandas sorts group keys. `GroupBy.GroupSum` keeps keys in the order its fold meets them, and the lemmas state only keys and values.
- Column access by name. The typed record replaces it: `Frame.DayFrame.MapColumn` takes a column tag, not a name, and cannot raise pandas' `KeyError` for a missing column.
- GroupBy.GroupSum: does not model 64-bit integer overflow of pandas' grouped sums, for the same reason as the column sums below.
- Metrics.Total: does not model 64-bit integer overflow of pandas' column sums, because the counts of a daily data set are far below that bound.
