# Enquiries dashboard: a Dafny model

`dashboard.py` is a one-file Dash application. At start-up it loads an
enquiry report sheet, drops every row dated on or before 2015-12-31, lists the
years present and adds six derived metric columns. It then sums all rows per
date into `df_total` and tags each date with its year and month name. Two
callbacks redraw the charts whenever the metric dropdown changes:

- `update_graph` plots the selected column of `df_total` against the dates;
- `update_chart_yoy` plots one trace per listed year, the most recently
  listed year first.

Both callbacks title their chart with the catalogue label of the selected
metric.

The model consists of these files:

- `wrappers.dfy`: `Option` and `Result`.
- `dates.dfy`: calendar dates, their order, the cutoff and the English month names.
- `frame.dfy`: the table and its cells. A cell is `Option<int>`, and a missing
  value (`NaN`) is `None`. The file also holds the pandas column operations:
  `+` propagates a missing value, `fillna` takes the left operand unless it is
  missing, and a group sum skips missing values.
- `derivation.dfy`: the fourteen sheet columns the script reads, the six
  derived columns in script order, and the per-row formulas.
- `groupby.dfy`: `groupby(['Date']).sum()` as an ordered insertion fold. It
  proves the dates come out strictly ascending, the date set is preserved,
  every group holds the per-date sum, the grand total is preserved, regrouping
  is idempotent and the input order does not matter.
- `catalogue.dfy`: the ten dropdown entries, the default selection and the
  title lookup.
- `dashboard.dfy`: the start-up pipeline. Pure functions (`KeepAfterCutoff`,
  `YearList`, `DeriveAll`, `GroupByDate`, `Tag`, and `Aggregate` composing
  them) sit next to the class `Pipeline`. The fields of `Pipeline` are the
  script's module-level variables (`df`, its column names, `year_list`,
  `df_total` and its `year` and `month` columns). The methods of `Pipeline`
  are the script's start-up steps: loading (lines 10-12), the cutoff filter
  (16), `year_list` (22), one `AssignColumn` per derived column (26-33), the
  group sum (36) and one method for the year and month tags (37-39). Line 19
  changes no value in the model and line 23 is never read, so neither has a
  method; the dropdown `options` (42-52) is the constant `Catalogue.Options`.
  `Startup` runs the methods in order and is proved to leave `df` equal to
  `DeriveAll(KeepAfterCutoff(sheet))`, `df_total` equal to `Aggregate(sheet)`
  and `year_list` equal to `YearList(KeepAfterCutoff(sheet))`.
- `views.dfy`: the two callbacks over the aggregated table, with their error
  cases:
  - selecting a column the table lacks raises `KeyError`;
  - a key without a catalogue entry makes `chart_title[0]` raise `IndexError`.
  - Both are modelled as `Result` errors, in the order the script would raise
    them.

Three behaviours of `dashboard.py` differ from what a reader of the dashboard
might expect. The model follows the script:

- The sum-of-sums identities
  (`Total Reservations = Online Reservations + Store Reservations`, and the
  same for `Online Reservations`) hold on each derived row whose components
  are all reported, but not on every aggregated row, because the group sum
  skips missing values. A row whose store count is present but whose online
  counts are missing adds to `Store Reservations` and nothing to
  `Total Reservations` (`SumOfSumsNeedsReportedComponents`). The identities
  are proved for dates whose rows report every component
  (`AggregateSumOfSums`).
- The year-over-year chart draws `year_list` reversed, and `year_list` lists
  years in order of first appearance in the sheet. So the traces come out in
  reverse chronological order when the years first appear in the sheet in
  chronological order, for example when the sheet is sorted by date
  (`YearListOfSortedTable`).
- This revision of the script has no year-range control, and the month-name
  column of `df_total` is called `month`.

## Model

| member | source | states |
|---|---|---|
| Dates.AfterCutoffIsFrom2016 | dashboard.py:15-16 | a date is after 2015-12-31 exactly when its year is 2016 or later |
| Dates.BeforeIsStrictTotalOrder | dashboard.py:36 | the date order used to sort groups is irreflexive, transitive, total and asymmetric |
| Dates.MonthName | dashboard.py:39 | a month's name is one of the twelve English names, at that month's position |
| Dates.MonthNameIdentifiesMonth | dashboard.py:39 | two dates get the same month name exactly when they have the same month number |
| Frame.Coalesce | dashboard.py:27 | `fillna` on one cell: the left value when present, otherwise the right one; present iff either is |
| Frame.Plus | dashboard.py:26 | `+` on one cell: present iff both operands are, and then their sum |
| Frame.SkipNa | dashboard.py:36 | a cell's contribution to a group sum: its value, or 0 when missing |
| Frame.Column | dashboard.py:26-33 | `df[name]` gives one cell per row, row `i` giving its cell of that column |
| Frame.FillNa | dashboard.py:27-31 | series `fillna`: element-wise `Coalesce`, same length |
| Frame.AddSeries | dashboard.py:26 | series `+`: element-wise `Plus`, same length |
| Frame.AppendColumn | dashboard.py:26-33 | assigning a new column keeps each row's date and cells and appends that row's new value |
| Derivation.HeaderShape | dashboard.py:26-33 | 14 sheet columns, 20 columns after derivation, all names distinct |
| Derivation.DerivedNamesAreNew | dashboard.py:26-33 | each derived column is named apart from the sheet columns and the derived columns assigned before it |
| Derivation.TotalEnquiriesOf | dashboard.py:26 | present iff both enquiry counts are, and then their sum |
| Derivation.StoreReservationsOf | dashboard.py:27 | `StoreConversion` when present, otherwise `Stores Res`; present iff either is |
| Derivation.OnlineEnqResOnlineOf | dashboard.py:28 | `OnlineResPurConversion` when present, otherwise `OnlineRes`; present iff either is |
| Derivation.OnlineEnqResInStoreOf | dashboard.py:29-31 | the conversion sum when both conversions are present, otherwise the whole `RES WCF` + `Online Dropouts` sum (missing unless both are present) |
| Derivation.OnlineReservationsOf | dashboard.py:32 | present iff both online components are, and then their sum |
| Derivation.TotalReservationsOf | dashboard.py:33 | present iff online and store reservations are, and then their sum |
| Derivation.Derive | dashboard.py:26-33 | the derived row has 20 cells: the 14 sheet cells unchanged, then each of the six derived cells, as its per-row formula gives it, at its own column of `Header` |
| Derivation.SumOfSums | dashboard.py:32-33 | `Total Reservations` is present iff every component is reported, and then both sum-of-sums identities hold on the row |
| Derivation.InStoreFallbackIsWholeSum | dashboard.py:29-31 | the fallback replaces the whole conversion sum (30), not each addend separately (21) |
| GroupBy.Totals | dashboard.py:36 | a group's first totals are its row's cells with missing values as 0 |
| GroupBy.AddCells | dashboard.py:36 | adding a row to a group adds each cell, missing values as 0 |
| GroupBy.Insert | dashboard.py:36 | adding a row keeps every group's totals as wide as the rows |
| GroupBy.GroupByDate | dashboard.py:36 | every group has one total per column |
| GroupBy.InsertDates | dashboard.py:36 | adding a row adds its date to the set of group dates and nothing else |
| GroupBy.InsertAscending | dashboard.py:36 | adding a row keeps the groups in strictly ascending date order |
| GroupBy.InsertGroupedTotal | dashboard.py:36 | adding a row adds its value to the total of its own date only |
| GroupBy.InsertGrandTotal | dashboard.py:36 | adding a row adds its value to the column's grand total |
| GroupBy.InsertAfterAll | dashboard.py:36 | a row later than every group starts a new last group |
| GroupBy.GroupAscending | dashboard.py:36 | the grouped index is strictly ascending, so each date occurs once |
| GroupBy.GroupDates | dashboard.py:36 | the grouped dates are exactly the dates of the rows |
| GroupBy.GroupDateTotals | dashboard.py:36 | for every date and column, the grouped total is the sum of that column over the rows of that date |
| GroupBy.GroupTotals | dashboard.py:36 | each group's total in each column is the sum over the rows of its date |
| GroupBy.GrandTotalPreserved | dashboard.py:36 | grouping preserves each column's total over the whole table |
| GroupBy.Ungroup | dashboard.py:36 | a grouped table read back as rows has the same dates and totals |
| GroupBy.RegroupAscending | dashboard.py:36 | grouping a table with strictly ascending, distinct dates gives it back unchanged |
| GroupBy.Regroup | dashboard.py:36 | grouping an already grouped table changes nothing |
| GroupBy.DateTotalRemove | dashboard.py:36 | removing one row removes exactly its contribution to its date's sum |
| GroupBy.DateTotalPermutation | dashboard.py:36 | a per-date sum depends only on the multiset of rows |
| GroupBy.RowDatesPermutation | dashboard.py:36 | reordering rows keeps the set of dates |
| GroupBy.AscendingTablesEqual | dashboard.py:36 | two ascending grouped tables with the same dates and totals are equal |
| GroupBy.GroupIgnoresOrder | dashboard.py:36 | two sheets holding the same rows in any order group to the same table |
| GroupBy.DateTotalOfSum | dashboard.py:36 | when a column is the sum of two others on every row of a date, its group total is the sum of their group totals |
| Catalogue.CatalogueShape | dashboard.py:42-52 | ten entries with distinct keys, each key a table column, the first (the default) being `OL Enq less TBD` |
| Catalogue.DefaultValue | dashboard.py:63 | the dropdown's initial value is a catalogue key |
| Catalogue.Matches | dashboard.py:84 | the filtered list holds exactly the entries with that key, the first match first |
| Catalogue.Title | dashboard.py:84-96 | a title exists iff the key has a catalogue entry, and it is that entry's label |
| Catalogue.TitleOfEntry | dashboard.py:42-52 | each catalogue entry's key is titled with its own label |
| Dashboard.KeepAfterCutoff | dashboard.py:16 | the filter keeps only rows of the table, all dated after 2015-12-31 |
| Dashboard.KeepAfterCutoffCounts | dashboard.py:16 | each row after the cutoff is kept as often as it occurs, and every other row is dropped |
| Dashboard.KeepAfterCutoffSplits | dashboard.py:16 | the filter keeps row order: it distributes over concatenation |
| Dashboard.KeepAfterCutoffWidth | dashboard.py:16 | the filter keeps every column |
| Dashboard.CutoffBoundary | dashboard.py:15-16 | a 2015-12-31 row is dropped and a 2016-01-01 row is kept |
| Dashboard.YearList | dashboard.py:22 | `year_list` holds exactly the years of the table's rows, each once |
| Dashboard.Years | dashboard.py:22 | the year of each row's date, row by row |
| Dashboard.Unique | dashboard.py:22 | `.unique()`: the same values without repetition |
| Dashboard.UniqueKeepsFirstAppearance | dashboard.py:22 | `.unique()` lists values in order of first appearance |
| Dashboard.UniqueOfSortedIsAscending | dashboard.py:22 | on sorted input, `.unique()` is strictly ascending |
| Dashboard.YearListOfSortedTable | dashboard.py:22 | for a date-sorted sheet, `year_list` is strictly ascending |
| Dashboard.DeriveAll | dashboard.py:26-33 | each row keeps its date and gains the six derived cells |
| Dashboard.Tag | dashboard.py:37-39 | each grouped row keeps its date and totals and gets its date's year and month name |
| Dashboard.ColumnsAfterAppend | dashboard.py:26-33 | assigning a new column leaves the earlier columns readable unchanged and makes the new one readable |
| Dashboard.DeriveByColumns | dashboard.py:26-33 | the six column assignments, each reading the columns made before it, give `DeriveAll` of the filtered table |
| Dashboard.DeriveRowByColumns | dashboard.py:26-33 | after the six assignments, each row is the row derived by the per-row formulas |
| Dashboard.KeptDates | dashboard.py:16 | the filtered dates are the sheet's dates after the cutoff |
| Dashboard.TagDates | dashboard.py:37-39 | tagging keeps the set of dates |
| Dashboard.DeriveAllDates | dashboard.py:26-33 | deriving columns keeps the set of dates |
| Dashboard.Aggregate | dashboard.py:16-39 | every `df_total` row has a total for each of the 20 columns, and its date's year and month name as tags |
| Dashboard.AggregateDateSet | dashboard.py:36-39 | `df_total`'s dates are the filtered sheet's dates |
| Dashboard.AggregateDates | dashboard.py:16-39 | `df_total` has one row per sheet date after the cutoff, in strictly ascending order |
| Dashboard.AggregateTotals | dashboard.py:36 | each `df_total` cell is the sum of that column over the derived rows of its date |
| Dashboard.AggregateSumOfSums | dashboard.py:32-36 | when every row of a date reports all components, the sum-of-sums identities hold on that date's totals |
| Dashboard.AggregateTotalEnquiries | dashboard.py:26-36 | when every row of a date has both enquiry counts, that date's `Total Enquiries` is the sum of the two count totals |
| Dashboard.SumOfSumsNeedsReportedComponents | dashboard.py:27-36 | one row with only a store count gives `Store Reservations` 5 but `Total Reservations` 0 |
| Dashboard.SameDateRowsMerge | dashboard.py:26-36 | two rows of one date (5+3 and 2+1 enquiries) become one row with 11 total enquiries |
| Dashboard.AggregateYears | dashboard.py:37 | each `df_total` row's year is its date's year |
| Dashboard.ListedYearHasRows | dashboard.py:22-37 | every year of `year_list` has a row in `df_total` |
| Dashboard.RowYearIsListed | dashboard.py:22-37 | every `df_total` row's year is in `year_list` |
| Dashboard.YearListMatchesTable | dashboard.py:22-37 | a year is listed exactly when some `df_total` row has it |
| Dashboard.Pipeline.Load | dashboard.py:10-12 | the loaded table has the 14 sheet columns and nothing is computed yet |
| Dashboard.Pipeline.FilterByCutoff | dashboard.py:16 | `df` becomes the filtered `df` |
| Dashboard.Pipeline.CollectYears | dashboard.py:22 | `year_list` becomes the unique years of `df` |
| Dashboard.Pipeline.AssignColumn | dashboard.py:26 | `df[name] = values` for a new column name appends the name and a value to every row |
| Dashboard.Pipeline.AddDerivedColumns | dashboard.py:26-33 | after the six assignments the columns are the full header and `df` is the derived table |
| Dashboard.Pipeline.AggregateByDate | dashboard.py:36 | `df_total` becomes the per-date sum of all columns of `df` |
| Dashboard.Pipeline.TagYearAndMonth | dashboard.py:37-39 | `df_total` gains a year and a month-name column, equal to tagging it |
| Dashboard.Pipeline.Table | dashboard.py:36-39 | the rows of `df_total` with their tags, one per group |
| Dashboard.Prepare | dashboard.py:10-33 | loading, filtering, listing years and deriving leave `df` derived from the filtered sheet and `year_list` its years |
| Dashboard.Startup | dashboard.py:10-39 | the start-up script leaves `df` derived from the filtered sheet with the full header, `df_total` equal to `Aggregate(sheet)` and `year_list` equal to the filtered sheet's years |
| Views.ColumnIndex | dashboard.py:90 | `df_total[key]` finds a column iff the key is one of the 20 column names, at that name's position |
| Views.IndexDates | dashboard.py:89 | `df_total.index`: the dates of the rows, in order |
| Views.ColumnValues | dashboard.py:90 | one column's totals, row by row |
| Views.YearRows | dashboard.py:116 | the rows of `df_total` with that year, and only those, no more of them than the table has, as wide as the table's |
| Views.YearRowsSplits | dashboard.py:116 | the year mask keeps table order: it distributes over concatenation |
| Views.YearRowsKeepOrder | dashboard.py:116 | two rows of the same year are kept in their table order |
| Views.Reversed | dashboard.py:113 | `year_list[::-1]` |
| Views.MonthColumn | dashboard.py:115 | `df_total['month']`, row by row |
| Views.AsWrittenYearTrace | dashboard.py:114-120 | the script's trace is named by its year, has the month label of every row of the whole table, and has the same values as the corrected trace, the selected column of that year's rows |
| Views.AsWrittenTraceMisplacesPoints | dashboard.py:114-120 | the script's 2017 trace pairs its one February value with two month labels, the first being "January" |
| Views.YearTrace | dashboard.py:114-120 | a trace named by its year, with one month label and one value per row of that year |
| Views.YearTracePoints | dashboard.py:114-120 | each point of a year's trace is the (month, value) pair of a row of that year, and every row of that year is a point |
| Views.Traces | dashboard.py:112-121 | one trace per listed year |
| Views.TracesAt | dashboard.py:112-121 | trace `k` belongs to year `k` |
| Views.CatalogueKeysAreColumns | dashboard.py:42-52 | every catalogue key is a column; no match iff no title; the title is the first match's label |
| Views.UpdateGraph | dashboard.py:82-103 | drawn iff the key has a catalogue entry; `KeyError` iff the key is not a column; `IndexError` iff it is a column without a catalogue entry; the figure plots that column against the dates under the entry's label |
| Views.CollectTraces | dashboard.py:112-121 | `KeyError` iff some year is listed and the key is not a column; otherwise one trace per year, in order |
| Views.UpdateChartYoy | dashboard.py:108-131 | drawn iff the key has a title; `KeyError` iff a year is listed and the key is not a column; `IndexError` iff the key has no title and no `KeyError` came first; trace `k` belongs to the `k`-th year from the end of `year_list` |
| Views.AggregateWidth | dashboard.py:36 | every `df_total` row has a total for each column |
| Views.TrendOfAggregate | dashboard.py:82-103 | for a catalogue key, the trend chart of the start-up table is drawn, with strictly ascending dates after the cutoff and per-date sums as values |
| Views.ListedYearsHavePoints | dashboard.py:113-116 | every listed year's rows are non-empty and are rows of `df_total` with that year |

## Findings

| source | as written | input that shows it | evidently intended | confidence | as-written member | corrected member |
|---|---|---|---|---|---|---|
| dashboard.py:115-116 | each year's trace takes `x` from the month column of all of `df_total` and `y` from that year's rows only | `df_total` rows for 2016-01-05 and 2017-02-03: the 2017 trace has x = [January, February], y = [its February value], so the value is plotted at January | `x` from the same year's rows, so that each value sits at its own month | medium, not executed | Views.AsWrittenTraceMisplacesPoints | Views.YearTrace |

The as-written trace is `Views.AsWrittenYearTrace`. `Views.UpdateChartYoy`
and the other lemmas use the corrected `Views.YearTrace`.

## Left out

- Reading the Excel workbook and turning `"NA"` cells into missing values (dashboard.py:10-12) is I/O. The sheet is a parameter of `Pipeline.Load` and `Startup`, with missing cells already `None`.
- Converting `Date` to a datetime column (dashboard.py:19) changes no value in the model. Dates are calendar dates without a time of day. So two timestamps on the same day that pandas would keep apart are merged into one group. The cutoff moves too: pandas keeps a 2015-12-31 timestamp with a time of day after midnight, because it is later than `datetime(2015,12,31)`, while the model drops every 2015-12-31 row. Rows without a date are not modelled either, since every row carries a calendar date: pandas reads an empty `Date` cell as `NaT`, and the filter at dashboard.py:16 drops such a row because `NaT > datetime(2015,12,31)` is false.
- `month_list` (dashboard.py:23) is computed but never read by the script, so it is not modelled.
- The Dash app, its layout and the callback wiring (dashboard.py:54-81, 106-107, 134-135) are not modelled. This includes serving the page and the axis formatting, markers and hover mode of the figures. The model keeps only what each figure plots and its title.
- Cell values are unbounded integers, not float64. Rounding and non-integer counts are not modelled.
- The sheet is assumed to have the fixed schema of the fourteen numeric columns the script reads (the `Width(sheet, RawWidth)` precondition of `Pipeline.Load`, `Prepare`, `Startup` and `Aggregate`). The script's `KeyError` when a derivation input is missing (dashboard.py:26-31) is not modelled. Nor is the case of a sheet that lacks a column only the catalogue names, such as `StResWalkin`, where start-up succeeds and only that key's callbacks fail (dashboard.py:90, 116).
- Sheet columns other than the fourteen the script reads, and the non-numeric columns that the group sum drops, are not modelled.
- Views.ColumnIndex: only the 20 named columns are selectable. In the script, the keys `year` and `month` would also select the tag columns of `df_total`; here they give `KeyError`. No catalogue entry uses them.
- Views.UpdateChartYoy: it draws the corrected traces of `Views.YearTrace` (see Findings), not the script's traces as written.
- Dashboard.Pipeline.TagYearAndMonth: the month names are the English ones pandas uses by default. Other locales are not modelled.
