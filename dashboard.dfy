/**
 * The start-up pipeline of the dashboard script: the loaded sheet is cut to
 * rows after 2015-12-31, the list of years is taken, six derived columns are
 * added, the rows are summed per date and each date is tagged with its year
 * and month name. The script keeps every stage in module-level variables;
 * here they are the fields of `Pipeline`. Its methods are the start-up steps
 * (loading, the cutoff filter, `year_list`, one assignment per derived column,
 * the group sum and one step for the year and month tags), each specified by
 * the pure functions defined first. The datetime conversion changes no value
 * here and `month_list` is never read, so neither has a method.
 */
module Dashboard {
  import opened Wrappers
  import opened Dates
  import opened Frame
  import opened Derivation
  import opened GroupBy

  // The cutoff filter.

  /** `df[df['Date'] > datetime(2015, 12, 31)]`. */
  function KeepAfterCutoff(t: seq<Row>): (r: seq<Row>)
    ensures |r| <= |t|
    ensures forall i :: 0 <= i < |r| ==> r[i] in t && AfterCutoff(r[i].date)
  {
    if t == [] then []
    else
      var last := t[|t| - 1];
      KeepAfterCutoff(t[..|t| - 1]) + (if AfterCutoff(last.date) then [last] else [])
  }

  /**
   * The filter keeps exactly the rows dated after the cutoff, each as often
   * as it occurs in the input, and drops every other row.
   */
  lemma {:induction false} KeepAfterCutoffCounts(t: seq<Row>, x: Row)
    ensures multiset(KeepAfterCutoff(t))[x] == if AfterCutoff(x.date) then multiset(t)[x] else 0
  {
    if t != [] {
      var init := t[..|t| - 1];
      var last := t[|t| - 1];
      assert t == init + [last];
      KeepAfterCutoffCounts(init, x);
    }
  }

  /** The filter keeps rows in their original order: it distributes over concatenation. */
  lemma {:induction false} KeepAfterCutoffSplits(a: seq<Row>, b: seq<Row>)
    ensures KeepAfterCutoff(a + b) == KeepAfterCutoff(a) + KeepAfterCutoff(b)
    decreases |b|
  {
    if b != [] {
      var binit := b[..|b| - 1];
      var last := b[|b| - 1];
      var tail := if AfterCutoff(last.date) then [last] else [];
      assert (a + b)[..|a + b| - 1] == a + binit;
      assert (a + b)[|a + b| - 1] == last;
      assert KeepAfterCutoff(a + b) == KeepAfterCutoff(a + binit) + tail;
      KeepAfterCutoffSplits(a, binit);
      assert KeepAfterCutoff(b) == KeepAfterCutoff(binit) + tail;
      assert KeepAfterCutoff(a) + KeepAfterCutoff(binit) + tail == KeepAfterCutoff(a) + (KeepAfterCutoff(binit) + tail);
    } else {
      assert a + b == a;
    }
  }

  /** The filter keeps the width of the rows. */
  lemma KeepAfterCutoffWidth(t: seq<Row>, n: nat)
    requires Width(t, n)
    ensures Width(KeepAfterCutoff(t), n)
  {
    var r := KeepAfterCutoff(t);
    forall i | 0 <= i < |r| ensures |r[i].cells| == n {
      var m :| 0 <= m < |t| && t[m] == r[i];
    }
  }

  /** A row dated 2015-12-31 is dropped and a row dated 2016-01-01 is kept. */
  lemma CutoffBoundary(cells: seq<Cell>)
    ensures KeepAfterCutoff([Row(Date(2015, 12, 31), cells), Row(Date(2016, 1, 1), cells)])
            == [Row(Date(2016, 1, 1), cells)]
  {
    var a := Row(Date(2015, 12, 31), cells);
    var b := Row(Date(2016, 1, 1), cells);
    assert [a, b][..1] == [a];
    assert [a][..0] == [];
  }

  // The list of years.

  /** `pd.DatetimeIndex(df['Date']).year`. */
  function Years(t: seq<Row>): (y: seq<int>)
    ensures |y| == |t|
    ensures forall i :: 0 <= i < |t| ==> y[i] == t[i].date.year
  {
    seq(|t|, i requires 0 <= i < |t| => t[i].date.year)
  }

  /** `.unique()`: the distinct values of `s` in first-appearance order. */
  function Unique(s: seq<int>): (u: seq<int>)
    ensures forall x :: x in u <==> x in s
    ensures forall i, k :: 0 <= i < k < |u| ==> u[i] != u[k]
  {
    if s == [] then []
    else
      var prev := Unique(s[..|s| - 1]);
      var x := s[|s| - 1];
      assert s == s[..|s| - 1] + [x];
      if x in prev then prev else prev + [x]
  }

  /** `year_list`: the years of the filtered table, each once, in first-appearance order. */
  function YearList(t: seq<Row>): (r: seq<int>)
    ensures forall y :: y in r <==> exists i :: 0 <= i < |t| && t[i].date.year == y
    ensures forall i, k :: 0 <= i < k < |r| ==> r[i] != r[k]
  {
    Unique(Years(t))
  }

  /**
   * First-appearance order: for two entries of `Unique(s)`, the earlier one
   * occurs in `s` before any occurrence of the later one.
   */
  lemma {:induction false} UniqueKeepsFirstAppearance(s: seq<int>, i: nat, k: nat)
    requires i < k < |Unique(s)|
    ensures exists p :: 0 <= p < |s| && s[p] == Unique(s)[i] && forall q :: 0 <= q <= p ==> s[q] != Unique(s)[k]
  {
    var init := s[..|s| - 1];
    var prev := Unique(init);
    var x := s[|s| - 1];
    var u := Unique(s);
    if k < |prev| {
      assert u[i] == prev[i] && u[k] == prev[k];
      UniqueKeepsFirstAppearance(init, i, k);
      var p :| 0 <= p < |init| && init[p] == prev[i] && forall q :: 0 <= q <= p ==> init[q] != prev[k];
      assert s[p] == u[i];
      forall q | 0 <= q <= p ensures s[q] != u[k] { assert s[q] == init[q]; }
    } else {
      assert u[k] == x && x !in prev && u[i] == prev[i];
      assert prev[i] in init;
      var p :| 0 <= p < |init| && init[p] == prev[i];
      forall q | 0 <= q <= p ensures s[q] != u[k] { assert s[q] == init[q] && init[q] in init; }
    }
  }

  /** For non-decreasing input, `Unique` lists the values in strictly increasing order. */
  lemma {:induction false} UniqueOfSortedIsAscending(s: seq<int>)
    requires forall i, k :: 0 <= i < k < |s| ==> s[i] <= s[k]
    ensures forall i, k :: 0 <= i < k < |Unique(s)| ==> Unique(s)[i] < Unique(s)[k]
  {
    if s != [] {
      var init := s[..|s| - 1];
      var x := s[|s| - 1];
      UniqueOfSortedIsAscending(init);
      var prev := Unique(init);
      forall i | 0 <= i < |prev| ensures prev[i] <= x {
        assert prev[i] in init;
      }
    }
  }

  /** Rows sorted by date give `year_list` in strictly increasing order. */
  lemma YearListOfSortedTable(t: seq<Row>)
    requires forall i, k :: 0 <= i < k < |t| ==> !Before(t[k].date, t[i].date)
    ensures forall i, k :: 0 <= i < k < |YearList(t)| ==> YearList(t)[i] < YearList(t)[k]
  {
    var y := Years(t);
    forall i, k | 0 <= i < k < |y| ensures y[i] <= y[k] {
      assert !Before(t[k].date, t[i].date);
    }
    UniqueOfSortedIsAscending(y);
  }

  // Derivation and tagging as table functions.

  /** The six column assignments applied to every row. */
  function DeriveAll(t: seq<Row>): (r: seq<Row>)
    requires Width(t, RawWidth)
    ensures |r| == |t| && Width(r, FullWidth)
    ensures forall i :: 0 <= i < |t| ==> r[i] == Row(t[i].date, Derive(t[i].cells))
  {
    seq(|t|, i requires 0 <= i < |t| => Row(t[i].date, Derive(t[i].cells)))
  }

  /** `df_total['month']` before and after its conversion to a month name. */
  datatype MonthCell = Number(number: Month) | Name(name: string)

  /** A row of the final `df_total`: date, column totals, `year` and `month`. */
  datatype AggRow = AggRow(date: Date, totals: seq<int>, year: int, month: string)

  /** `df_total` with its `year` and `month` columns. */
  function Tag(g: seq<Group>): (r: seq<AggRow>)
    ensures |r| == |g|
    ensures forall k :: 0 <= k < |g| ==>
              r[k].date == g[k].date && r[k].totals == g[k].totals
              && r[k].year == g[k].date.year && r[k].month == MonthName(g[k].date.month)
  {
    seq(|g|, k requires 0 <= k < |g| =>
      AggRow(g[k].date, g[k].totals, g[k].date.year, MonthName(g[k].date.month)))
  }

  /** The table the charts read, computed from the loaded sheet. */
  function Aggregate(sheet: seq<Row>): (r: seq<AggRow>)
    requires Width(sheet, RawWidth)
    ensures forall k :: 0 <= k < |r| ==>
              |r[k].totals| == FullWidth && r[k].year == r[k].date.year && r[k].month == MonthName(r[k].date.month)
  {
    Tag(GroupByDate(DeriveAll(KeepAfterCutoff(sheet)), FullWidth))
  }

  /**
   * Appending column `v` to a table of `n` columns keeps its earlier
   * columns and makes `v` column `n`.
   */
  lemma ColumnsAfterAppend(t: seq<Row>, n: nat, v: seq<Cell>)
    requires Width(t, n) && |v| == |t|
    ensures Width(AppendColumn(t, v), n + 1)
    ensures forall j :: 0 <= j < n ==> Column(AppendColumn(t, v), j) == Column(t, j)
    ensures Column(AppendColumn(t, v), n) == v
  {
    var r := AppendColumn(t, v);
    forall j | 0 <= j < n ensures Column(r, j) == Column(t, j) {
      assert forall i :: 0 <= i < |t| ==> r[i].cells[j] == t[i].cells[j];
    }
  }

  /**
   * The script's six column assignments, each reading the columns present at
   * that point, produce exactly the derived rows of `DeriveAll`.
   */
  lemma DeriveByColumns(raw: seq<Row>)
    requires Width(raw, RawWidth)
    ensures var df1 := AppendColumn(raw, AddSeries(Column(raw, OlEnqLessTbd), Column(raw, StoreEnqLessTbd)));
            HasColumn(df1, StoresRes) &&
            var df2 := AppendColumn(df1, FillNa(Column(df1, StoreConversion), Column(df1, StoresRes)));
            HasColumn(df2, OnlineRes) &&
            var df3 := AppendColumn(df2, FillNa(Column(df2, OnlineResPurConversion), Column(df2, OnlineRes)));
            HasColumn(df3, OnlineDropouts) &&
            var df4 := AppendColumn(df3, FillNa(AddSeries(Column(df3, OnlineDropOutConversion), Column(df3, WcfConversion)),
                                                AddSeries(Column(df3, ResWcf), Column(df3, OnlineDropouts))));
            HasColumn(df4, OnlineEnqResInStore) &&
            var df5 := AppendColumn(df4, AddSeries(Column(df4, OnlineEnqResOnline), Column(df4, OnlineEnqResInStore)));
            HasColumn(df5, OnlineReservations) &&
            AppendColumn(df5, AddSeries(Column(df5, OnlineReservations), Column(df5, StoreReservations))) == DeriveAll(raw)
  {
    var df1 := AppendColumn(raw, AddSeries(Column(raw, OlEnqLessTbd), Column(raw, StoreEnqLessTbd)));
    ColumnsAfterAppend(raw, RawWidth, AddSeries(Column(raw, OlEnqLessTbd), Column(raw, StoreEnqLessTbd)));
    var df2 := AppendColumn(df1, FillNa(Column(df1, StoreConversion), Column(df1, StoresRes)));
    ColumnsAfterAppend(df1, RawWidth + 1, FillNa(Column(df1, StoreConversion), Column(df1, StoresRes)));
    var df3 := AppendColumn(df2, FillNa(Column(df2, OnlineResPurConversion), Column(df2, OnlineRes)));
    ColumnsAfterAppend(df2, RawWidth + 2, FillNa(Column(df2, OnlineResPurConversion), Column(df2, OnlineRes)));
    var v4 := FillNa(AddSeries(Column(df3, OnlineDropOutConversion), Column(df3, WcfConversion)),
                     AddSeries(Column(df3, ResWcf), Column(df3, OnlineDropouts)));
    var df4 := AppendColumn(df3, v4);
    ColumnsAfterAppend(df3, RawWidth + 3, v4);
    var v5 := AddSeries(Column(df4, OnlineEnqResOnline), Column(df4, OnlineEnqResInStore));
    var df5 := AppendColumn(df4, v5);
    ColumnsAfterAppend(df4, RawWidth + 4, v5);
    var v6 := AddSeries(Column(df5, OnlineReservations), Column(df5, StoreReservations));
    var df6 := AppendColumn(df5, v6);
    forall i | 0 <= i < |raw| ensures df6[i] == Row(raw[i].date, Derive(raw[i].cells)) {
      DeriveRowByColumns(raw, df1, df2, df3, df4, df5, df6, i);
    }
  }

  /** One row of `DeriveByColumns`. */
  lemma DeriveRowByColumns(raw: seq<Row>, df1: seq<Row>, df2: seq<Row>, df3: seq<Row>,
                           df4: seq<Row>, df5: seq<Row>, df6: seq<Row>, i: nat)
    requires Width(raw, RawWidth) && i < |raw|
    requires df1 == AppendColumn(raw, AddSeries(Column(raw, OlEnqLessTbd), Column(raw, StoreEnqLessTbd)))
    requires Width(df1, RawWidth + 1)
    requires df2 == AppendColumn(df1, FillNa(Column(df1, StoreConversion), Column(df1, StoresRes)))
    requires Width(df2, RawWidth + 2)
    requires df3 == AppendColumn(df2, FillNa(Column(df2, OnlineResPurConversion), Column(df2, OnlineRes)))
    requires Width(df3, RawWidth + 3)
    requires df4 == AppendColumn(df3, FillNa(AddSeries(Column(df3, OnlineDropOutConversion), Column(df3, WcfConversion)),
                                             AddSeries(Column(df3, ResWcf), Column(df3, OnlineDropouts))))
    requires Width(df4, RawWidth + 4)
    requires df5 == AppendColumn(df4, AddSeries(Column(df4, OnlineEnqResOnline), Column(df4, OnlineEnqResInStore)))
    requires Width(df5, RawWidth + 5)
    requires df6 == AppendColumn(df5, AddSeries(Column(df5, OnlineReservations), Column(df5, StoreReservations)))
    ensures df6[i] == Row(raw[i].date, Derive(raw[i].cells))
  {
    var c := raw[i].cells;
    assert df1[i].cells == c + [TotalEnquiriesOf(c)];
    assert df2[i].cells == df1[i].cells + [StoreReservationsOf(c)];
    assert df3[i].cells == df2[i].cells + [OnlineEnqResOnlineOf(c)];
    assert df4[i].cells == df3[i].cells + [OnlineEnqResInStoreOf(c)];
    assert df5[i].cells == df4[i].cells + [OnlineReservationsOf(c)];
    assert df6[i].cells == df5[i].cells + [TotalReservationsOf(c)];
  }

  // Properties of the aggregated table.

  /** The filter keeps exactly the dates after the cutoff. */
  lemma KeptDates(sheet: seq<Row>)
    ensures forall d :: d in RowDates(KeepAfterCutoff(sheet)) <==> d in RowDates(sheet) && AfterCutoff(d)
  {
    var f := KeepAfterCutoff(sheet);
    forall d | d in RowDates(f) ensures d in RowDates(sheet) {
      var i :| 0 <= i < |f| && f[i].date == d;
      var m :| 0 <= m < |sheet| && sheet[m] == f[i];
    }
    forall d | d in RowDates(sheet) && AfterCutoff(d) ensures d in RowDates(f) {
      var i :| 0 <= i < |sheet| && sheet[i].date == d;
      KeepAfterCutoffCounts(sheet, sheet[i]);
      assert sheet[i] in multiset(f);
      var m :| 0 <= m < |f| && f[m] == sheet[i];
    }
  }

  /** Tagging keeps the dates of the groups. */
  lemma TagDates(g: seq<Group>)
    ensures TableDates(Tag(g)) == DateSet(g)
  {
    var a := Tag(g);
    forall d | d in DateSet(g) ensures d in TableDates(a) {
      var k :| 0 <= k < |g| && g[k].date == d;
      assert a[k].date == d;
    }
    forall d | d in TableDates(a) ensures d in DateSet(g) {
      var k :| 0 <= k < |a| && a[k].date == d;
      assert g[k].date == d;
    }
  }

  /** Deriving columns keeps the dates of the rows. */
  lemma DeriveAllDates(t: seq<Row>)
    requires Width(t, RawWidth)
    ensures RowDates(DeriveAll(t)) == RowDates(t)
  {
    var r := DeriveAll(t);
    forall d | d in RowDates(t) ensures d in RowDates(r) {
      var i :| 0 <= i < |t| && t[i].date == d;
      assert r[i].date == d;
    }
    forall d | d in RowDates(r) ensures d in RowDates(t) {
      var i :| 0 <= i < |r| && r[i].date == d;
      assert t[i].date == d;
    }
  }

  lemma AggregateDateSet(sheet: seq<Row>)
    requires Width(sheet, RawWidth)
    ensures TableDates(Aggregate(sheet)) == DateSet(GroupByDate(DeriveAll(KeepAfterCutoff(sheet)), FullWidth))
    ensures TableDates(Aggregate(sheet)) == RowDates(KeepAfterCutoff(sheet))
  {
    var f := KeepAfterCutoff(sheet);
    var dr := DeriveAll(f);
    var g := GroupByDate(dr, FullWidth);
    assert Aggregate(sheet) == Tag(g);
    TagDates(g);
    GroupDates(dr, FullWidth);
    DeriveAllDates(f);
  }

  /**
   * The aggregated table has one row per distinct date of the sheet that is
   * after the cutoff, in strictly ascending date order; no row dated on or
   * before 2015-12-31 reaches it.
   */
  lemma AggregateDates(sheet: seq<Row>)
    requires Width(sheet, RawWidth)
    ensures forall k, m :: 0 <= k < m < |Aggregate(sheet)| ==> Before(Aggregate(sheet)[k].date, Aggregate(sheet)[m].date)
    ensures forall k :: 0 <= k < |Aggregate(sheet)| ==> AfterCutoff(Aggregate(sheet)[k].date)
    ensures forall d :: d in TableDates(Aggregate(sheet)) <==> d in RowDates(sheet) && AfterCutoff(d)
  {
    var a := Aggregate(sheet);
    GroupAscending(DeriveAll(KeepAfterCutoff(sheet)), FullWidth);
    AggregateDateSet(sheet);
    KeptDates(sheet);
    forall k | 0 <= k < |a| ensures AfterCutoff(a[k].date) {
      assert a[k].date in TableDates(a);
    }
  }

  /** The dates of an aggregated table. */
  function TableDates(a: seq<AggRow>): set<Date>
  {
    set k | 0 <= k < |a| :: a[k].date
  }

  /**
   * Each aggregated row holds, in every column, the sum over the derived
   * rows of its date, missing cells counted as 0.
   */
  lemma AggregateTotals(sheet: seq<Row>, k: nat, j: nat)
    requires Width(sheet, RawWidth) && k < |Aggregate(sheet)| && j < FullWidth
    ensures |Aggregate(sheet)[k].totals| == FullWidth
    ensures Aggregate(sheet)[k].totals[j] == DateTotal(DeriveAll(KeepAfterCutoff(sheet)), Aggregate(sheet)[k].date, j)
  {
    GroupTotals(DeriveAll(KeepAfterCutoff(sheet)), FullWidth, k, j);
  }

  /**
   * The sum-of-sums identities hold for an aggregated row when every sheet
   * row of its date reports all reservation components.
   */
  lemma AggregateSumOfSums(sheet: seq<Row>, k: nat)
    requires Width(sheet, RawWidth) && k < |Aggregate(sheet)|
    requires forall i :: 0 <= i < |sheet| && sheet[i].date == Aggregate(sheet)[k].date ==>
               ReservationsReported(sheet[i].cells)
    ensures var t := Aggregate(sheet)[k].totals;
            |t| == FullWidth
            && t[OnlineReservations] == t[OnlineEnqResOnline] + t[OnlineEnqResInStore]
            && t[TotalReservations] == t[OnlineReservations] + t[StoreReservations]
  {
    var f := KeepAfterCutoff(sheet);
    var dr := DeriveAll(f);
    var d := Aggregate(sheet)[k].date;
    forall i | 0 <= i < |dr| && dr[i].date == d
      ensures var c := dr[i].cells;
              SkipNa(c[OnlineReservations]) == SkipNa(c[OnlineEnqResOnline]) + SkipNa(c[OnlineEnqResInStore])
              && SkipNa(c[TotalReservations]) == SkipNa(c[OnlineReservations]) + SkipNa(c[StoreReservations])
    {
      var m :| 0 <= m < |sheet| && sheet[m] == f[i];
      SumOfSums(f[i].cells);
    }
    DateTotalOfSum(dr, d, OnlineReservations, OnlineEnqResOnline, OnlineEnqResInStore);
    DateTotalOfSum(dr, d, TotalReservations, OnlineReservations, StoreReservations);
    AggregateTotals(sheet, k, OnlineReservations);
    AggregateTotals(sheet, k, OnlineEnqResOnline);
    AggregateTotals(sheet, k, OnlineEnqResInStore);
    AggregateTotals(sheet, k, TotalReservations);
    AggregateTotals(sheet, k, StoreReservations);
  }

  /**
   * `Total Enquiries` of an aggregated row is the sum of its online and store
   * enquiries when every sheet row of its date reports both.
   */
  lemma AggregateTotalEnquiries(sheet: seq<Row>, k: nat)
    requires Width(sheet, RawWidth) && k < |Aggregate(sheet)|
    requires forall i :: 0 <= i < |sheet| && sheet[i].date == Aggregate(sheet)[k].date ==>
               sheet[i].cells[OlEnqLessTbd].Some? && sheet[i].cells[StoreEnqLessTbd].Some?
    ensures var t := Aggregate(sheet)[k].totals;
            |t| == FullWidth && t[TotalEnquiries] == t[OlEnqLessTbd] + t[StoreEnqLessTbd]
  {
    var f := KeepAfterCutoff(sheet);
    var dr := DeriveAll(f);
    var d := Aggregate(sheet)[k].date;
    forall i | 0 <= i < |dr| && dr[i].date == d
      ensures SkipNa(dr[i].cells[TotalEnquiries]) == SkipNa(dr[i].cells[OlEnqLessTbd]) + SkipNa(dr[i].cells[StoreEnqLessTbd])
    {
      var m :| 0 <= m < |sheet| && sheet[m] == f[i];
      assert dr[i].cells[..RawWidth] == f[i].cells;
      assert dr[i].cells[OlEnqLessTbd] == f[i].cells[OlEnqLessTbd];
      assert dr[i].cells[StoreEnqLessTbd] == f[i].cells[StoreEnqLessTbd];
    }
    DateTotalOfSum(dr, d, TotalEnquiries, OlEnqLessTbd, StoreEnqLessTbd);
    AggregateTotals(sheet, k, TotalEnquiries);
    AggregateTotals(sheet, k, OlEnqLessTbd);
    AggregateTotals(sheet, k, StoreEnqLessTbd);
  }

  /**
   * Without its precondition the identity fails: a day whose only row reports
   * a store conversion count but no online reservations sums `Store
   * Reservations` to 5 while `Total Reservations` (missing on that row) sums
   * to 0.
   */
  lemma SumOfSumsNeedsReportedComponents()
    ensures var cells := [None, None, Some(5), None, None, None, None, None, None, None, None, None, None, None];
            var t := GroupByDate(DeriveAll([Row(Date(2016, 3, 1), cells)]), FullWidth)[0].totals;
            t[TotalReservations] == 0 && t[OnlineReservations] == 0 && t[StoreReservations] == 5
  {
    var cells := [None, None, Some(5), None, None, None, None, None, None, None, None, None, None, None];
    var t := [Row(Date(2016, 3, 1), cells)];
    assert t[..0] == [];
    assert DeriveAll(t)[..0] == [];
  }

  /**
   * Two sheet rows of 2016-03-01 with 5 + 3 and 2 + 1 online and store
   * enquiries become a single aggregated row with 11 total enquiries.
   */
  lemma SameDateRowsMerge(c1: seq<Cell>, c2: seq<Cell>)
    requires |c1| == RawWidth && |c2| == RawWidth
    requires c1[OlEnqLessTbd] == Some(5) && c1[StoreEnqLessTbd] == Some(3)
    requires c2[OlEnqLessTbd] == Some(2) && c2[StoreEnqLessTbd] == Some(1)
    ensures var a := Aggregate([Row(Date(2016, 3, 1), c1), Row(Date(2016, 3, 1), c2)]);
            |a| == 1 && a[0].date == Date(2016, 3, 1) && a[0].totals[TotalEnquiries] == 11
  {
    var d := Date(2016, 3, 1);
    var r1, r2 := Row(d, c1), Row(d, c2);
    var sheet := [r1, r2];
    assert AfterCutoff(d);
    assert sheet[..1] == [r1] && [r1][..0] == [];
    assert KeepAfterCutoff([r1]) == [r1];
    assert KeepAfterCutoff(sheet) == sheet;
    var dr := DeriveAll(sheet);
    var e1, e2 := dr[0], dr[1];
    assert dr[..1] == [e1] && [e1][..0] == [];
    assert GroupByDate([e1], FullWidth) == [Group(d, Totals(e1.cells))];
    assert GroupByDate(dr, FullWidth) == [Group(d, AddCells(Totals(e1.cells), e2.cells))];
    assert e1.cells[TotalEnquiries] == Some(8) && e2.cells[TotalEnquiries] == Some(3);
  }

  /** Each aggregated row is tagged with the year of its date. */
  lemma AggregateYears(sheet: seq<Row>)
    requires Width(sheet, RawWidth)
    ensures forall k :: 0 <= k < |Aggregate(sheet)| ==> Aggregate(sheet)[k].year == Aggregate(sheet)[k].date.year
  {
    var g := GroupByDate(DeriveAll(KeepAfterCutoff(sheet)), FullWidth);
    assert Aggregate(sheet) == Tag(g);
  }

  /** A year of `year_list` is the year of some aggregated row. */
  lemma ListedYearHasRows(sheet: seq<Row>, y: int)
    requires Width(sheet, RawWidth) && y in YearList(KeepAfterCutoff(sheet))
    ensures exists k :: 0 <= k < |Aggregate(sheet)| && Aggregate(sheet)[k].year == y
  {
    var f := KeepAfterCutoff(sheet);
    var a := Aggregate(sheet);
    AggregateDateSet(sheet);
    AggregateYears(sheet);
    var i :| 0 <= i < |f| && Years(f)[i] == y;
    assert f[i].date in TableDates(a);
    var k :| 0 <= k < |a| && a[k].date == f[i].date;
    assert a[k].year == y;
  }

  /** The year of an aggregated row is listed in `year_list`. */
  lemma RowYearIsListed(sheet: seq<Row>, k: nat)
    requires Width(sheet, RawWidth) && k < |Aggregate(sheet)|
    ensures Aggregate(sheet)[k].year in YearList(KeepAfterCutoff(sheet))
  {
    var f := KeepAfterCutoff(sheet);
    var a := Aggregate(sheet);
    AggregateDateSet(sheet);
    AggregateYears(sheet);
    assert a[k].date in TableDates(a);
    var i :| 0 <= i < |f| && f[i].date == a[k].date;
    assert Years(f)[i] == a[k].year;
  }

  /** Every year of `year_list` has aggregated rows, and every aggregated row's year is listed. */
  lemma YearListMatchesTable(sheet: seq<Row>)
    requires Width(sheet, RawWidth)
    ensures forall y :: y in YearList(KeepAfterCutoff(sheet)) <==>
                        exists k :: 0 <= k < |Aggregate(sheet)| && Aggregate(sheet)[k].year == y
  {
    forall y | y in YearList(KeepAfterCutoff(sheet))
      ensures exists k :: 0 <= k < |Aggregate(sheet)| && Aggregate(sheet)[k].year == y
    {
      ListedYearHasRows(sheet, y);
    }
    forall k | 0 <= k < |Aggregate(sheet)| ensures Aggregate(sheet)[k].year in YearList(KeepAfterCutoff(sheet)) {
      RowYearIsListed(sheet, k);
    }
  }

  /** The module-level state of the script. */
  class Pipeline {
    var columns: seq<string>
    var df: seq<Row>
    var yearList: seq<int>
    var dfTotal: seq<Group>
    var yearColumn: seq<int>
    var monthColumn: seq<MonthCell>

    /** `df = pd.read_excel(...)`: the sheet as loaded, with "NA" cells missing. */
    constructor Load(sheet: seq<Row>)
      requires Width(sheet, RawWidth)
      ensures columns == RawHeader && df == sheet
      ensures yearList == [] && dfTotal == [] && yearColumn == [] && monthColumn == []
    {
      columns := RawHeader;
      df := sheet;
      yearList := [];
      dfTotal := [];
      yearColumn := [];
      monthColumn := [];
    }

    /** `df = df[df['Date'] > datetime(2015,12,31)]`. */
    method FilterByCutoff()
      modifies this`df
      ensures df == KeepAfterCutoff(old(df))
    {
      df := KeepAfterCutoff(df);
    }

    /** `year_list = pd.DatetimeIndex(df['Date']).year.unique().to_list()`. */
    method CollectYears()
      modifies this`yearList
      ensures yearList == YearList(df)
    {
      yearList := Unique(Years(df));
    }

    /** `df[name] = values` for a column `df` does not have yet. */
    method AssignColumn(name: string, values: seq<Cell>)
      requires name !in columns && |values| == |df|
      modifies this`columns, this`df
      ensures columns == old(columns) + [name]
      ensures df == AppendColumn(old(df), values)
    {
      columns := columns + [name];
      df := AppendColumn(df, values);
    }

    /** The six derived-column assignments, in script order, named as in `DerivedHeader`. */
    method AddDerivedColumns()
      requires columns == RawHeader && Width(df, RawWidth)
      modifies this`columns, this`df
      ensures columns == Header
      ensures df == DeriveAll(old(df))
    {
      DeriveByColumns(df);
      DerivedNamesAreNew();
      assert columns == RawHeader + DerivedHeader[..0];
      AssignColumn(DerivedHeader[0], AddSeries(Column(df, OlEnqLessTbd), Column(df, StoreEnqLessTbd)));
      assert columns == RawHeader + DerivedHeader[..1];
      AssignColumn(DerivedHeader[1], FillNa(Column(df, StoreConversion), Column(df, StoresRes)));
      assert columns == RawHeader + DerivedHeader[..2];
      AssignColumn(DerivedHeader[2], FillNa(Column(df, OnlineResPurConversion), Column(df, OnlineRes)));
      assert columns == RawHeader + DerivedHeader[..3];
      AssignColumn(DerivedHeader[3],
        FillNa(AddSeries(Column(df, OnlineDropOutConversion), Column(df, WcfConversion)),
               AddSeries(Column(df, ResWcf), Column(df, OnlineDropouts))));
      assert columns == RawHeader + DerivedHeader[..4];
      AssignColumn(DerivedHeader[4], AddSeries(Column(df, OnlineEnqResOnline), Column(df, OnlineEnqResInStore)));
      assert columns == RawHeader + DerivedHeader[..5];
      AssignColumn(DerivedHeader[5], AddSeries(Column(df, OnlineReservations), Column(df, StoreReservations)));
      assert columns == RawHeader + DerivedHeader[..6];
    }

    /** `df_total = df.groupby(['Date']).sum()`. */
    method AggregateByDate()
      requires Width(df, |columns|)
      modifies this`dfTotal
      ensures dfTotal == GroupByDate(df, |columns|)
    {
      dfTotal := GroupByDate(df, |columns|);
    }

    /** The `year` column, then the `month` column as numbers, then as names. */
    method TagYearAndMonth()
      modifies this`yearColumn, this`monthColumn
      ensures Tagged()
      ensures Table() == Tag(dfTotal)
    {
      var g := dfTotal;
      yearColumn := seq(|g|, k requires 0 <= k < |g| => g[k].date.year);
      var numbers := seq(|g|, k requires 0 <= k < |g| => Number(g[k].date.month));
      monthColumn := numbers;
      monthColumn := seq(|numbers|, k requires 0 <= k < |numbers| => Name(MonthName(numbers[k].number)));
    }

    /** `df_total` has its `year` and `month` columns, the months as names. */
    ghost predicate Tagged()
      reads this
    {
      |yearColumn| == |dfTotal| && |monthColumn| == |dfTotal|
      && forall k :: 0 <= k < |monthColumn| ==> monthColumn[k].Name?
    }

    /** The rows of `df_total` as the chart callbacks read them. */
    function Table(): (r: seq<AggRow>)
      reads this
      requires Tagged()
      ensures |r| == |dfTotal|
    {
      var g, years, months := dfTotal, yearColumn, monthColumn;
      seq(|g|, k requires 0 <= k < |g| => AggRow(g[k].date, g[k].totals, years[k], months[k].name))
    }
  }

  /** The script from loading the sheet to adding the derived columns. */
  method Prepare(sheet: seq<Row>) returns (p: Pipeline)
    requires Width(sheet, RawWidth)
    ensures fresh(p)
    ensures p.df == DeriveAll(KeepAfterCutoff(sheet)) && p.columns == Header
    ensures p.yearList == YearList(KeepAfterCutoff(sheet))
  {
    KeepAfterCutoffWidth(sheet, RawWidth);
    p := new Pipeline.Load(sheet);
    p.FilterByCutoff();
    p.CollectYears();
    p.AddDerivedColumns();
  }

  /** The whole script up to the layout: prepare, then group and tag. */
  method Startup(sheet: seq<Row>) returns (p: Pipeline)
    requires Width(sheet, RawWidth)
    ensures fresh(p) && p.Tagged()
    ensures p.Table() == Aggregate(sheet)
    ensures p.df == DeriveAll(KeepAfterCutoff(sheet)) && p.columns == Header
    ensures p.yearList == YearList(KeepAfterCutoff(sheet))
  {
    p := Prepare(sheet);
    HeaderShape();
    p.AggregateByDate();
    p.TagYearAndMonth();
  }
}
