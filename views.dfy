/**
 * The two chart callbacks. `update_graph` draws the selected column of the
 * aggregated table against its dates; `update_chart_yoy` draws one trace per
 * year of `year_list`, most recently listed year first, each holding that
 * year's rows. Both title the chart with the catalogue label of the
 * selected key. Indexing a column the table lacks raises KeyError; a key
 * with no catalogue entry makes the title lookup raise IndexError.
 */
module Views {
  import opened Wrappers
  import opened Dates
  import opened Derivation
  import opened Catalogue
  import opened Frame
  import opened GroupBy
  import opened Dashboard

  datatype Error = KeyError(key: string) | IndexError

  /** The trend figure: one line of (date, value) points and the chart title. */
  datatype TrendFigure = TrendFigure(title: string, xs: seq<Date>, ys: seq<int>)

  /** One year-over-year trace, named by its year: month labels against values. */
  datatype Trace = Trace(name: int, xs: seq<string>, ys: seq<int>)

  datatype YoyFigure = YoyFigure(title: string, traces: seq<Trace>)

  /** Every aggregated row has a total for each column of `Header`. */
  predicate TableWidth(table: seq<AggRow>)
  {
    forall k :: 0 <= k < |table| ==> |table[k].totals| == FullWidth
  }

  /** The position of column `key` in `Header`, if it is one. */
  function ColumnIndex(key: string): (r: Option<nat>)
    ensures r.Some? <==> key in Header
    ensures r.Some? ==> r.value < FullWidth && Header[r.value] == key
  {
    HeaderShape();
    IndexOf(Header, key)
  }

  function IndexOf(s: seq<string>, key: string): (r: Option<nat>)
    ensures r.Some? <==> key in s
    ensures r.Some? ==> r.value < |s| && s[r.value] == key
  {
    if s == [] then None
    else if s[0] == key then Some(0)
    else match IndexOf(s[1..], key)
      case None => None
      case Some(i) => Some(i + 1)
  }

  /** `df_total.index`. */
  function IndexDates(table: seq<AggRow>): (r: seq<Date>)
    ensures |r| == |table| && forall k :: 0 <= k < |table| ==> r[k] == table[k].date
  {
    seq(|table|, k requires 0 <= k < |table| => table[k].date)
  }

  /** `df_total[col]` for column number `j`. */
  function ColumnValues(table: seq<AggRow>, j: nat): (r: seq<int>)
    requires TableWidth(table) && j < FullWidth
    ensures |r| == |table| && forall k :: 0 <= k < |table| ==> r[k] == table[k].totals[j]
  {
    seq(|table|, k requires 0 <= k < |table| => table[k].totals[j])
  }

  /** `df_total[df_total['year'] == year]`: the rows of that year, in table order. */
  function YearRows(table: seq<AggRow>, year: int): (r: seq<AggRow>)
    ensures forall x :: x in r <==> x in table && x.year == year
    ensures |r| <= |table|
    ensures TableWidth(table) ==> TableWidth(r)
  {
    if table == [] then []
    else (if table[0].year == year then [table[0]] else []) + YearRows(table[1..], year)
  }

  /** The year mask keeps table order: it distributes over concatenation. */
  lemma {:induction false} YearRowsSplits(a: seq<AggRow>, b: seq<AggRow>, year: int)
    ensures YearRows(a + b, year) == YearRows(a, year) + YearRows(b, year)
  {
    if a == [] {
      assert a + b == b;
    } else {
      assert (a + b)[0] == a[0];
      assert (a + b)[1..] == a[1..] + b;
      YearRowsSplits(a[1..], b, year);
    }
  }

  /** Two rows of the same year are kept in their table order. */
  lemma YearRowsKeepOrder(r1: AggRow, r2: AggRow)
    requires r1.year == r2.year
    ensures YearRows([r1, r2], r1.year) == [r1, r2]
  {
    assert [r1, r2][1..] == [r2];
    assert [r2][1..] == [];
  }

  function Reversed(s: seq<int>): (r: seq<int>)
    ensures |r| == |s| && forall k :: 0 <= k < |s| ==> r[k] == s[|s| - 1 - k]
  {
    seq(|s|, k requires 0 <= k < |s| => s[|s| - 1 - k])
  }

  /** `df_total['month']` of a table. */
  function MonthColumn(table: seq<AggRow>): (r: seq<string>)
    ensures |r| == |table| && forall k :: 0 <= k < |table| ==> r[k] == table[k].month
  {
    seq(|table|, k requires 0 <= k < |table| => table[k].month)
  }

  /**
   * The trace for `year` and column number `j` as the script writes it: the
   * values of that year's rows against the month column of the whole table.
   */
  function AsWrittenYearTrace(table: seq<AggRow>, year: int, j: nat): (t: Trace)
    requires TableWidth(table) && j < FullWidth
    ensures t.name == year && |t.xs| == |table| && |t.ys| == |YearRows(table, year)|
    ensures forall k :: 0 <= k < |table| ==> t.xs[k] == table[k].month
    ensures t.ys == YearTrace(table, year, j).ys
  {
    Trace(year, MonthColumn(table), ColumnValues(YearRows(table, year), j))
  }

  /**
   * With a January 2016 row before a February 2017 row, the script's 2017
   * trace has two month labels for one value, and plots that February value
   * at "January".
   */
  lemma AsWrittenTraceMisplacesPoints(t1: seq<int>, t2: seq<int>)
    requires |t1| == FullWidth && |t2| == FullWidth
    ensures var table := [AggRow(Date(2016, 1, 5), t1, 2016, "January"), AggRow(Date(2017, 2, 3), t2, 2017, "February")];
            var w := AsWrittenYearTrace(table, 2017, TotalEnquiries);
            |w.xs| == 2 && |w.ys| == 1 && w.xs[0] == "January" && w.ys[0] == t2[TotalEnquiries]
  {
    var r1, r2 := AggRow(Date(2016, 1, 5), t1, 2016, "January"), AggRow(Date(2017, 2, 3), t2, 2017, "February");
    var table := [r1, r2];
    assert table[1..] == [r2] && [r2][1..] == [];
    assert YearRows(table, 2017) == [r2];
  }

  /**
   * The trace `update_chart_yoy` is meant to draw: that year's values
   * against that year's months, so that each point is the (month, value)
   * pair of one row of that year.
   */
  function YearTrace(table: seq<AggRow>, year: int, j: nat): (t: Trace)
    requires TableWidth(table) && j < FullWidth
    ensures t.name == year && |t.xs| == |t.ys| == |YearRows(table, year)|
  {
    var rows := YearRows(table, year);
    Trace(year, MonthColumn(rows), ColumnValues(rows, j))
  }

  /** `(month, value)` is the month label and column-`j` total of some row of `year`. */
  predicate IsRowPoint(table: seq<AggRow>, year: int, j: nat, month: string, value: int)
  {
    exists x :: x in table && x.year == year && x.month == month && j < |x.totals| && x.totals[j] == value
  }

  /**
   * The points of a year's trace are exactly the (month, value) pairs of
   * that year's rows: each point comes from such a row, and each such row
   * is plotted.
   */
  lemma YearTracePoints(table: seq<AggRow>, year: int, j: nat)
    requires TableWidth(table) && j < FullWidth
    ensures var t := YearTrace(table, year, j);
            forall i :: 0 <= i < |t.ys| ==> IsRowPoint(table, year, j, t.xs[i], t.ys[i])
    ensures var t := YearTrace(table, year, j);
            forall x :: x in table && x.year == year ==>
              exists i :: 0 <= i < |t.ys| && t.xs[i] == x.month && t.ys[i] == x.totals[j]
  {
    var t := YearTrace(table, year, j);
    var rows := YearRows(table, year);
    assert t.xs == MonthColumn(rows) && t.ys == ColumnValues(rows, j);
    forall x | x in table && x.year == year
      ensures exists i :: 0 <= i < |t.ys| && t.xs[i] == x.month && t.ys[i] == x.totals[j]
    {
      assert x in rows;
      var i :| 0 <= i < |rows| && rows[i] == x;
      assert t.xs[i] == x.month && t.ys[i] == x.totals[j];
    }
    forall i | 0 <= i < |t.ys|
      ensures IsRowPoint(table, year, j, t.xs[i], t.ys[i])
    {
      assert rows[i] in rows;
    }
  }

  /** The traces for `years`, in order. */
  function Traces(table: seq<AggRow>, years: seq<int>, j: nat): (r: seq<Trace>)
    requires TableWidth(table) && j < FullWidth
    ensures |r| == |years|
  {
    if years == [] then [] else Traces(table, years[..|years| - 1], j) + [YearTrace(table, years[|years| - 1], j)]
  }

  /** Trace `k` of `Traces` is the trace of year `k`. */
  lemma {:induction false} TracesAt(table: seq<AggRow>, years: seq<int>, j: nat, k: nat)
    requires TableWidth(table) && j < FullWidth && k < |years|
    ensures Traces(table, years, j)[k] == YearTrace(table, years[k], j)
  {
    if k < |years| - 1 {
      TracesAt(table, years[..|years| - 1], j, k);
    }
  }

  /** A key with a catalogue entry names a column, and its title is its first match's label. */
  lemma CatalogueKeysAreColumns(key: string)
    ensures Title(key).Some? ==> ColumnIndex(key).Some?
    ensures Matches(Options, key) == [] <==> Title(key).None?
    ensures Matches(Options, key) != [] ==> Title(key) == Some(Matches(Options, key)[0].labelText)
  {
    if Title(key).Some? {
      CatalogueShape();
      var i :| 0 <= i < |Options| && Options[i].value == key;
    }
  }

  /**
   * `update_graph(key)`: the selected column against the table's dates,
   * titled with the key's catalogue label.
   */
  function UpdateGraph(table: seq<AggRow>, key: string): (r: Result<TrendFigure, Error>)
    requires TableWidth(table)
    ensures r.Ok? <==> Title(key).Some?
    ensures r == Err(KeyError(key)) <==> ColumnIndex(key).None?
    ensures r == Err(IndexError) <==> ColumnIndex(key).Some? && Title(key).None?
    ensures r.Ok? ==> Title(key) == Some(r.value.title) && r.value.xs == IndexDates(table)
                      && exists j :: 0 <= j < FullWidth && Header[j] == key && r.value.ys == ColumnValues(table, j)
  {
    CatalogueKeysAreColumns(key);
    match ColumnIndex(key)
    case None => Err(KeyError(key))
    case Some(j) =>
      var title := Title(key);
      if title.None? then Err(IndexError) else Ok(TrendFigure(title.value, IndexDates(table), ColumnValues(table, j)))
  }

  /**
   * The loop of `update_chart_yoy`: one trace per entry of `years`, in
   * order. Selecting the column raises KeyError on the first pass when
   * `key` is no column, so an empty `years` never raises.
   */
  method CollectTraces(table: seq<AggRow>, years: seq<int>, key: string) returns (r: Option<seq<Trace>>)
    requires TableWidth(table)
    ensures r.None? <==> ColumnIndex(key).None? && years != []
    ensures r.Some? && years != [] ==> ColumnIndex(key).Some?
    ensures r.Some? && years != [] ==> r.value == Traces(table, years, ColumnIndex(key).value)
    ensures r == Some([]) <==> years == []
  {
    var data: seq<Trace> := [];
    var col := ColumnIndex(key);  // the same lookup on every pass
    ghost var j := if col.Some? then col.value else 0;
    for i := 0 to |years|
      invariant i > 0 ==> col.Some?
      invariant data == Traces(table, years[..i], j)
    {
      if col.None? {
        return None;
      }
      assert years[..i + 1][..i] == years[..i];
      data := data + [YearTrace(table, years[i], col.value)];
    }
    assert years[..|years|] == years;
    return Some(data);
  }

  /**
   * `update_chart_yoy(key)`: one trace per entry of `yearList`, in reverse
   * order, each named by its year and holding the selected column of that
   * year's rows.
   */
  method UpdateChartYoy(table: seq<AggRow>, yearList: seq<int>, key: string) returns (r: Result<YoyFigure, Error>)
    requires TableWidth(table)
    ensures r.Ok? <==> Title(key).Some?
    ensures r == Err(KeyError(key)) <==> ColumnIndex(key).None? && yearList != []
    ensures r == Err(IndexError) <==> Title(key).None? && (ColumnIndex(key).Some? || yearList == [])
    ensures r.Ok? ==> Title(key) == Some(r.value.title) && |r.value.traces| == |yearList|
    ensures r.Ok? ==> forall k :: 0 <= k < |yearList| ==>
              r.value.traces[k] == YearTrace(table, yearList[|yearList| - 1 - k], ColumnIndex(key).value)
  {
    var chartTitle := Matches(Options, key);
    CatalogueKeysAreColumns(key);
    var years := Reversed(yearList);
    var data := CollectTraces(table, years, key);
    if data.None? {
      return Err(KeyError(key));
    }
    if chartTitle == [] {
      return Err(IndexError);
    }
    if years != [] {
      forall k | 0 <= k < |years|
        ensures data.value[k] == YearTrace(table, years[k], ColumnIndex(key).value)
      {
        TracesAt(table, years, ColumnIndex(key).value, k);
      }
    }
    return Ok(YoyFigure(chartTitle[0].labelText, data.value));
  }

  // The callbacks over the start-up table.

  /** The aggregated table has a total for every column. */
  lemma AggregateWidth(sheet: seq<Row>)
    requires Width(sheet, RawWidth)
    ensures TableWidth(Aggregate(sheet))
  {
    forall k | 0 <= k < |Aggregate(sheet)| ensures |Aggregate(sheet)[k].totals| == FullWidth {
      AggregateTotals(sheet, k, 0);
    }
  }

  /**
   * For a catalogue key the trend chart of the start-up table is drawn: its
   * points are in strictly ascending date order, all after 2015-12-31, and
   * each is the per-date sum of the selected column.
   */
  lemma TrendOfAggregate(sheet: seq<Row>, key: string)
    requires Width(sheet, RawWidth) && InCatalogue(key)
    ensures TableWidth(Aggregate(sheet))
    ensures UpdateGraph(Aggregate(sheet), key).Ok?
    ensures var fig := UpdateGraph(Aggregate(sheet), key).value;
            |fig.xs| == |fig.ys| == |Aggregate(sheet)|
            && (forall k, m :: 0 <= k < m < |fig.xs| ==> Before(fig.xs[k], fig.xs[m]))
            && (forall k :: 0 <= k < |fig.xs| ==> AfterCutoff(fig.xs[k]))
            && (forall k :: 0 <= k < |fig.ys| ==>
                  fig.ys[k] == DateTotal(DeriveAll(KeepAfterCutoff(sheet)), fig.xs[k], ColumnIndex(key).value))
  {
    var a := Aggregate(sheet);
    AggregateWidth(sheet);
    AggregateDates(sheet);
    CatalogueShape();
    var j := ColumnIndex(key).value;
    var fig := UpdateGraph(a, key).value;
    forall k | 0 <= k < |fig.ys|
      ensures fig.ys[k] == DateTotal(DeriveAll(KeepAfterCutoff(sheet)), fig.xs[k], j)
    {
      AggregateTotals(sheet, k, j);
    }
  }

  /**
   * Every year of `year_list` gets a trace with at least one point, and
   * every point of that trace comes from a row of that year.
   */
  lemma ListedYearsHavePoints(sheet: seq<Row>, y: int)
    requires Width(sheet, RawWidth) && y in YearList(KeepAfterCutoff(sheet))
    ensures YearRows(Aggregate(sheet), y) != []
    ensures forall x :: x in YearRows(Aggregate(sheet), y) ==> x in Aggregate(sheet) && x.year == y
  {
    ListedYearHasRows(sheet, y);
    var k :| 0 <= k < |Aggregate(sheet)| && Aggregate(sheet)[k].year == y;
    assert Aggregate(sheet)[k] in YearRows(Aggregate(sheet), y);
  }
}
