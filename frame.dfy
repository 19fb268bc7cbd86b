/**
 * The report as pandas holds it: a table of rows, each with its date and one
 * numeric cell per column, where a cell read as "NA" is missing. Column
 * operations follow pandas' missing-value rules: `+` propagates a missing
 * operand and `fillna` substitutes the fallback only where the primary is
 * missing.
 */
module Frame {
  import opened Wrappers
  import opened Dates

  type Cell = Option<int>

  datatype Row = Row(date: Date, cells: seq<Cell>)

  /** Every row has exactly `n` cells: the table has `n` columns. */
  predicate Width(t: seq<Row>, n: nat)
  {
    forall i :: 0 <= i < |t| ==> |t[i].cells| == n
  }

  /** Column `j` exists in every row. */
  predicate HasColumn(t: seq<Row>, j: nat)
  {
    forall i :: 0 <= i < |t| ==> j < |t[i].cells|
  }

  /** `a.fillna(b)` on one cell. */
  function Coalesce(a: Cell, b: Cell): (r: Cell)
    ensures r.Some? <==> a.Some? || b.Some?
    ensures a.Some? ==> r == a
    ensures a.None? ==> r == b
  {
    if a.Some? then a else b
  }

  /** `a + b` on one cell: missing when either operand is missing. */
  function Plus(a: Cell, b: Cell): (r: Cell)
    ensures r.Some? <==> a.Some? && b.Some?
    ensures r.Some? ==> r.value == a.value + b.value
  {
    if a.Some? && b.Some? then Some(a.value + b.value) else None
  }

  /** What a cell contributes to a pandas `sum`, which skips missing values. */
  function SkipNa(c: Cell): (r: int)
    ensures c.Some? ==> r == c.value
    ensures c.None? ==> r == 0
  {
    if c.Some? then c.value else 0
  }

  /** `df[col]`: the cells of column `j`, in row order. */
  function Column(t: seq<Row>, j: nat): (r: seq<Cell>)
    requires HasColumn(t, j)
    ensures |r| == |t|
    ensures forall i :: 0 <= i < |t| ==> r[i] == t[i].cells[j]
  {
    seq(|t|, i requires 0 <= i < |t| => t[i].cells[j])
  }

  /** `a.fillna(b)` on two aligned series. */
  function FillNa(a: seq<Cell>, b: seq<Cell>): (r: seq<Cell>)
    requires |a| == |b|
    ensures |r| == |a|
    ensures forall i :: 0 <= i < |a| ==> r[i] == Coalesce(a[i], b[i])
  {
    seq(|a|, i requires 0 <= i < |a| => Coalesce(a[i], b[i]))
  }

  /** `a + b` on two aligned series. */
  function AddSeries(a: seq<Cell>, b: seq<Cell>): (r: seq<Cell>)
    requires |a| == |b|
    ensures |r| == |a|
    ensures forall i :: 0 <= i < |a| ==> r[i] == Plus(a[i], b[i])
  {
    seq(|a|, i requires 0 <= i < |a| => Plus(a[i], b[i]))
  }

  /** `df[name] = v` for a new column: every row gains `v`'s cell at its end. */
  function AppendColumn(t: seq<Row>, v: seq<Cell>): (r: seq<Row>)
    requires |v| == |t|
    ensures |r| == |t|
    ensures forall i :: 0 <= i < |t| ==> r[i].date == t[i].date && r[i].cells == t[i].cells + [v[i]]
  {
    seq(|t|, i requires 0 <= i < |t| => Row(t[i].date, t[i].cells + [v[i]]))
  }
}
