/**
 * `df.groupby(['Date']).sum()`: one row per distinct date, in ascending date
 * order, each numeric column summed over that date's rows with missing cells
 * skipped (a date whose cells are all missing sums to 0).
 *
 * The grouping is built by inserting the rows one at a time into an
 * ascending list of groups; the lemmas below show that the result is the
 * same table pandas describes: distinct ascending dates, exactly the input's
 * dates, per-date sums, preserved column totals, and no change when an
 * already grouped table is grouped again.
 */
module GroupBy {
  import opened Wrappers
  import opened Dates
  import opened Frame

  /** One row of the grouped table: a date and one total per column. */
  datatype Group = Group(date: Date, totals: seq<int>)

  /** The totals a single row contributes to a new group. */
  function Totals(cells: seq<Cell>): (r: seq<int>)
    ensures |r| == |cells|
    ensures forall i :: 0 <= i < |cells| ==> r[i] == SkipNa(cells[i])
  {
    seq(|cells|, i requires 0 <= i < |cells| => SkipNa(cells[i]))
  }

  /** A group's totals after one more row of its date is added. */
  function AddCells(totals: seq<int>, cells: seq<Cell>): (r: seq<int>)
    requires |totals| == |cells|
    ensures |r| == |totals|
    ensures forall i :: 0 <= i < |totals| ==> r[i] == totals[i] + SkipNa(cells[i])
  {
    seq(|totals|, i requires 0 <= i < |totals| => totals[i] + SkipNa(cells[i]))
  }

  predicate TotalsWidth(g: seq<Group>, n: nat)
  {
    forall k :: 0 <= k < |g| ==> |g[k].totals| == n
  }

  predicate StrictlyAscending(g: seq<Group>)
  {
    forall i, k :: 0 <= i < k < |g| ==> Before(g[i].date, g[k].date)
  }

  function DateSet(g: seq<Group>): set<Date>
  {
    set k | 0 <= k < |g| :: g[k].date
  }

  function RowDates(t: seq<Row>): set<Date>
  {
    set i | 0 <= i < |t| :: t[i].date
  }

  /** Adds row `r` to an ascending list of groups. */
  function Insert(acc: seq<Group>, r: Row): (res: seq<Group>)
    requires TotalsWidth(acc, |r.cells|)
    ensures TotalsWidth(res, |r.cells|)
    decreases |acc|
  {
    if acc == [] then [Group(r.date, Totals(r.cells))]
    else if acc[0].date == r.date then [Group(r.date, AddCells(acc[0].totals, r.cells))] + acc[1..]
    else if Before(r.date, acc[0].date) then [Group(r.date, Totals(r.cells))] + acc
    else [acc[0]] + Insert(acc[1..], r)
  }

  /** `t.groupby(['Date']).sum()` for a table of `n` columns. */
  function GroupByDate(t: seq<Row>, n: nat): (g: seq<Group>)
    requires Width(t, n)
    ensures TotalsWidth(g, n)
  {
    if t == [] then [] else Insert(GroupByDate(t[..|t| - 1], n), t[|t| - 1])
  }

  // Sums that describe the grouped table.

  /** The pandas sum of column `j` over the rows of `t` dated `d`. */
  function DateTotal(t: seq<Row>, d: Date, j: nat): int
    requires HasColumn(t, j)
  {
    if t == [] then 0
    else DateTotal(t[..|t| - 1], d, j) + (if t[|t| - 1].date == d then SkipNa(t[|t| - 1].cells[j]) else 0)
  }

  /** The pandas sum of column `j` over all rows of `t`. */
  function ColumnTotal(t: seq<Row>, j: nat): int
    requires HasColumn(t, j)
  {
    if t == [] then 0 else ColumnTotal(t[..|t| - 1], j) + SkipNa(t[|t| - 1].cells[j])
  }

  predicate HasTotal(g: seq<Group>, j: nat)
  {
    forall k :: 0 <= k < |g| ==> j < |g[k].totals|
  }

  /** Column `j` summed over the groups dated `d`. */
  function GroupedTotal(g: seq<Group>, d: Date, j: nat): int
    requires HasTotal(g, j)
  {
    if g == [] then 0
    else (if g[0].date == d then g[0].totals[j] else 0) + GroupedTotal(g[1..], d, j)
  }

  /** Column `j` summed over all groups. */
  function GrandTotal(g: seq<Group>, j: nat): int
    requires HasTotal(g, j)
  {
    if g == [] then 0 else g[0].totals[j] + GrandTotal(g[1..], j)
  }

  // Insert.

  lemma DateSetCons(x: Group, s: seq<Group>)
    ensures DateSet([x] + s) == {x.date} + DateSet(s)
  {
    var l := [x] + s;
    forall d | d in DateSet(l) ensures d in {x.date} + DateSet(s) {
      var k :| 0 <= k < |l| && l[k].date == d;
      if k > 0 { assert s[k - 1].date == d; }
    }
    forall d | d in DateSet(s) ensures d in DateSet(l) {
      var k :| 0 <= k < |s| && s[k].date == d;
      assert l[k + 1].date == d;
    }
    assert l[0].date == x.date;
  }

  lemma {:induction false} InsertDates(acc: seq<Group>, r: Row)
    requires TotalsWidth(acc, |r.cells|)
    ensures DateSet(Insert(acc, r)) == DateSet(acc) + {r.date}
    decreases |acc|
  {
    if acc == [] {
      DateSetCons(Group(r.date, Totals(r.cells)), []);
    } else {
      assert acc == [acc[0]] + acc[1..];
      DateSetCons(acc[0], acc[1..]);
      if acc[0].date == r.date {
        DateSetCons(Group(r.date, AddCells(acc[0].totals, r.cells)), acc[1..]);
      } else if Before(r.date, acc[0].date) {
        DateSetCons(Group(r.date, Totals(r.cells)), acc);
      } else {
        InsertDates(acc[1..], r);
        DateSetCons(acc[0], Insert(acc[1..], r));
      }
    }
  }

  lemma {:induction false} InsertAscending(acc: seq<Group>, r: Row)
    requires TotalsWidth(acc, |r.cells|) && StrictlyAscending(acc)
    ensures StrictlyAscending(Insert(acc, r))
    decreases |acc|
  {
    if acc != [] && acc[0].date != r.date && !Before(r.date, acc[0].date) {
      var rest := acc[1..];
      var ins := Insert(rest, r);
      InsertAscending(rest, r);
      InsertDates(rest, r);
      forall k | 0 <= k < |ins| ensures Before(acc[0].date, ins[k].date) {
        assert ins[k].date in DateSet(ins);
        if ins[k].date != r.date {
          var m :| 0 <= m < |rest| && rest[m].date == ins[k].date;
          assert rest[m] == acc[m + 1];
        }
      }
    }
  }

  lemma {:induction false} InsertGroupedTotal(acc: seq<Group>, r: Row, d: Date, j: nat)
    requires TotalsWidth(acc, |r.cells|) && j < |r.cells|
    ensures GroupedTotal(Insert(acc, r), d, j)
            == GroupedTotal(acc, d, j) + (if r.date == d then SkipNa(r.cells[j]) else 0)
    decreases |acc|
  {
    if acc == [] {
    } else if acc[0].date == r.date {
      assert ([Group(r.date, AddCells(acc[0].totals, r.cells))] + acc[1..])[1..] == acc[1..];
    } else if Before(r.date, acc[0].date) {
      assert ([Group(r.date, Totals(r.cells))] + acc)[1..] == acc;
    } else {
      InsertGroupedTotal(acc[1..], r, d, j);
      assert ([acc[0]] + Insert(acc[1..], r))[1..] == Insert(acc[1..], r);
    }
  }

  lemma {:induction false} InsertGrandTotal(acc: seq<Group>, r: Row, j: nat)
    requires TotalsWidth(acc, |r.cells|) && j < |r.cells|
    ensures GrandTotal(Insert(acc, r), j) == GrandTotal(acc, j) + SkipNa(r.cells[j])
    decreases |acc|
  {
    if acc == [] {
    } else if acc[0].date == r.date {
      assert ([Group(r.date, AddCells(acc[0].totals, r.cells))] + acc[1..])[1..] == acc[1..];
    } else if Before(r.date, acc[0].date) {
      assert ([Group(r.date, Totals(r.cells))] + acc)[1..] == acc;
    } else {
      InsertGrandTotal(acc[1..], r, j);
      assert ([acc[0]] + Insert(acc[1..], r))[1..] == Insert(acc[1..], r);
    }
  }

  /** A row dated after every group opens a new last group. */
  lemma {:induction false} InsertAfterAll(acc: seq<Group>, r: Row)
    requires TotalsWidth(acc, |r.cells|)
    requires forall k :: 0 <= k < |acc| ==> Before(acc[k].date, r.date)
    ensures Insert(acc, r) == acc + [Group(r.date, Totals(r.cells))]
    decreases |acc|
  {
    if acc != [] {
      assert Before(acc[0].date, r.date);
      InsertAfterAll(acc[1..], r);
      assert acc == [acc[0]] + acc[1..];
    }
  }

  // The grouped table.

  /** Group dates are strictly ascending, hence pairwise distinct. */
  lemma {:induction false} GroupAscending(t: seq<Row>, n: nat)
    requires Width(t, n)
    ensures StrictlyAscending(GroupByDate(t, n))
  {
    if t != [] {
      GroupAscending(t[..|t| - 1], n);
      InsertAscending(GroupByDate(t[..|t| - 1], n), t[|t| - 1]);
    }
  }

  /** The grouped table has exactly one row per distinct input date. */
  lemma {:induction false} GroupDates(t: seq<Row>, n: nat)
    requires Width(t, n)
    ensures DateSet(GroupByDate(t, n)) == RowDates(t)
  {
    if t != [] {
      var init := t[..|t| - 1];
      GroupDates(init, n);
      InsertDates(GroupByDate(init, n), t[|t| - 1]);
      assert RowDates(t) == RowDates(init) + {t[|t| - 1].date} by {
        forall d | d in RowDates(t) ensures d in RowDates(init) + {t[|t| - 1].date} {
          var i :| 0 <= i < |t| && t[i].date == d;
          if i < |t| - 1 { assert init[i] == t[i]; }
        }
        forall d | d in RowDates(init) ensures d in RowDates(t) {
          var i :| 0 <= i < |init| && init[i].date == d;
          assert t[i] == init[i];
        }
      }
    }
  }

  lemma {:induction false} GroupDateTotals(t: seq<Row>, n: nat, d: Date, j: nat)
    requires Width(t, n) && j < n
    ensures GroupedTotal(GroupByDate(t, n), d, j) == DateTotal(t, d, j)
  {
    if t != [] {
      GroupDateTotals(t[..|t| - 1], n, d, j);
      InsertGroupedTotal(GroupByDate(t[..|t| - 1], n), t[|t| - 1], d, j);
    }
  }

  /** In an ascending table, the groups dated like group `k` are group `k` alone. */
  lemma {:induction false} UniqueGroupTotal(g: seq<Group>, k: nat, j: nat)
    requires StrictlyAscending(g) && HasTotal(g, j) && k < |g|
    ensures GroupedTotal(g, g[k].date, j) == g[k].totals[j]
  {
    if k == 0 {
      OnlyLaterDates(g[1..], g[0].date, j);
    } else {
      UniqueGroupTotal(g[1..], k - 1, j);
      assert g[k - 1 + 1] == g[1..][k - 1];
      assert Before(g[0].date, g[k].date);
    }
  }

  lemma {:induction false} OnlyLaterDates(g: seq<Group>, d: Date, j: nat)
    requires HasTotal(g, j)
    requires forall k :: 0 <= k < |g| ==> Before(d, g[k].date)
    ensures GroupedTotal(g, d, j) == 0
  {
    if g != [] {
      assert Before(d, g[0].date);
      OnlyLaterDates(g[1..], d, j);
    }
  }

  /**
   * Each grouped row carries, in every column, the pandas sum of that
   * column over the input rows of its date.
   */
  lemma GroupTotals(t: seq<Row>, n: nat, k: nat, j: nat)
    requires Width(t, n) && j < n && k < |GroupByDate(t, n)|
    ensures GroupByDate(t, n)[k].totals[j] == DateTotal(t, GroupByDate(t, n)[k].date, j)
  {
    var g := GroupByDate(t, n);
    GroupAscending(t, n);
    UniqueGroupTotal(g, k, j);
    GroupDateTotals(t, n, g[k].date, j);
  }

  /** Grouping preserves every column's grand total. */
  lemma {:induction false} GrandTotalPreserved(t: seq<Row>, n: nat, j: nat)
    requires Width(t, n) && j < n
    ensures GrandTotal(GroupByDate(t, n), j) == ColumnTotal(t, j)
  {
    if t != [] {
      GrandTotalPreserved(t[..|t| - 1], n, j);
      InsertGrandTotal(GroupByDate(t[..|t| - 1], n), t[|t| - 1], j);
    }
  }

  // Grouping a grouped table.

  /** A grouped table read back as a table whose cells are all present. */
  function Ungroup(g: seq<Group>): (t: seq<Row>)
    ensures |t| == |g|
    ensures forall k :: 0 <= k < |g| ==> t[k].date == g[k].date && Totals(t[k].cells) == g[k].totals
  {
    seq(|g|, k requires 0 <= k < |g| => Row(g[k].date, Present(g[k].totals)))
  }

  function Present(totals: seq<int>): (c: seq<Cell>)
    ensures |c| == |totals|
    ensures forall i :: 0 <= i < |totals| ==> c[i] == Some(totals[i])
  {
    seq(|totals|, i requires 0 <= i < |totals| => Some(totals[i]))
  }

  /** Grouping an ascending, already grouped table by date gives it back. */
  lemma {:induction false} RegroupAscending(g: seq<Group>, n: nat)
    requires StrictlyAscending(g) && TotalsWidth(g, n)
    ensures Width(Ungroup(g), n)
    ensures GroupByDate(Ungroup(g), n) == g
  {
    var t := Ungroup(g);
    if g != [] {
      var m := |g| - 1;
      var init := g[..m];
      assert t[..m] == Ungroup(init);
      RegroupAscending(init, n);
      InsertAfterAll(init, t[m]);
      assert init + [g[m]] == g;
    }
  }

  /** Grouping is idempotent. */
  lemma Regroup(t: seq<Row>, n: nat)
    requires Width(t, n)
    ensures Width(Ungroup(GroupByDate(t, n)), n)
    ensures GroupByDate(Ungroup(GroupByDate(t, n)), n) == GroupByDate(t, n)
  {
    GroupAscending(t, n);
    RegroupAscending(GroupByDate(t, n), n);
  }

  // Independence from the input order.

  /** Removing row `i` keeps every other row, in order. */
  lemma RemoveSlices(t: seq<Row>, i: nat)
    requires i < |t|
    ensures |t[..i] + t[i + 1..]| == |t| - 1
    ensures forall k :: 0 <= k < i ==> (t[..i] + t[i + 1..])[k] == t[k]
    ensures forall k :: i < k < |t| ==> (t[..i] + t[i + 1..])[k - 1] == t[k]
    ensures i == |t| - 1 ==> t[..i] + t[i + 1..] == t[..|t| - 1]
    ensures i < |t| - 1 ==> (t[..i] + t[i + 1..])[..|t| - 2] == t[..|t| - 1][..i] + t[..|t| - 1][i + 1..]
  {
    if i == |t| - 1 {
      assert t[i + 1..] == [];
    }
  }

  /** Removing row `i` removes exactly its contribution to a date total. */
  lemma {:induction false} DateTotalRemove(t: seq<Row>, i: nat, d: Date, j: nat)
    requires HasColumn(t, j) && i < |t|
    ensures HasColumn(t[..i] + t[i + 1..], j)
    ensures DateTotal(t, d, j)
            == DateTotal(t[..i] + t[i + 1..], d, j) + (if t[i].date == d then SkipNa(t[i].cells[j]) else 0)
  {
    var rest := t[..i] + t[i + 1..];
    RemoveSlices(t, i);
    assert HasColumn(rest, j) by {
      forall k | 0 <= k < |rest| ensures j < |rest[k].cells| {
        if k < i { assert rest[k] == t[k]; } else { assert rest[(k + 1) - 1] == t[k + 1]; }
      }
    }
    if i < |t| - 1 {
      var init := t[..|t| - 1];
      DateTotalRemove(init, i, d, j);
      assert rest[|rest| - 1] == t[|t| - 1];
      assert DateTotal(rest, d, j) == DateTotal(rest[..|rest| - 1], d, j)
        + (if t[|t| - 1].date == d then SkipNa(t[|t| - 1].cells[j]) else 0);
    }
  }

  /** Taking one matching row out of two equal multisets of rows leaves equal multisets. */
  lemma RemoveMatching(t: seq<Row>, i: nat, u: seq<Row>)
    requires i < |t| && u != [] && t[i] == u[|u| - 1] && multiset(t) == multiset(u)
    ensures multiset(t[..i] + t[i + 1..]) == multiset(u[..|u| - 1])
  {
    var x := t[i];
    var a, b := t[..i], t[i + 1..];
    var v := u[..|u| - 1];
    assert t == a + [x] + b;
    assert u == v + [x];
    calc {
      multiset(a + b) + multiset{x};
      multiset(a) + multiset(b) + multiset{x};
      multiset(a + [x] + b);
      multiset(v + [x]);
      multiset(v) + multiset{x};
    }
    assert multiset(a + b) == multiset(a + b) + multiset{x} - multiset{x};
    assert multiset(v) == multiset(v) + multiset{x} - multiset{x};
  }

  /** A date total depends only on the multiset of rows, not on their order. */
  lemma {:induction false} DateTotalPermutation(t: seq<Row>, u: seq<Row>, d: Date, j: nat)
    requires HasColumn(t, j) && HasColumn(u, j) && multiset(t) == multiset(u)
    ensures DateTotal(t, d, j) == DateTotal(u, d, j)
    decreases |u|
  {
    if u == [] {
      assert |t| == |multiset(t)|;
    } else {
      var x := u[|u| - 1];
      assert x in multiset(t);
      var i :| 0 <= i < |t| && t[i] == x;
      RemoveMatching(t, i, u);
      DateTotalRemove(t, i, d, j);
      DateTotalPermutation(t[..i] + t[i + 1..], u[..|u| - 1], d, j);
    }
  }

  lemma RowDatesPermutation(t: seq<Row>, u: seq<Row>)
    requires multiset(t) == multiset(u)
    ensures RowDates(t) == RowDates(u)
  {
    forall d | d in RowDates(t) ensures d in RowDates(u) {
      var i :| 0 <= i < |t| && t[i].date == d;
      assert t[i] in multiset(u);
      var k :| 0 <= k < |u| && u[k] == t[i];
    }
    forall d | d in RowDates(u) ensures d in RowDates(t) {
      var k :| 0 <= k < |u| && u[k].date == d;
      assert u[k] in multiset(t);
      var i :| 0 <= i < |t| && t[i] == u[k];
    }
  }

  lemma DateSetEmpty(g: seq<Group>)
    ensures DateSet(g) == {} <==> g == []
  {
    if g != [] { assert g[0].date in DateSet(g); }
  }

  /** In an ascending table every date after the first group's is later than it. */
  lemma AscendingDates(g: seq<Group>)
    requires StrictlyAscending(g) && g != []
    ensures forall d :: d in DateSet(g) ==> d == g[0].date || Before(g[0].date, d)
    ensures forall d :: d in DateSet(g[1..]) ==> Before(g[0].date, d)
  {
    forall d | d in DateSet(g[1..]) ensures Before(g[0].date, d) {
      var m :| 0 <= m < |g[1..]| && g[1..][m].date == d;
      assert g[1..][m] == g[m + 1];
    }
    DateSetCons(g[0], g[1..]);
    assert g == [g[0]] + g[1..];
  }

  /**
   * Two ascending grouped tables of `n` columns with the same dates and the
   * same per-date totals are the same table.
   */
  lemma {:induction false} AscendingTablesEqual(g1: seq<Group>, g2: seq<Group>, n: nat)
    requires StrictlyAscending(g1) && StrictlyAscending(g2)
    requires TotalsWidth(g1, n) && TotalsWidth(g2, n)
    requires DateSet(g1) == DateSet(g2)
    requires forall d, j :: 0 <= j < n ==> GroupedTotal(g1, d, j) == GroupedTotal(g2, d, j)
    ensures g1 == g2
    decreases |g1|
  {
    DateSetEmpty(g1);
    DateSetEmpty(g2);
    if g1 != [] {
      var d0 := g1[0].date;
      AscendingDates(g1);
      AscendingDates(g2);
      BeforeIsStrictTotalOrder(d0, g2[0].date, d0);
      assert d0 in DateSet(g1);
      assert g2[0].date in DateSet(g2);
      assert g2[0].date == d0;
      forall j | 0 <= j < n ensures g1[0].totals[j] == g2[0].totals[j] {
        UniqueGroupTotal(g1, 0, j);
        UniqueGroupTotal(g2, 0, j);
        assert GroupedTotal(g1, d0, j) == GroupedTotal(g2, d0, j);
      }
      assert g1[0] == g2[0];
      var r1, r2 := g1[1..], g2[1..];
      DateSetCons(g1[0], r1);
      DateSetCons(g2[0], r2);
      assert g1 == [g1[0]] + r1 && g2 == [g2[0]] + r2;
      BeforeIsStrictTotalOrder(d0, d0, d0);
      assert d0 !in DateSet(r1) && d0 !in DateSet(r2);
      assert DateSet(r1) == DateSet(r2);
      forall d, j | 0 <= j < n ensures GroupedTotal(r1, d, j) == GroupedTotal(r2, d, j) {
        assert GroupedTotal(g1, d, j) == GroupedTotal(g2, d, j);
      }
      AscendingTablesEqual(r1, r2, n);
    }
  }

  /** The grouped table does not depend on the order of the input rows. */
  lemma GroupIgnoresOrder(t: seq<Row>, u: seq<Row>, n: nat)
    requires Width(t, n) && multiset(t) == multiset(u)
    ensures Width(u, n)
    ensures GroupByDate(t, n) == GroupByDate(u, n)
  {
    forall k | 0 <= k < |u| ensures |u[k].cells| == n {
      assert u[k] in multiset(t);
      var i :| 0 <= i < |t| && t[i] == u[k];
    }
    GroupAscending(t, n);
    GroupAscending(u, n);
    GroupDates(t, n);
    GroupDates(u, n);
    RowDatesPermutation(t, u);
    forall d, j | 0 <= j < n ensures GroupedTotal(GroupByDate(t, n), d, j) == GroupedTotal(GroupByDate(u, n), d, j) {
      GroupDateTotals(t, n, d, j);
      GroupDateTotals(u, n, d, j);
      DateTotalPermutation(t, u, d, j);
    }
    AscendingTablesEqual(GroupByDate(t, n), GroupByDate(u, n), n);
  }

  /**
   * A column that is, row by row on date `d`, the sum of two others has as
   * its date total the sum of their date totals.
   */
  lemma {:induction false} DateTotalOfSum(t: seq<Row>, d: Date, a: nat, b: nat, c: nat)
    requires HasColumn(t, a) && HasColumn(t, b) && HasColumn(t, c)
    requires forall i :: 0 <= i < |t| && t[i].date == d ==>
               SkipNa(t[i].cells[a]) == SkipNa(t[i].cells[b]) + SkipNa(t[i].cells[c])
    ensures DateTotal(t, d, a) == DateTotal(t, d, b) + DateTotal(t, d, c)
  {
    if t != [] {
      DateTotalOfSum(t[..|t| - 1], d, a, b, c);
    }
  }
}
