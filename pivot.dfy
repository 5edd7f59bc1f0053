/**
 * The views over the summary table: pivoted_sales, one column per listed month, and
 * unpivoted_sales, which turns those columns back into rows.
 */
module Pivot {
  import opened Wrappers
  import opened Seqs
  import opened Summary

  /** The months named in the PIVOT's and the UNPIVOT's IN lists, one column each, in order. */
  const PivotMonths: seq<string> := ["2024-01", "2024-02", "2024-03", "2024-04"]

  /** The columns the pivot groups by: those of its subquery other than the month and the quantity. */
  datatype PivotGroup = PivotGroup(supplier: string, brand: Option<string>, family: Option<string>)

  /** A row of pivoted_sales: a group and one cell per listed month (None for NULL). */
  datatype PivotRow = PivotRow(group: PivotGroup, cells: seq<Option<real>>)

  /** A row of unpivoted_sales. */
  datatype UnpivotRow = UnpivotRow(supplier: string, brand: Option<string>, family: Option<string>, invoiceDateMonth: string, quantity: real)

  function GroupOf(r: SummaryRow): PivotGroup {
    PivotGroup(r.key.supplier, r.key.brand, r.key.family)
  }

  /** The summary row as the unpivot view would list it. */
  function Flatten(r: SummaryRow): UnpivotRow {
    UnpivotRow(r.key.supplier, r.key.brand, r.key.family, r.key.month, r.quantity)
  }

  /** The groups of the summary rows, each once. */
  function PivotGroups(rows: seq<SummaryRow>): seq<PivotGroup> {
    Dedup(seq(|rows|, i requires 0 <= i < |rows| => GroupOf(rows[i])))
  }

  function Total(s: Option<real>): real {
    match s
    case None => 0.0
    case Some(x) => x
  }

  /** SUM(quantity) over the rows of group `g` in month `month`; None (NULL) when there are none. */
  function CellSum(rows: seq<SummaryRow>, g: PivotGroup, month: string): Option<real> {
    if rows == [] then None
    else
      var r := rows[|rows| - 1];
      var rest := CellSum(rows[..|rows| - 1], g, month);
      if GroupOf(r) == g && r.key.month == month then Some(Total(rest) + r.quantity) else rest
  }

  /** PIVOT (SUM(quantity) FOR invoice_date_month IN the listed months), grouped by the remaining columns. */
  function Pivot(rows: seq<SummaryRow>): (p: seq<PivotRow>)
    ensures |p| == |PivotGroups(rows)|
    ensures forall i :: 0 <= i < |p| ==> p[i].group == PivotGroups(rows)[i] && |p[i].cells| == |PivotMonths|
  {
    var gs := PivotGroups(rows);
    seq(|gs|, i requires 0 <= i < |gs| =>
      PivotRow(gs[i], seq(|PivotMonths|, j requires 0 <= j < |PivotMonths| => CellSum(rows, gs[i], PivotMonths[j]))))
  }

  /** The unpivot of one row's cells against the month names, skipping NULL cells. */
  function UnpivotCells(g: PivotGroup, cells: seq<Option<real>>, months: seq<string>): seq<UnpivotRow> {
    if cells == [] || months == [] then []
    else
      var here := match cells[0]
        case None => []
        case Some(q) => [UnpivotRow(g.supplier, g.brand, g.family, months[0], q)];
      here + UnpivotCells(g, cells[1..], months[1..])
  }

  /** UNPIVOT (quantity FOR month_column IN the listed months), which leaves NULL cells out. */
  function Unpivot(prows: seq<PivotRow>): seq<UnpivotRow> {
    if prows == [] then []
    else UnpivotCells(prows[0].group, prows[0].cells, PivotMonths) + Unpivot(prows[1..])
  }

  /** No two summary rows share group and month. */
  ghost predicate GroupMonthUnique(rows: seq<SummaryRow>) {
    forall i, j ::
      (0 <= i < |rows| && 0 <= j < |rows| && GroupOf(rows[i]) == GroupOf(rows[j]) && rows[i].key.month == rows[j].key.month)
      ==> i == j
  }

  // ---------------------------------------------------------------------------------------

  /** Each group of the summary has exactly one pivot row, and no other pivot row exists. */
  lemma PivotGroupsMembership(rows: seq<SummaryRow>, g: PivotGroup)
    ensures Distinct(PivotGroups(rows))
    ensures g in PivotGroups(rows) <==> exists r :: r in rows && GroupOf(r) == g
  {
    var projected := seq(|rows|, i requires 0 <= i < |rows| => GroupOf(rows[i]));
    var gs := PivotGroups(rows);
    if g in gs {
      var i :| 0 <= i < |gs| && gs[i] == g;
      var j :| 0 <= j < |rows| && projected[j] == g;
      assert rows[j] in rows;
    }
    if r :| r in rows && GroupOf(r) == g {
      var j :| 0 <= j < |rows| && rows[j] == r;
      assert projected[j] == g;
    }
  }

  /** A cell is NULL exactly when the summary has no row of that group and month. */
  lemma {:induction false} CellSumPresent(rows: seq<SummaryRow>, g: PivotGroup, month: string)
    ensures CellSum(rows, g, month).Some? <==> exists r :: r in rows && GroupOf(r) == g && r.key.month == month
  {
    if rows != [] {
      var init := rows[..|rows| - 1];
      CellSumPresent(init, g, month);
      assert forall r :: r in rows <==> r in init || r == rows[|rows| - 1];
    }
  }

  /** With group and month unique, a cell holds the quantity of the one row of its group and month. */
  lemma {:induction false} CellSumOfUniqueRow(rows: seq<SummaryRow>, i: nat)
    requires GroupMonthUnique(rows) && i < |rows|
    ensures CellSum(rows, GroupOf(rows[i]), rows[i].key.month) == Some(rows[i].quantity)
  {
    var init, last := rows[..|rows| - 1], rows[|rows| - 1];
    var g, month := GroupOf(rows[i]), rows[i].key.month;
    assert forall k :: 0 <= k < |init| ==> init[k] == rows[k];
    if i == |rows| - 1 {
      forall r | r in init ensures !(GroupOf(r) == g && r.key.month == month) {
        var k :| 0 <= k < |init| && init[k] == r;
        assert rows[k] == r;
      }
      CellSumPresent(init, g, month);
    } else {
      assert !(GroupOf(last) == g && last.key.month == month);
      CellSumOfUniqueRow(init, i);
    }
  }

  lemma {:induction false} UnpivotCellsMembership(g: PivotGroup, cells: seq<Option<real>>, months: seq<string>, u: UnpivotRow)
    ensures u in UnpivotCells(g, cells, months) <==>
              exists j :: 0 <= j < |cells| && j < |months| && cells[j] == Some(u.quantity)
                && u == UnpivotRow(g.supplier, g.brand, g.family, months[j], u.quantity)
  {
    if cells != [] && months != [] {
      UnpivotCellsMembership(g, cells[1..], months[1..], u);
      if exists j :: 0 <= j < |cells| && j < |months| && cells[j] == Some(u.quantity)
                && u == UnpivotRow(g.supplier, g.brand, g.family, months[j], u.quantity) {
        var j :| 0 <= j < |cells| && j < |months| && cells[j] == Some(u.quantity)
                && u == UnpivotRow(g.supplier, g.brand, g.family, months[j], u.quantity);
        if j > 0 {
          assert cells[1..][j - 1] == cells[j] && months[1..][j - 1] == months[j];
        }
      }
      if u in UnpivotCells(g, cells[1..], months[1..]) {
        var j :| 0 <= j < |cells[1..]| && j < |months[1..]| && cells[1..][j] == Some(u.quantity)
                && u == UnpivotRow(g.supplier, g.brand, g.family, months[1..][j], u.quantity);
        assert cells[j + 1] == Some(u.quantity);
      }
    }
  }

  /** An unpivoted row comes from a non-NULL cell of some pivot row, and every such cell gives one. */
  lemma {:induction false} UnpivotMembership(prows: seq<PivotRow>, u: UnpivotRow)
    ensures u in Unpivot(prows) <==>
              exists i, j :: 0 <= i < |prows| && 0 <= j < |prows[i].cells| && j < |PivotMonths|
                && prows[i].cells[j] == Some(u.quantity)
                && u == UnpivotRow(prows[i].group.supplier, prows[i].group.brand, prows[i].group.family, PivotMonths[j], u.quantity)
  {
    if prows != [] {
      var p := prows[0];
      UnpivotCellsMembership(p.group, p.cells, PivotMonths, u);
      UnpivotMembership(prows[1..], u);
      if exists i, j :: 0 <= i < |prows| && 0 <= j < |prows[i].cells| && j < |PivotMonths|
                && prows[i].cells[j] == Some(u.quantity)
                && u == UnpivotRow(prows[i].group.supplier, prows[i].group.brand, prows[i].group.family, PivotMonths[j], u.quantity) {
        var i, j :| 0 <= i < |prows| && 0 <= j < |prows[i].cells| && j < |PivotMonths|
                && prows[i].cells[j] == Some(u.quantity)
                && u == UnpivotRow(prows[i].group.supplier, prows[i].group.brand, prows[i].group.family, PivotMonths[j], u.quantity);
        if i > 0 {
          assert prows[1..][i - 1] == prows[i];
        }
      }
      if u in Unpivot(prows[1..]) {
        var i, j :| 0 <= i < |prows[1..]| && 0 <= j < |prows[1..][i].cells| && j < |PivotMonths|
                && prows[1..][i].cells[j] == Some(u.quantity)
                && u == UnpivotRow(prows[1..][i].group.supplier, prows[1..][i].group.brand, prows[1..][i].group.family, PivotMonths[j], u.quantity);
        assert prows[i + 1] == prows[1..][i];
      }
    }
  }

  /** The grouping columns of an unpivoted row. */
  function GroupOfUnpivoted(u: UnpivotRow): PivotGroup {
    PivotGroup(u.supplier, u.brand, u.family)
  }

  /** With distinct month names, one pivot row unpivots to rows without repeats. */
  lemma {:induction false} UnpivotCellsDistinct(g: PivotGroup, cells: seq<Option<real>>, months: seq<string>)
    requires Distinct(months)
    ensures Distinct(UnpivotCells(g, cells, months))
  {
    if cells != [] && months != [] {
      var here := match cells[0]
        case None => []
        case Some(q) => [UnpivotRow(g.supplier, g.brand, g.family, months[0], q)];
      var rest := UnpivotCells(g, cells[1..], months[1..]);
      assert Distinct(months[1..]) by {
        forall i, j | 0 <= i < j < |months[1..]| ensures months[1..][i] != months[1..][j] {
          assert months[1..][i] == months[i + 1] && months[1..][j] == months[j + 1];
        }
      }
      UnpivotCellsDistinct(g, cells[1..], months[1..]);
      forall i, k | 0 <= i < |here| && 0 <= k < |rest| ensures here[i] != rest[k] {
        UnpivotCellsMembership(g, cells[1..], months[1..], rest[k]);
        var j :| 0 <= j < |cells[1..]| && j < |months[1..]| && cells[1..][j] == Some(rest[k].quantity)
          && rest[k] == UnpivotRow(g.supplier, g.brand, g.family, months[1..][j], rest[k].quantity);
        assert months[1..][j] == months[j + 1] != months[0];
      }
      DistinctConcat(here, rest);
    }
  }

  /** Pivot rows of distinct groups unpivot to rows without repeats. */
  lemma {:induction false} UnpivotDistinct(prows: seq<PivotRow>)
    requires forall i, j :: 0 <= i < j < |prows| ==> prows[i].group != prows[j].group
    ensures Distinct(Unpivot(prows))
  {
    if prows != [] {
      var p := prows[0];
      var here := UnpivotCells(p.group, p.cells, PivotMonths);
      var rest := Unpivot(prows[1..]);
      assert forall i, j :: 0 <= i < j < |prows[1..]| ==> prows[1..][i] == prows[i + 1] && prows[1..][j] == prows[j + 1];
      UnpivotDistinct(prows[1..]);
      UnpivotCellsDistinct(p.group, p.cells, PivotMonths);
      forall i, k | 0 <= i < |here| && 0 <= k < |rest| ensures here[i] != rest[k] {
        UnpivotCellsMembership(p.group, p.cells, PivotMonths, here[i]);
        assert GroupOfUnpivoted(here[i]) == p.group;
        UnpivotMembership(prows[1..], rest[k]);
        var a, b :| 0 <= a < |prows[1..]| && 0 <= b < |prows[1..][a].cells| && b < |PivotMonths|
          && prows[1..][a].cells[b] == Some(rest[k].quantity)
          && rest[k] == UnpivotRow(prows[1..][a].group.supplier, prows[1..][a].group.brand, prows[1..][a].group.family, PivotMonths[b], rest[k].quantity);
        assert GroupOfUnpivoted(rest[k]) == prows[a + 1].group;
      }
      DistinctConcat(here, rest);
    }
  }

  /**
   * Unpivoting the pivot gives back exactly the summary rows whose month is listed (each as
   * supplier, brand, family, month, quantity), each of them once; rows of any other month are dropped.
   */
  lemma PivotRoundTrip(rows: seq<SummaryRow>, u: UnpivotRow)
    requires GroupMonthUnique(rows)
    ensures u in Unpivot(Pivot(rows)) <==> exists r :: r in rows && r.key.month in PivotMonths && u == Flatten(r)
    ensures Distinct(Unpivot(Pivot(rows)))
    ensures multiset(Unpivot(Pivot(rows)))[u] == if exists r :: r in rows && r.key.month in PivotMonths && u == Flatten(r) then 1 else 0
  {
    if u in Unpivot(Pivot(rows)) {
      UnpivotedRowIsSummaryRow(rows, u);
    }
    if r :| r in rows && r.key.month in PivotMonths && u == Flatten(r) {
      ListedSummaryRowIsUnpivoted(rows, r);
    }
    var p := Pivot(rows);
    PivotGroupsMembership(rows, PivotGroup("", None, None));
    assert forall i, j :: 0 <= i < j < |p| ==> p[i].group == PivotGroups(rows)[i] && p[j].group == PivotGroups(rows)[j];
    UnpivotDistinct(p);
    DistinctMultiplicity(Unpivot(p), u);
  }

  lemma UnpivotedRowIsSummaryRow(rows: seq<SummaryRow>, u: UnpivotRow)
    requires GroupMonthUnique(rows)
    requires u in Unpivot(Pivot(rows))
    ensures exists r :: r in rows && r.key.month in PivotMonths && u == Flatten(r)
  {
    var p := Pivot(rows);
    var gs := PivotGroups(rows);
    UnpivotMembership(p, u);
    var i, j :| 0 <= i < |p| && 0 <= j < |p[i].cells| && j < |PivotMonths|
              && p[i].cells[j] == Some(u.quantity)
              && u == UnpivotRow(p[i].group.supplier, p[i].group.brand, p[i].group.family, PivotMonths[j], u.quantity);
    var g, month := gs[i], PivotMonths[j];
    assert p[i].cells[j] == CellSum(rows, g, month);
    CellSumPresent(rows, g, month);
    var r :| r in rows && GroupOf(r) == g && r.key.month == month;
    var k :| 0 <= k < |rows| && rows[k] == r;
    CellSumOfUniqueRow(rows, k);
    assert u == Flatten(r);
  }

  lemma ListedSummaryRowIsUnpivoted(rows: seq<SummaryRow>, r: SummaryRow)
    requires GroupMonthUnique(rows)
    requires r in rows && r.key.month in PivotMonths
    ensures Flatten(r) in Unpivot(Pivot(rows))
  {
    var p := Pivot(rows);
    var gs := PivotGroups(rows);
    var u := Flatten(r);
    var k :| 0 <= k < |rows| && rows[k] == r;
    var j :| 0 <= j < |PivotMonths| && PivotMonths[j] == r.key.month;
    PivotGroupsMembership(rows, GroupOf(r));
    var i :| 0 <= i < |gs| && gs[i] == GroupOf(r);
    CellSumOfUniqueRow(rows, k);
    assert p[i].cells[j] == CellSum(rows, GroupOf(r), r.key.month) == Some(u.quantity);
    UnpivotMembership(p, u);
  }

  /** Every cell of the pivot holds the summed quantity of its group and month, or NULL if there is none. */
  lemma PivotCell(rows: seq<SummaryRow>, i: nat, j: nat)
    requires GroupMonthUnique(rows)
    requires i < |Pivot(rows)| && j < |PivotMonths|
    ensures var p := Pivot(rows)[i];
      && (p.cells[j].None? <==> !exists r :: r in rows && GroupOf(r) == p.group && r.key.month == PivotMonths[j])
      && (forall r :: r in rows && GroupOf(r) == p.group && r.key.month == PivotMonths[j] ==> p.cells[j] == Some(r.quantity))
  {
    var p := Pivot(rows)[i];
    CellSumPresent(rows, p.group, PivotMonths[j]);
    forall r | r in rows && GroupOf(r) == p.group && r.key.month == PivotMonths[j]
      ensures p.cells[j] == Some(r.quantity)
    {
      var k :| 0 <= k < |rows| && rows[k] == r;
      CellSumOfUniqueRow(rows, k);
    }
  }

  /** The summary table as built has one row per group and month, so the round trip applies to it. */
  lemma AggregateGroupMonthUnique(facts: seq<Fact>)
    ensures GroupMonthUnique(Aggregate(facts))
  {
    var rows := Aggregate(facts);
    forall i, j | 0 <= i < |rows| && 0 <= j < |rows| && GroupOf(rows[i]) == GroupOf(rows[j])
      && rows[i].key.month == rows[j].key.month
      ensures i == j
    {
      AggregateRowsAreGroups(facts, rows[i]);
      AggregateRowsAreGroups(facts, rows[j]);
      assert rows[i].key == rows[j].key;
      AggregateKeysUnique(facts, i, j);
    }
  }
}
