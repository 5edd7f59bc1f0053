/**
 * The summary table as the rebalance and roll-up operations see it: rows keyed by node_id,
 * each pointing at its parent row through parent_id. `quantity` may be NULL, because a
 * roll-up over no children stores the SUM of an empty set.
 */
module Table {
  import opened Wrappers
  import opened Summary

  type NodeId = int

  /** A row of sales_summary_by_product_family with its node_id (the map key) and parent_id. */
  datatype Node = Node(parentId: Option<NodeId>, key: GroupKey, quantity: Option<real>, netAmount: real)

  type Rows = map<NodeId, Node>

  /** SELECT node_id ... WHERE parent_id = p: a NULL parent_id matches nothing. */
  function ChildIds(rows: Rows, p: NodeId): (ids: set<NodeId>)
    ensures ids <= rows.Keys
  {
    set id | id in rows && rows[id].parentId == Some(p)
  }

  /** A set of rows that is not empty has a row to pick. */
  lemma NonEmptyHasElement(ids: set<NodeId>)
    requires ids != {}
    ensures exists id :: id in ids
  {
    if forall id :: id !in ids {
      assert false;
    }
  }

  /** Every listed row has a non-NULL quantity. */
  ghost predicate Known(rows: Rows, ids: set<NodeId>) {
    forall id :: id in ids ==> id in rows && rows[id].quantity.Some?
  }

  /** The quantity as a summand: SQL's SUM skips NULL. */
  function Qty(n: Node): real {
    match n.quantity
    case None => 0.0
    case Some(q) => q
  }

  /** The sum of the quantities of the listed rows, NULL counted as nothing. */
  ghost function QuantitySum(rows: Rows, ids: set<NodeId>): real
    requires ids <= rows.Keys
    decreases ids
  {
    if ids == {} then 0.0
    else
      NonEmptyHasElement(ids);
      var id :| id in ids;
      Qty(rows[id]) + QuantitySum(rows, ids - {id})
  }

  /** Some listed row has a non-NULL quantity. */
  ghost predicate AnyKnown(rows: Rows, ids: set<NodeId>) {
    exists id :: id in ids && id in rows && rows[id].quantity.Some?
  }

  /** SUM(quantity) over the listed rows: NULL when none of them has a quantity. */
  ghost function SqlSum(rows: Rows, ids: set<NodeId>): Option<real>
    requires ids <= rows.Keys
  {
    if AnyKnown(rows, ids) then Some(QuantitySum(rows, ids)) else None
  }

  /** The sum may take its rows in any order: any one row can be split off first. */
  lemma {:induction false} QuantitySumRemove(rows: Rows, ids: set<NodeId>, y: NodeId)
    requires ids <= rows.Keys && y in ids
    ensures QuantitySum(rows, ids) == Qty(rows[y]) + QuantitySum(rows, ids - {y})
    decreases ids
  {
    var x :| x in ids && QuantitySum(rows, ids) == Qty(rows[x]) + QuantitySum(rows, ids - {x});
    if x != y {
      QuantitySumRemove(rows, ids - {x}, y);
      QuantitySumRemove(rows, ids - {y}, x);
      assert ids - {x} - {y} == ids - {y} - {x};
    }
  }

  /** Every listed quantity of `rows'` is `c` times the one in `rows`. */
  ghost predicate ScaledBy(rows: Rows, rows': Rows, ids: set<NodeId>, c: real)
    requires ids <= rows.Keys && ids <= rows'.Keys
  {
    forall id :: id in ids ==> Qty(rows'[id]) == c * Qty(rows[id])
  }

  /** Scaling every listed quantity by `c` scales their sum by `c`. */
  lemma {:induction false} QuantitySumScaled(rows: Rows, rows': Rows, ids: set<NodeId>, c: real)
    requires ids <= rows.Keys && ids <= rows'.Keys
    requires ScaledBy(rows, rows', ids, c)
    ensures QuantitySum(rows', ids) == c * QuantitySum(rows, ids)
    decreases ids
  {
    if ids != {} {
      NonEmptyHasElement(ids);
      var y :| y in ids;
      var rest := ids - {y};
      QuantitySumRemove(rows, ids, y);
      QuantitySumRemove(rows', ids, y);
      assert ScaledBy(rows, rows', rest, c);
      QuantitySumScaled(rows, rows', rest, c);
      ScaledStep(c, Qty(rows[y]), QuantitySum(rows, rest), Qty(rows'[y]), QuantitySum(rows', rest));
    }
  }

  /** One step of the scaled sum, as plain arithmetic. */
  lemma ScaledStep(c: real, a: real, s: real, a': real, s': real)
    requires a' == c * a && s' == c * s
    ensures a' + s' == c * (a + s)
  {
  }

  /** Rows that agree on the listed quantities agree on their sum. */
  lemma QuantitySumFrame(rows: Rows, rows': Rows, ids: set<NodeId>)
    requires ids <= rows.Keys && ids <= rows'.Keys
    requires forall id :: id in ids ==> Qty(rows'[id]) == Qty(rows[id])
    ensures QuantitySum(rows', ids) == QuantitySum(rows, ids)
  {
    assert ScaledBy(rows, rows', ids, 1.0);
    QuantitySumScaled(rows, rows', ids, 1.0);
  }

  /** One step of the constant sum, as plain arithmetic. */
  lemma ConstantStep(n: real, c: real, s: real)
    requires s == n * c
    ensures c + s == (n + 1.0) * c
  {
  }

  /** Equal quantities sum to their count times the value. */
  lemma {:induction false} QuantitySumConstant(rows: Rows, ids: set<NodeId>, c: real)
    requires ids <= rows.Keys
    requires forall id :: id in ids ==> Qty(rows[id]) == c
    ensures QuantitySum(rows, ids) == |ids| as real * c
    decreases ids
  {
    if ids != {} {
      NonEmptyHasElement(ids);
      var y :| y in ids;
      QuantitySumRemove(rows, ids, y);
      QuantitySumConstant(rows, ids - {y}, c);
      assert |ids| == |ids - {y}| + 1;
      ConstantStep(|ids - {y}| as real, c, QuantitySum(rows, ids - {y}));
    }
  }

  // ---------------------------------------------------------------------------------------
  // Rebalance: what the table looks like afterwards
  // ---------------------------------------------------------------------------------------

  /**
   * A child's new quantity: `new_value` times its pre-edit share of the children's total, or
   * times 1/count when that total is zero (Python's truth test on the total).
   */
  function Share(q: real, total: real, count: nat, newValue: real): real
    requires total != 0.0 || count > 0
  {
    var proportion := if total != 0.0 then q / total else 1.0 / count as real;
    newValue * proportion
  }

  /** The table after a proportional rebalance of the children of `p` to `newValue`. */
  ghost function ProportionallyRebalanced(rows: Rows, p: NodeId, newValue: real): (r: Rows)
    requires Known(rows, ChildIds(rows, p))
    ensures r.Keys == rows.Keys
    ensures forall id :: id in rows ==> r[id].(quantity := rows[id].quantity) == rows[id]
    ensures forall id :: id in rows && id !in ChildIds(rows, p) ==> r[id] == rows[id]
    ensures forall id :: id in ChildIds(rows, p) ==> r[id].quantity.Some?
  {
    var kids := ChildIds(rows, p);
    var total := QuantitySum(rows, kids);
    map id | id in rows ::
      if id in kids then rows[id].(quantity := Some(Share(Qty(rows[id]), total, |kids|, newValue))) else rows[id]
  }

  /** A table that agrees with the proportional rebalance row by row is that rebalance. */
  lemma ProportionallyRebalancedFrom(rows: Rows, p: NodeId, newValue: real, t: Rows)
    requires Known(rows, ChildIds(rows, p))
    requires t.Keys == rows.Keys
    requires var kids := ChildIds(rows, p);
      forall id :: id in rows ==>
        t[id] == if id in kids then rows[id].(quantity := Some(Share(Qty(rows[id]), QuantitySum(rows, kids), |kids|, newValue)))
                 else rows[id]
    ensures t == ProportionallyRebalanced(rows, p, newValue)
  {
    var r := ProportionallyRebalanced(rows, p, newValue);
    forall id | id in t ensures t[id] == r[id] {
    }
    assert t.Keys == r.Keys;
  }

  /** The table after an equal rebalance of the (existing) children of `p` to `newValue`. */
  function EquallyRebalanced(rows: Rows, p: NodeId, newValue: real): (r: Rows)
    requires ChildIds(rows, p) != {}
    ensures r.Keys == rows.Keys
    ensures forall id :: id in rows ==> r[id].(quantity := rows[id].quantity) == rows[id]
    ensures forall id :: id in rows && id !in ChildIds(rows, p) ==> r[id] == rows[id]
  {
    var kids := ChildIds(rows, p);
    var equalValue := newValue / |kids| as real;
    map id | id in rows :: if id in kids then rows[id].(quantity := Some(equalValue)) else rows[id]
  }

  /** Rewriting quantities only leaves every parent with the same children. */
  lemma QuantityEditKeepsChildren(rows: Rows, r: Rows, p: NodeId)
    requires r.Keys == rows.Keys
    requires forall id :: id in rows ==> r[id].(quantity := rows[id].quantity) == rows[id]
    ensures ChildIds(r, p) == ChildIds(rows, p)
  {
    forall id | id in rows ensures r[id].parentId == rows[id].parentId {
      assert r[id].(quantity := rows[id].quantity).parentId == r[id].parentId;
    }
  }

  /** With a nonzero total, each child gets `new_value * old / total`. */
  lemma ProportionalShares(rows: Rows, p: NodeId, newValue: real, id: NodeId)
    requires Known(rows, ChildIds(rows, p)) && id in ChildIds(rows, p)
    ensures var total := QuantitySum(rows, ChildIds(rows, p));
      var r := ProportionallyRebalanced(rows, p, newValue);
      total != 0.0 ==> Qty(r[id]) == newValue * Qty(rows[id]) / total
  {
  }

  /** The children's new quantities add up to exactly the new parent value. */
  lemma ProportionalSumsToNewValue(rows: Rows, p: NodeId, newValue: real)
    requires Known(rows, ChildIds(rows, p)) && ChildIds(rows, p) != {}
    ensures QuantitySum(ProportionallyRebalanced(rows, p, newValue), ChildIds(rows, p)) == newValue
  {
    var kids := ChildIds(rows, p);
    var total := QuantitySum(rows, kids);
    var r := ProportionallyRebalanced(rows, p, newValue);
    if total != 0.0 {
      forall id | id in kids ensures Qty(r[id]) == (newValue / total) * Qty(rows[id]) {
        assert Qty(r[id]) == newValue * (Qty(rows[id]) / total);
      }
      assert ScaledBy(rows, r, kids, newValue / total);
      QuantitySumScaled(rows, r, kids, newValue / total);
    } else {
      var n := |kids| as real;
      forall id | id in kids ensures Qty(r[id]) == newValue * (1.0 / n) {
      }
      QuantitySumConstant(r, kids, newValue * (1.0 / n));
      assert n * (newValue * (1.0 / n)) == newValue;
    }
  }

  /** Proportional rebalance keeps every ratio between siblings: new_i * old_j == new_j * old_i. */
  lemma ProportionalKeepsRatios(rows: Rows, p: NodeId, newValue: real, i: NodeId, j: NodeId)
    requires Known(rows, ChildIds(rows, p)) && i in ChildIds(rows, p) && j in ChildIds(rows, p)
    requires QuantitySum(rows, ChildIds(rows, p)) != 0.0
    ensures var r := ProportionallyRebalanced(rows, p, newValue);
      Qty(r[i]) * Qty(rows[j]) == Qty(r[j]) * Qty(rows[i])
  {
    var total := QuantitySum(rows, ChildIds(rows, p));
    var r := ProportionallyRebalanced(rows, p, newValue);
    var qi, qj := Qty(rows[i]), Qty(rows[j]);
    assert Qty(r[i]) == (newValue / total) * qi;
    assert Qty(r[j]) == (newValue / total) * qj;
    assert (newValue / total) * qi * qj == (newValue / total) * qj * qi;
  }

  /** With a zero total the proportional rebalance is the equal one: every child gets new_value / count. */
  lemma ProportionalOnZeroTotalIsEqual(rows: Rows, p: NodeId, newValue: real)
    requires Known(rows, ChildIds(rows, p)) && ChildIds(rows, p) != {}
    requires QuantitySum(rows, ChildIds(rows, p)) == 0.0
    ensures ProportionallyRebalanced(rows, p, newValue) == EquallyRebalanced(rows, p, newValue)
    ensures forall id :: id in ChildIds(rows, p) ==>
              ProportionallyRebalanced(rows, p, newValue)[id].quantity == Some(newValue / |ChildIds(rows, p)| as real)
  {
    var kids := ChildIds(rows, p);
    var n := |kids| as real;
    assert newValue * (1.0 / n) == newValue / n;
    var r1 := ProportionallyRebalanced(rows, p, newValue);
    var r2 := EquallyRebalanced(rows, p, newValue);
    forall id | id in rows ensures r1[id] == r2[id] {
      if id in kids {
        assert Share(Qty(rows[id]), 0.0, |kids|, newValue) == newValue / n;
      }
    }
  }

  /** A parent without children: the table is left as it was. */
  lemma ProportionalWithoutChildren(rows: Rows, p: NodeId, newValue: real)
    requires ChildIds(rows, p) == {}
    ensures ProportionallyRebalanced(rows, p, newValue) == rows
  {
  }

  /** Every child gets the same value, and together they add up to the new parent value. */
  lemma EqualSumsToNewValue(rows: Rows, p: NodeId, newValue: real)
    requires ChildIds(rows, p) != {}
    ensures var r := EquallyRebalanced(rows, p, newValue);
      && (forall i, j :: i in ChildIds(rows, p) && j in ChildIds(rows, p) ==> r[i].quantity == r[j].quantity)
      && QuantitySum(r, ChildIds(rows, p)) == newValue
  {
    var kids := ChildIds(rows, p);
    var n := |kids| as real;
    var r := EquallyRebalanced(rows, p, newValue);
    QuantitySumConstant(r, kids, newValue / n);
  }

  // ---------------------------------------------------------------------------------------
  // Roll-up
  // ---------------------------------------------------------------------------------------

  /** The table after rollup_to_parents(p): row p's quantity becomes the SUM over its children. */
  ghost function RolledUp(rows: Rows, p: NodeId): (r: Rows)
    ensures r.Keys == rows.Keys
    ensures forall id :: id in rows && id != p ==> r[id] == rows[id]
    ensures p in rows ==> r[p] == rows[p].(quantity := SqlSum(rows, ChildIds(rows, p)))
  {
    if p in rows then rows[p := rows[p].(quantity := SqlSum(rows, ChildIds(rows, p)))] else rows
  }

  /** Row p holds the SUM of its children's quantities. */
  ghost predicate SumsChildren(rows: Rows, p: NodeId)
    requires p in rows
  {
    rows[p].quantity == SqlSum(rows, ChildIds(rows, p))
  }

  /** Every row with children holds the SUM of their quantities. */
  ghost predicate Consistent(rows: Rows) {
    forall p :: p in rows && ChildIds(rows, p) != {} ==> SumsChildren(rows, p)
  }

  /** After the roll-up, row p (when it is not its own child) equals the sum over its children. */
  lemma RollupSumsChildren(rows: Rows, p: NodeId)
    requires p in rows && p !in ChildIds(rows, p)
    ensures SumsChildren(RolledUp(rows, p), p)
  {
    var r := RolledUp(rows, p);
    var kids := ChildIds(rows, p);
    assert ChildIds(r, p) == kids;
    QuantitySumFrame(rows, r, kids);
  }

  /** Rolling the same parent up twice changes nothing the first roll-up did not. */
  lemma RollupIdempotent(rows: Rows, p: NodeId)
    requires p !in ChildIds(rows, p)
    ensures RolledUp(RolledUp(rows, p), p) == RolledUp(rows, p)
  {
    if p in rows {
      RollupSumsChildren(rows, p);
    }
  }

  /** On a consistent table, rolling up a parent that has children changes nothing. */
  lemma RollupOfConsistentTable(rows: Rows, p: NodeId)
    requires Consistent(rows) && p in rows && ChildIds(rows, p) != {}
    ensures RolledUp(rows, p) == rows
  {
  }

  /**
   * The edit path: rebalance the children of p to `newValue`, then roll p up. Row p ends
   * with exactly `newValue`, whether the weights were proportional or equal.
   */
  lemma RebalanceThenRollup(rows: Rows, p: NodeId, newValue: real)
    requires p in rows && p !in ChildIds(rows, p)
    requires Known(rows, ChildIds(rows, p)) && ChildIds(rows, p) != {}
    ensures RolledUp(ProportionallyRebalanced(rows, p, newValue), p)[p].quantity == Some(newValue)
    ensures RolledUp(EquallyRebalanced(rows, p, newValue), p)[p].quantity == Some(newValue)
  {
    var kids := ChildIds(rows, p);
    NonEmptyHasElement(kids);
    var c :| c in kids;
    var r1 := ProportionallyRebalanced(rows, p, newValue);
    ProportionalSumsToNewValue(rows, p, newValue);
    QuantityEditKeepsChildren(rows, r1, p);
    assert r1[c].quantity.Some?;
    var r2 := EquallyRebalanced(rows, p, newValue);
    EqualSumsToNewValue(rows, p, newValue);
    QuantityEditKeepsChildren(rows, r2, p);
    assert r2[c].quantity.Some?;
  }
}
