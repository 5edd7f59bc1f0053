/**
 * The database manager: the sales and product tables, the derived summary table, and the
 * operations that edit the summary or rebuild it. Each SQL statement is one step on the
 * manager's state.
 */
module Manager {
  import opened Wrappers
  import opened Summary
  import opened Table
  import opened Numbering

  /** What a call can raise: Python's errors in the rebalance helpers, or a failed rebuild. */
  datatype DbError = TypeError | ZeroDivisionError | BuildFailed(cause: BuildError)

  /** UPDATE sales SET <assignment> WHERE <condition>, on each row independently. */
  function UpdateWhere(sales: seq<Sale>, assign: Sale -> Sale, condition: Sale -> bool): (r: seq<Sale>)
    ensures |r| == |sales|
    ensures forall i :: 0 <= i < |sales| ==> r[i] == (if condition(sales[i]) then assign(sales[i]) else sales[i])
  {
    if sales == [] then []
    else
      var s := sales[|sales| - 1];
      UpdateWhere(sales[..|sales| - 1], assign, condition) + [if condition(s) then assign(s) else s]
  }

  /** A condition no row meets leaves the sales table as it was. */
  lemma UpdateWhereNoMatch(sales: seq<Sale>, assign: Sale -> Sale, condition: Sale -> bool)
    requires forall s :: s in sales ==> !condition(s)
    ensures UpdateWhere(sales, assign, condition) == sales
  {
  }

  /**
   * The outcome of recalculate_summary on the given tables. Its DELETE runs before the INSERT,
   * so an INSERT that raises leaves the summary empty.
   */
  ghost predicate Recalculated(after: Rows, sales: seq<Sale>, products: seq<Product>, r: Outcome<DbError>) {
    match Build(sales, products)
    case Ok(rows) => r == Pass && after == Index(rows)
    case Err(e) => r == Fail(BuildFailed(e)) && after == map[]
  }

  class SalesDatabase {
    var products: seq<Product>
    var sales: seq<Sale>
    var summary: Rows

    constructor (products: seq<Product>, sales: seq<Sale>, summary: Rows)
      ensures this.products == products && this.sales == sales && this.summary == summary
    {
      this.products := products;
      this.sales := sales;
      this.summary := summary;
    }

    /** DELETE the summary, then INSERT the grouping-sets build of the current sales and products. */
    method RecalculateSummary() returns (r: Outcome<DbError>)
      modifies this`summary
      ensures Recalculated(summary, sales, products, r)
      ensures r == Pass ==> Consistent(summary)
    {
      summary := map[];
      match Build(sales, products)
      case Ok(rows) =>
        RebuildConsistent(sales, products);
        summary := Index(rows);
        r := Pass;
      case Err(e) =>
        r := Fail(BuildFailed(e));
    }

    /** Propagate an edit: only a "product" edit touches the sales table and rebuilds the summary. */
    method UpdateDependencies(table: string, assign: Sale -> Sale, condition: Sale -> bool) returns (r: Outcome<DbError>)
      modifies this`sales, this`summary
      ensures products == old(products)
      ensures table != "product" ==> r == Pass && sales == old(sales) && summary == old(summary)
      ensures table == "product" ==> sales == UpdateWhere(old(sales), assign, condition)
      ensures table == "product" ==> Recalculated(summary, sales, products, r)
      ensures table == "product" && r == Pass ==> Consistent(summary)
    {
      r := Pass;
      if table == "product" {
        sales := UpdateWhere(sales, assign, condition);
        r := RecalculateSummary();
      }
    }

    /** Set the quantity of node `parentId` to the SUM of its children's quantities (NULL when none has one). */
    method RollupToParents(parentId: NodeId)
      modifies this`summary
      ensures summary == RolledUp(old(summary), parentId)
    {
      var rows := summary;
      var kids := ChildIds(rows, parentId);
      var total := 0.0;
      var anyKnown := false;
      var rest := kids;
      ghost var seen: set<NodeId> := {};
      while rest != {}
        invariant rest <= kids && seen == kids - rest
        invariant summary == rows
        invariant total == QuantitySum(rows, seen)
        invariant anyKnown == AnyKnown(rows, seen)
        decreases rest
      {
        NonEmptyHasElement(rest);
        var id :| id in rest;
        QuantitySumRemove(rows, seen + {id}, id);
        assert seen + {id} - {id} == seen;
        match rows[id].quantity {
          case None =>
          case Some(q) =>
            total := total + q;
            anyKnown := true;
        }
        rest := rest - {id};
        seen := seen + {id};
      }
      assert seen == kids;
      if parentId in rows {
        var sum := if anyKnown then Some(total) else None;
        summary := rows[parentId := rows[parentId].(quantity := sum)];
      }
    }
  }

  /**
   * Python's `sum` over the children's quantities: the total, or None where a NULL quantity
   * makes `0 + None` a TypeError.
   */
  method SumChildQuantities(rows: Rows, children: set<NodeId>) returns (r: Option<real>)
    requires children <= rows.Keys
    ensures r.Some? <==> Known(rows, children)
    ensures r.Some? ==> r.value == QuantitySum(rows, children)
  {
    var total := 0.0;
    var rest := children;
    ghost var seen: set<NodeId> := {};
    while rest != {}
      invariant rest <= children && seen == children - rest
      invariant Known(rows, seen)
      invariant total == QuantitySum(rows, seen)
      decreases rest
    {
      NonEmptyHasElement(rest);
      var id :| id in rest;
      match rows[id].quantity
      case None =>
        return None;
      case Some(q) =>
        QuantitySumRemove(rows, seen + {id}, id);
        assert seen + {id} - {id} == seen;
        total := total + q;
        rest := rest - {id};
        seen := seen + {id};
    }
    assert seen == children;
    return Some(total);
  }

  /**
   * The update loop of the proportional rebalance: every listed child gets `newValue` times
   * its share of `total`, or times 1/count when `total` is zero.
   */
  method WriteShares(db: SalesDatabase, children: set<NodeId>, total: real, newValue: real)
    requires children <= db.summary.Keys
    modifies db`summary
    ensures db.summary.Keys == old(db.summary).Keys
    ensures forall id :: id in old(db.summary) ==>
              db.summary[id] == if id in children
                                then old(db.summary)[id].(quantity := Some(Share(Qty(old(db.summary)[id]), total, |children|, newValue)))
                                else old(db.summary)[id]
  {
    ghost var rows := db.summary;
    var rest := children;
    ghost var done: set<NodeId> := {};
    while rest != {}
      invariant rest <= children && done == children - rest
      invariant db.summary.Keys == rows.Keys
      invariant forall id :: id in rows ==>
                  db.summary[id] == if id in done then rows[id].(quantity := Some(Share(Qty(rows[id]), total, |children|, newValue)))
                                    else rows[id]
      decreases rest
    {
      NonEmptyHasElement(rest);
      var id :| id in rest;
      var newChildValue := Share(Qty(db.summary[id]), total, |children|, newValue);
      db.summary := db.summary[id := db.summary[id].(quantity := Some(newChildValue))];
      rest := rest - {id};
      done := done + {id};
    }
    assert done == children;
  }

  /**
   * Set the children of `parentId` so that they sum to `newValue`, each keeping its share of
   * the children's total as read before any update (an equal share when that total is zero).
   * A child with a NULL quantity makes the total a Python TypeError, before anything is written.
   */
  method ProportionalRebalance(db: SalesDatabase, parentId: NodeId, newValue: real) returns (r: Outcome<DbError>)
    modifies db`summary
    ensures r == Pass <==> Known(old(db.summary), ChildIds(old(db.summary), parentId))
    ensures r == Pass ==> db.summary == ProportionallyRebalanced(old(db.summary), parentId, newValue)
    ensures r != Pass ==> r == Fail(TypeError) && db.summary == old(db.summary)
  {
    var rows := db.summary;
    var children := ChildIds(rows, parentId);
    var sum := SumChildQuantities(rows, children);
    if sum.None? {
      return Fail(TypeError);
    }
    var total := sum.value;

    WriteShares(db, children, total, newValue);
    ProportionallyRebalancedFrom(rows, parentId, newValue, db.summary);
    r := Pass;
  }

  /**
   * Set every child of `parentId` to `newValue / count`. With no children this is Python's
   * ZeroDivisionError, raised before anything is written.
   */
  method EqualRebalance(db: SalesDatabase, parentId: NodeId, newValue: real) returns (r: Outcome<DbError>)
    modifies db`summary
    ensures r == Pass <==> ChildIds(old(db.summary), parentId) != {}
    ensures r == Pass ==> db.summary == EquallyRebalanced(old(db.summary), parentId, newValue)
    ensures r != Pass ==> r == Fail(ZeroDivisionError) && db.summary == old(db.summary)
  {
    var rows := db.summary;
    var children := ChildIds(rows, parentId);
    if |children| == 0 {
      return Fail(ZeroDivisionError);
    }
    var equalValue := newValue / |children| as real;

    ghost var target := EquallyRebalanced(rows, parentId, newValue);
    var rest := children;
    ghost var done: set<NodeId> := {};
    while rest != {}
      invariant rest <= children && done == children - rest
      invariant db.summary.Keys == rows.Keys
      invariant forall id :: id in rows ==> db.summary[id] == (if id in done then target[id] else rows[id])
      decreases rest
    {
      NonEmptyHasElement(rest);
      var id :| id in rest;
      db.summary := db.summary[id := db.summary[id].(quantity := Some(equalValue))];
      rest := rest - {id};
      done := done + {id};
    }
    assert done == children;
    assert forall id :: id in rows ==> db.summary[id] == target[id];
    r := Pass;
  }
}
