/**
 * Node ids and parent ids for a rebuilt summary table. Row i of the build becomes node i;
 * its parent_id is the node holding its parent group (family -> brand -> supplier), and a
 * supplier row has no parent.
 */
module Numbering {
  import opened Wrappers
  import opened Summary
  import opened Table

  /** The position of the first row with key `k`, if any. */
  function Find(rows: seq<SummaryRow>, k: GroupKey): (r: Option<nat>)
    ensures r.Some? ==> r.value < |rows| && rows[r.value].key == k
    ensures r.Some? ==> forall i :: 0 <= i < r.value ==> rows[i].key != k
    ensures r.None? ==> forall i :: 0 <= i < |rows| ==> rows[i].key != k
  {
    if rows == [] then None
    else if rows[0].key == k then Some(0)
    else
      match Find(rows[1..], k)
      case None => None
      case Some(j) => Some(j + 1)
  }

  /** The node id of the row holding the parent group of row `i`. */
  function ParentIndex(rows: seq<SummaryRow>, i: int): Option<NodeId>
    requires 0 <= i < |rows|
  {
    match ParentKey(rows[i].key)
    case None => None
    case Some(pk) =>
      match Find(rows, pk)
      case None => None
      case Some(j) => Some(j)
  }

  /** The rebuilt table: one node per row of the build, numbered by position. */
  function Index(rows: seq<SummaryRow>): (t: Rows)
    ensures forall i :: i in t <==> 0 <= i < |rows|
    ensures forall i :: 0 <= i < |rows| ==>
              t[i].key == rows[i].key && t[i].quantity == Some(rows[i].quantity) && t[i].netAmount == rows[i].netAmount
  {
    map i | 0 <= i < |rows| :: Node(ParentIndex(rows, i), rows[i].key, Some(rows[i].quantity), rows[i].netAmount)
  }

  /** No key occurs twice. */
  ghost predicate UniqueKeys(rows: seq<SummaryRow>) {
    forall i, j :: 0 <= i < |rows| && 0 <= j < |rows| && rows[i].key == rows[j].key ==> i == j
  }

  /** The rows whose parent group is `kp`, among the first `n`. */
  ghost function ChildPositions(rows: seq<SummaryRow>, kp: GroupKey, n: int): set<NodeId> {
    set i | 0 <= i < n && i < |rows| && ParentKey(rows[i].key) == Some(kp)
  }

  /** With unique keys, node j is the parent of node i exactly when row j holds row i's parent group. */
  lemma IndexParent(rows: seq<SummaryRow>, i: int, j: int)
    requires UniqueKeys(rows) && 0 <= i < |rows| && 0 <= j < |rows|
    ensures Index(rows)[i].parentId == Some(j) <==> ParentKey(rows[i].key) == Some(rows[j].key)
  {
    if ParentKey(rows[i].key) == Some(rows[j].key) {
      var f := Find(rows, rows[j].key);
      assert f.Some?;
      assert rows[f.value].key == rows[j].key;
    }
  }

  /** The children of node p are the rows whose parent group is row p's group. */
  lemma IndexChildren(rows: seq<SummaryRow>, p: int)
    requires UniqueKeys(rows) && 0 <= p < |rows|
    ensures ChildIds(Index(rows), p) == ChildPositions(rows, rows[p].key, |rows|)
  {
    var t := Index(rows);
    forall i | i in t ensures t[i].parentId == Some(p) <==> ParentKey(rows[i].key) == Some(rows[p].key) {
      IndexParent(rows, i, p);
    }
  }

  /** The quantities of the children among the first n rows add up as the build's child sum does. */
  lemma {:induction false} PrefixChildSum(rows: seq<SummaryRow>, t: Rows, kp: GroupKey, n: nat)
    requires n <= |rows|
    requires forall i :: 0 <= i < |rows| ==> i in t && t[i].quantity == Some(rows[i].quantity)
    ensures ChildPositions(rows, kp, n) <= t.Keys
    ensures QuantitySum(t, ChildPositions(rows, kp, n)) == ChildSum(rows[..n], kp, Quantity)
  {
    var s := ChildPositions(rows, kp, n);
    if n == 0 {
      assert s == {};
    } else {
      PrefixChildSum(rows, t, kp, n - 1);
      var s' := ChildPositions(rows, kp, n - 1);
      assert rows[..n][..n - 1] == rows[..n - 1];
      if ParentKey(rows[n - 1].key) == Some(kp) {
        QuantitySumRemove(t, s, n - 1);
        assert s - {n - 1} == s';
      } else {
        assert s == s';
      }
    }
  }

  /** The children of node p carry, between them, exactly the build's child sum for row p. */
  lemma IndexChildSum(rows: seq<SummaryRow>, p: int)
    requires UniqueKeys(rows) && 0 <= p < |rows|
    ensures QuantitySum(Index(rows), ChildIds(Index(rows), p)) == ChildSum(rows, rows[p].key, Quantity)
  {
    IndexChildren(rows, p);
    PrefixChildSum(rows, Index(rows), rows[p].key, |rows|);
    assert rows[..|rows|] == rows;
  }

  /** The build never repeats a key. */
  lemma AggregateUniqueKeys(facts: seq<Fact>)
    ensures UniqueKeys(Aggregate(facts))
  {
    var rows := Aggregate(facts);
    forall i, j | 0 <= i < |rows| && 0 <= j < |rows| && rows[i].key == rows[j].key ensures i == j {
      AggregateKeysUnique(facts, i, j);
    }
  }

  /** A freshly built table is consistent: every node with children holds their SUM. */
  lemma AggregateIndexConsistent(facts: seq<Fact>)
    ensures Consistent(Index(Aggregate(facts)))
  {
    var rows := Aggregate(facts);
    var t := Index(rows);
    AggregateUniqueKeys(facts);
    forall p | p in t && ChildIds(t, p) != {} ensures SumsChildren(t, p) {
      var kids := ChildIds(t, p);
      IndexChildren(rows, p);
      IndexChildSum(rows, p);
      NonEmptyHasElement(kids);
      var c :| c in kids;
      assert ParentKey(rows[c].key) == Some(rows[p].key);
      assert rows[p].key.level != FamilyLevel;
      AggregateConsistent(facts, rows[p], Quantity);
      assert t[c].quantity.Some?;
    }
  }

  /**
   * The rebuilt table's parent links follow the grouping hierarchy: a supplier row has no
   * parent, and every other row's parent is the row of its parent group.
   */
  lemma AggregateIndexHierarchy(facts: seq<Fact>, i: int)
    requires 0 <= i < |Aggregate(facts)|
    ensures var rows := Aggregate(facts);
      var t := Index(rows);
      && (rows[i].key.level == SupplierLevel ==> t[i].parentId.None?)
      && (rows[i].key.level != SupplierLevel ==>
            t[i].parentId.Some? && t[i].parentId.value in t && Some(t[t[i].parentId.value].key) == ParentKey(rows[i].key))
  {
    var rows := Aggregate(facts);
    if rows[i].key.level != SupplierLevel {
      assert rows[i] in rows;
      AggregateParentsPresent(facts, rows[i]);
      var q :| q in rows && Some(q.key) == ParentKey(rows[i].key);
      var f := Find(rows, q.key);
      assert f.Some?;
    }
  }

  /** A successful rebuild of the summary table yields a consistent table. */
  lemma RebuildConsistent(sales: seq<Sale>, products: seq<Product>)
    requires Build(sales, products).Ok?
    ensures Consistent(Index(Build(sales, products).value))
  {
    var facts := ToFacts(Join(sales, products)).value;
    AggregateIndexConsistent(facts);
  }
}
