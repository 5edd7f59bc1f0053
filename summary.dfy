/**
 * The summary table sales_summary_by_product_family: sales joined to products, grouped by
 * three grouping sets over (supplier, brand, family, month) and summed.
 */
module Summary {
  import opened Wrappers
  import opened Seqs
  import opened Dates

  /** A row of the product table. */
  datatype Product = Product(productId: int, name: string, supplier: string, brand: string, family: string)

  /** A row of the sales table; the invoice date is stored as text. */
  datatype Sale = Sale(productId: int, customerId: int, invoiceDate: string, quantity: int, netPrice: real)

  /** A row of `sales s JOIN product p ON s.product_id = p.product_id`. */
  datatype JoinedSale = JoinedSale(sale: Sale, product: Product)

  /** A joined sale with its invoice month computed: what the grouping sees of it. */
  datatype Fact = Fact(supplier: string, brand: string, family: string, month: string, quantity: int, netPrice: real)

  datatype BuildError = InvalidDate(text: string)

  /** The three grouping sets, finest first. */
  datatype GroupingSet =
    | FamilyLevel    // (supplier, brand, family, month)
    | BrandLevel     // (supplier, brand, month)
    | SupplierLevel  // (supplier, month)

  /**
   * GROUPING_ID(supplier, brand, family): a bit per argument, the last argument the lowest,
   * set when that argument is collapsed in the row's grouping set.
   */
  function GroupingId(groupsSupplier: bool, groupsBrand: bool, groupsFamily: bool): nat {
    (if groupsSupplier then 0 else 4) + (if groupsBrand then 0 else 2) + (if groupsFamily then 0 else 1)
  }

  /** The `grouping_set_id` column of a row of grouping set `g`. */
  function GroupingSetId(g: GroupingSet): (id: nat)
    ensures g == FamilyLevel ==> id == 0
    ensures g == BrandLevel ==> id == 1
    ensures g == SupplierLevel ==> id == 3
  {
    GroupingId(true, g != SupplierLevel, g == FamilyLevel)
  }

  /** The identity of a summary row: its grouping set and its grouped columns (None for NULL). */
  datatype GroupKey = GroupKey(level: GroupingSet, supplier: string, brand: Option<string>, family: Option<string>, month: string)

  /** A row of the summary table. */
  datatype SummaryRow = SummaryRow(key: GroupKey, quantity: real, netAmount: real)

  /** The two summed columns. */
  datatype Measure = Quantity | NetAmount

  /** Columns a grouping set collapses are NULL; the others are present. */
  predicate WellFormedKey(k: GroupKey) {
    match k.level
    case FamilyLevel => k.brand.Some? && k.family.Some?
    case BrandLevel => k.brand.Some? && k.family.None?
    case SupplierLevel => k.brand.None? && k.family.None?
  }

  /** The group a fact falls in under grouping set `g`. */
  function KeyOf(f: Fact, g: GroupingSet): (k: GroupKey)
    ensures k.level == g && WellFormedKey(k)
    ensures k.supplier == f.supplier && k.month == f.month
  {
    match g
    case FamilyLevel => GroupKey(FamilyLevel, f.supplier, Some(f.brand), Some(f.family), f.month)
    case BrandLevel => GroupKey(BrandLevel, f.supplier, Some(f.brand), None, f.month)
    case SupplierLevel => GroupKey(SupplierLevel, f.supplier, None, None, f.month)
  }

  /** The next coarser grouping set. */
  function ParentLevel(g: GroupingSet): GroupingSet
    requires g != SupplierLevel
  {
    if g == FamilyLevel then BrandLevel else SupplierLevel
  }

  /** The group one level up that contains group `k`: family collapses first, then brand. */
  function ParentKey(k: GroupKey): (p: Option<GroupKey>)
    ensures p.None? <==> k.level == SupplierLevel
    ensures p.Some? ==> p.value.level == ParentLevel(k.level)
  {
    match k.level
    case FamilyLevel => Some(k.(level := BrandLevel, family := None))
    case BrandLevel => Some(k.(level := SupplierLevel, brand := None))
    case SupplierLevel => None
  }

  /** The parent of a fact's group is that fact's group one level up. */
  lemma ParentOfKeyOf(f: Fact, g: GroupingSet)
    requires g != SupplierLevel
    ensures ParentKey(KeyOf(f, g)) == Some(KeyOf(f, ParentLevel(g)))
  {
  }

  function FactValue(f: Fact, m: Measure): real {
    match m
    case Quantity => f.quantity as real
    case NetAmount => f.netPrice
  }

  function RowValue(r: SummaryRow, m: Measure): real {
    match m
    case Quantity => r.quantity
    case NetAmount => r.netAmount
  }

  // ---------------------------------------------------------------------------------------
  // The join and the month bucket
  // ---------------------------------------------------------------------------------------

  /** The products a sale joins to, in product-table order. */
  function MatchingProducts(s: Sale, products: seq<Product>): (r: seq<JoinedSale>)
    ensures forall j :: j in r <==> j.sale == s && j.product in products && j.product.productId == s.productId
    ensures (forall p :: p in products ==> p.productId != s.productId) ==> r == []
  {
    if products == [] then []
    else
      var p := products[|products| - 1];
      var rest := MatchingProducts(s, products[..|products| - 1]);
      assert forall q :: q in products <==> q in products[..|products| - 1] || q == p;
      if p.productId == s.productId then rest + [JoinedSale(s, p)] else rest
  }

  /** The inner join of sales with products on product_id. */
  function Join(sales: seq<Sale>, products: seq<Product>): seq<JoinedSale> {
    if sales == [] then []
    else MatchingProducts(sales[0], products) + Join(sales[1..], products)
  }

  /** The join of a concatenation of sales tables is the concatenation of their joins. */
  lemma {:induction false} JoinConcat(a: seq<Sale>, b: seq<Sale>, products: seq<Product>)
    ensures Join(a + b, products) == Join(a, products) + Join(b, products)
  {
    if a == [] {
      assert a + b == b;
    } else {
      assert (a + b)[0] == a[0] && (a + b)[1..] == a[1..] + b;
      JoinConcat(a[1..], b, products);
    }
  }

  /** A joined row pairs a sale and a product with the same product_id, and every such pair joins. */
  lemma {:induction false} JoinMembership(sales: seq<Sale>, products: seq<Product>, j: JoinedSale)
    ensures j in Join(sales, products) <==>
              j.sale in sales && j.product in products && j.sale.productId == j.product.productId
  {
    if sales != [] {
      var tail := sales[1..];
      JoinMembership(tail, products, j);
      assert j.sale in sales <==> j.sale == sales[0] || j.sale in tail;
    }
  }

  /** The fact a joined sale contributes; None when its invoice date does not cast to a DATE. */
  function ToFact(j: JoinedSale): Option<Fact> {
    match ParseDate(j.sale.invoiceDate)
    case None => None
    case Some(d) =>
      Some(Fact(j.product.supplier, j.product.brand, j.product.family, FormatMonth(d), j.sale.quantity, j.sale.netPrice))
  }

  /** The facts of all joined rows, or the first invoice date that fails the cast. */
  function ToFacts(js: seq<JoinedSale>): (r: Result<seq<Fact>, BuildError>)
    ensures r.Ok? <==> forall i :: 0 <= i < |js| ==> ToFact(js[i]).Some?
    ensures r.Ok? ==> |r.value| == |js| && forall i :: 0 <= i < |js| ==> Some(r.value[i]) == ToFact(js[i])
    ensures r.Err? ==> exists i :: 0 <= i < |js| && ToFact(js[i]).None? && r.error == InvalidDate(js[i].sale.invoiceDate)
  {
    if js == [] then Ok([])
    else
      var init := js[..|js| - 1];
      var last := js[|js| - 1];
      assert forall i :: 0 <= i < |init| ==> init[i] == js[i];
      match ToFacts(init)
      case Err(e) => Err(e)
      case Ok(fs) =>
        match ToFact(last)
        case None => Err(InvalidDate(last.sale.invoiceDate))
        case Some(f) =>
          assert forall i :: 0 <= i < |init| ==> (fs + [f])[i] == fs[i];
          Ok(fs + [f])
  }

  /** Every fact's month is the YYYY-MM truncation of its sale's stored invoice date. */
  lemma FactMonths(js: seq<JoinedSale>)
    requires ToFacts(js).Ok?
    ensures forall i :: 0 <= i < |js| ==> ToFacts(js).value[i].month == js[i].sale.invoiceDate[..7]
  {
    forall i | 0 <= i < |js| {
      FactMonthAt(js, i);
    }
  }

  lemma FactMonthAt(js: seq<JoinedSale>, i: int)
    requires ToFacts(js).Ok? && 0 <= i < |js|
    ensures ToFacts(js).value[i].month == js[i].sale.invoiceDate[..7]
  {
    var d := ParseDate(js[i].sale.invoiceDate);
    assert d.Some?;
    MonthIsPrefix(js[i].sale.invoiceDate);
  }

  // ---------------------------------------------------------------------------------------
  // Grouping and summing
  // ---------------------------------------------------------------------------------------

  /** SUM of measure `m` over the facts in group `k`. */
  function GroupSum(facts: seq<Fact>, k: GroupKey, m: Measure): real {
    if facts == [] then 0.0
    else
      var f := facts[|facts| - 1];
      GroupSum(facts[..|facts| - 1], k, m) + (if KeyOf(f, k.level) == k then FactValue(f, m) else 0.0)
  }

  /** The summary row of group `k`. */
  function GroupRow(facts: seq<Fact>, k: GroupKey): SummaryRow {
    SummaryRow(k, GroupSum(facts, k, Quantity), GroupSum(facts, k, NetAmount))
  }

  /** The groups of grouping set `g` that some fact falls in, each once, in order of first occurrence. */
  function Groups(facts: seq<Fact>, g: GroupingSet): (ks: seq<GroupKey>)
    ensures Distinct(ks)
    ensures forall i :: 0 <= i < |ks| ==> ks[i].level == g
  {
    Dedup(KeysOf(facts, g))
  }

  /** The group of each fact under `g`, in order. */
  function KeysOf(facts: seq<Fact>, g: GroupingSet): (ks: seq<GroupKey>)
    ensures |ks| == |facts|
    ensures forall i :: 0 <= i < |facts| ==> ks[i] == KeyOf(facts[i], g)
  {
    if facts == [] then []
    else KeysOf(facts[..|facts| - 1], g) + [KeyOf(facts[|facts| - 1], g)]
  }

  /** A key is listed among the groups of `g` exactly when some fact falls in it. */
  lemma GroupsMembership(facts: seq<Fact>, g: GroupingSet, k: GroupKey)
    ensures k in Groups(facts, g) <==> exists f :: f in facts && KeyOf(f, g) == k
  {
    var projected := KeysOf(facts, g);
    var ks := Groups(facts, g);
    if k in ks {
      var i :| 0 <= i < |ks| && ks[i] == k;
      var j :| 0 <= j < |facts| && projected[j] == k;
      assert facts[j] in facts;
    }
    if f :| f in facts && KeyOf(f, g) == k {
      var j :| 0 <= j < |facts| && facts[j] == f;
      assert projected[j] == k;
    }
  }

  /** One summary row per key, in key order. */
  function RowsOf(facts: seq<Fact>, ks: seq<GroupKey>): (rows: seq<SummaryRow>)
    ensures |rows| == |ks|
  {
    if ks == [] then [] else RowsOf(facts, ks[..|ks| - 1]) + [GroupRow(facts, ks[|ks| - 1])]
  }

  /** The i-th row is the summary row of the i-th key. */
  lemma {:induction false} RowsOfAt(facts: seq<Fact>, ks: seq<GroupKey>, i: nat)
    requires i < |ks|
    ensures RowsOf(facts, ks)[i] == GroupRow(facts, ks[i])
  {
    if i < |ks| - 1 {
      RowsOfAt(facts, ks[..|ks| - 1], i);
    }
  }

  /** GROUP BY GROUPING SETS over the facts: the family, brand and supplier levels in turn. */
  function Aggregate(facts: seq<Fact>): seq<SummaryRow> {
    Block(facts, FamilyLevel) + Block(facts, BrandLevel) + Block(facts, SupplierLevel)
  }

  /** The rows of one grouping set. */
  function Block(facts: seq<Fact>, g: GroupingSet): seq<SummaryRow> {
    RowsOf(facts, Groups(facts, g))
  }

  /** Where the block of `g` starts in the aggregate. */
  function Offset(facts: seq<Fact>, g: GroupingSet): nat {
    match g
    case FamilyLevel => 0
    case BrandLevel => |Groups(facts, FamilyLevel)|
    case SupplierLevel => |Groups(facts, FamilyLevel)| + |Groups(facts, BrandLevel)|
  }

  /** The CREATE TABLE ... AS SELECT that builds the summary table from sales and products. */
  function Build(sales: seq<Sale>, products: seq<Product>): Result<seq<SummaryRow>, BuildError> {
    match ToFacts(Join(sales, products))
    case Err(e) => Err(e)
    case Ok(facts) => Ok(Aggregate(facts))
  }

  /** A sale that matches no product changes nothing in the summary, wherever it sits in the sales table. */
  lemma UnmatchedSaleIgnored(before: seq<Sale>, after: seq<Sale>, products: seq<Product>, s: Sale)
    requires forall p :: p in products ==> p.productId != s.productId
    ensures Build(before + [s] + after, products) == Build(before + after, products)
  {
    UnmatchedSaleJoinsNothing(before, after, products, s);
  }

  lemma UnmatchedSaleJoinsNothing(before: seq<Sale>, after: seq<Sale>, products: seq<Product>, s: Sale)
    requires forall p :: p in products ==> p.productId != s.productId
    ensures Join(before + [s] + after, products) == Join(before + after, products)
  {
    JoinConcat(before + [s], after, products);
    JoinConcat(before, [s], products);
    JoinConcat(before, after, products);
    assert [s][1..] == [];
    assert Join([s], products) == MatchingProducts(s, products) + Join([], products);
  }

  /** The build fails exactly when some joined sale's invoice date does not cast to a DATE. */
  lemma BuildFailsOnlyOnBadDates(sales: seq<Sale>, products: seq<Product>)
    ensures Build(sales, products).Err? <==>
              exists s, p :: s in sales && p in products && s.productId == p.productId && ParseDate(s.invoiceDate).None?
  {
    var js := Join(sales, products);
    if Build(sales, products).Err? {
      var i :| 0 <= i < |js| && ToFact(js[i]).None?;
      JoinMembership(sales, products, js[i]);
    }
    forall s, p | s in sales && p in products && s.productId == p.productId && ParseDate(s.invoiceDate).None?
      ensures Build(sales, products).Err?
    {
      JoinMembership(sales, products, JoinedSale(s, p));
      var i :| 0 <= i < |js| && js[i] == JoinedSale(s, p);
      assert ToFact(js[i]).None?;
    }
  }

  // ---------------------------------------------------------------------------------------
  // Properties of the aggregate
  // ---------------------------------------------------------------------------------------

  /** Row i of the aggregate is row j of the block of some grouping set g. */
  lemma AggregateAt(facts: seq<Fact>, i: nat) returns (g: GroupingSet, j: nat)
    requires i < |Aggregate(facts)|
    ensures j < |Block(facts, g)| && i == Offset(facts, g) + j
    ensures Aggregate(facts)[i] == Block(facts, g)[j]
  {
    var a, b, c := Block(facts, FamilyLevel), Block(facts, BrandLevel), Block(facts, SupplierLevel);
    assert |a| == |Groups(facts, FamilyLevel)| && |b| == |Groups(facts, BrandLevel)|;
    ConcatAt(a, b, c, i);
    if i < |a| {
      g, j := FamilyLevel, i;
    } else if i < |a| + |b| {
      g, j := BrandLevel, i - |a|;
    } else {
      g, j := SupplierLevel, i - |a| - |b|;
    }
  }

  lemma ConcatAt<T>(a: seq<T>, b: seq<T>, c: seq<T>, i: nat)
    requires i < |a| + |b| + |c|
    ensures (a + b + c)[i] == if i < |a| then a[i] else if i < |a| + |b| then b[i - |a|] else c[i - |a| - |b|]
  {
  }

  lemma BlockAt(facts: seq<Fact>, g: GroupingSet, i: nat)
    requires i < |Block(facts, g)|
    ensures |Block(facts, g)| == |Groups(facts, g)|
    ensures Block(facts, g)[i] == GroupRow(facts, Groups(facts, g)[i])
    ensures Block(facts, g)[i].key.level == g
  {
    RowsOfAt(facts, Groups(facts, g), i);
  }

  /** A row of a block is the group row of one of that block's groups. */
  lemma BlockRow(facts: seq<Fact>, g: GroupingSet, r: SummaryRow)
    requires r in Block(facts, g)
    ensures r.key in Groups(facts, g) && r.key.level == g && r == GroupRow(facts, r.key)
  {
    var ks := Groups(facts, g);
    var i :| 0 <= i < |Block(facts, g)| && Block(facts, g)[i] == r;
    RowsOfAt(facts, ks, i);
  }

  /** Every group of a block has its row there. */
  lemma BlockHasGroup(facts: seq<Fact>, g: GroupingSet, k: GroupKey)
    requires k in Groups(facts, g)
    ensures GroupRow(facts, k) in Block(facts, g)
  {
    var ks := Groups(facts, g);
    var i :| 0 <= i < |ks| && ks[i] == k;
    RowsOfAt(facts, ks, i);
    assert Block(facts, g)[i] == GroupRow(facts, k);
  }

  /** Every row is the sum over a nonempty group of one of the three grouping sets. */
  lemma AggregateRowsAreGroups(facts: seq<Fact>, r: SummaryRow)
    requires r in Aggregate(facts)
    ensures WellFormedKey(r.key)
    ensures GroupingSetId(r.key.level) in {0, 1, 3}
    ensures exists f :: f in facts && KeyOf(f, r.key.level) == r.key
    ensures r.quantity == GroupSum(facts, r.key, Quantity)
    ensures r.netAmount == GroupSum(facts, r.key, NetAmount)
  {
    var g :| r in Block(facts, g);
    BlockRow(facts, g, r);
    GroupsMembership(facts, g, r.key);
  }

  /** Every group of every fact, at each of the three grouping sets, has its row. */
  lemma AggregateCoversFacts(facts: seq<Fact>, f: Fact, g: GroupingSet)
    requires f in facts
    ensures GroupRow(facts, KeyOf(f, g)) in Aggregate(facts)
  {
    GroupsMembership(facts, g, KeyOf(f, g));
    BlockHasGroup(facts, g, KeyOf(f, g));
  }

  /** No two rows share the key (grouping_set_id, supplier, brand, family, month). */
  lemma AggregateKeysUnique(facts: seq<Fact>, i: nat, j: nat)
    requires i < |Aggregate(facts)| && j < |Aggregate(facts)|
    requires Aggregate(facts)[i].key == Aggregate(facts)[j].key
    ensures i == j
  {
    var rows := Aggregate(facts);
    var gi, ji := AggregateAt(facts, i);
    var gj, jj := AggregateAt(facts, j);
    BlockAt(facts, gi, ji);
    BlockAt(facts, gj, jj);
    assert gi == gj;
    DistinctAt(Groups(facts, gi), ji, jj);
  }

  /** The parent group of every row other than a supplier-level one is itself a row. */
  lemma AggregateParentsPresent(facts: seq<Fact>, r: SummaryRow)
    requires r in Aggregate(facts) && r.key.level != SupplierLevel
    ensures exists q :: q in Aggregate(facts) && Some(q.key) == ParentKey(r.key)
  {
    AggregateRowsAreGroups(facts, r);
    var f :| f in facts && KeyOf(f, r.key.level) == r.key;
    ParentOfKeyOf(f, r.key.level);
    AggregateCoversFacts(facts, f, ParentLevel(r.key.level));
  }

  // ---------------------------------------------------------------------------------------
  // Consistency across levels
  // ---------------------------------------------------------------------------------------

  /** The sum of measure `m` over the rows whose parent group is `parent`. */
  function ChildSum(rows: seq<SummaryRow>, parent: GroupKey, m: Measure): real {
    if rows == [] then 0.0
    else
      var r := rows[|rows| - 1];
      ChildSum(rows[..|rows| - 1], parent, m) + (if ParentKey(r.key) == Some(parent) then RowValue(r, m) else 0.0)
  }

  lemma ChildSumSnoc(rows: seq<SummaryRow>, r: SummaryRow, parent: GroupKey, m: Measure)
    ensures ChildSum(rows + [r], parent, m)
            == ChildSum(rows, parent, m) + (if ParentKey(r.key) == Some(parent) then RowValue(r, m) else 0.0)
  {
    assert (rows + [r])[..|rows|] == rows;
  }

  lemma GroupSumSnoc(facts: seq<Fact>, f: Fact, k: GroupKey, m: Measure)
    ensures GroupSum(facts + [f], k, m)
            == GroupSum(facts, k, m) + (if KeyOf(f, k.level) == k then FactValue(f, m) else 0.0)
  {
    assert (facts + [f])[..|facts|] == facts;
  }

  lemma {:induction false} ChildSumAppend(a: seq<SummaryRow>, b: seq<SummaryRow>, parent: GroupKey, m: Measure)
    ensures ChildSum(a + b, parent, m) == ChildSum(a, parent, m) + ChildSum(b, parent, m)
  {
    if b == [] {
      assert a + b == a;
    } else {
      var init, last := b[..|b| - 1], b[|b| - 1];
      assert b == init + [last];
      assert a + b == (a + init) + [last];
      ChildSumAppend(a, init, parent, m);
      ChildSumSnoc(a + init, last, parent, m);
      ChildSumSnoc(init, last, parent, m);
    }
  }

  lemma {:induction false} ChildSumOfStrangers(rows: seq<SummaryRow>, parent: GroupKey, m: Measure)
    requires forall r :: r in rows ==> ParentKey(r.key) != Some(parent)
    ensures ChildSum(rows, parent, m) == 0.0
  {
    if rows != [] {
      var init := rows[..|rows| - 1];
      assert forall r :: r in init ==> r in rows;
      ChildSumOfStrangers(init, parent, m);
    }
  }

  /** Adding one fact adds its value to the child sum exactly when its group is a listed child. */
  lemma {:induction false} ChildSumAddFact(facts: seq<Fact>, f: Fact, g: GroupingSet, ks: seq<GroupKey>, parent: GroupKey, m: Measure)
    requires Distinct(ks)
    requires forall i :: 0 <= i < |ks| ==> ks[i].level == g
    ensures ChildSum(RowsOf(facts + [f], ks), parent, m)
            == ChildSum(RowsOf(facts, ks), parent, m)
               + (if KeyOf(f, g) in ks && ParentKey(KeyOf(f, g)) == Some(parent) then FactValue(f, m) else 0.0)
  {
    if ks != [] {
      var init, k := ks[..|ks| - 1], ks[|ks| - 1];
      assert forall i :: 0 <= i < |init| ==> init[i] == ks[i];
      assert KeyOf(f, g) in ks <==> KeyOf(f, g) in init || KeyOf(f, g) == k;
      assert k !in init;
      ChildSumAddFact(facts, f, g, init, parent, m);
      ChildSumSnoc(RowsOf(facts + [f], init), GroupRow(facts + [f], k), parent, m);
      ChildSumSnoc(RowsOf(facts, init), GroupRow(facts, k), parent, m);
      GroupSumSnoc(facts, f, k, m);
    }
  }

  lemma {:induction false} ChildSumOfNoFacts(ks: seq<GroupKey>, parent: GroupKey, m: Measure)
    ensures ChildSum(RowsOf([], ks), parent, m) == 0.0
  {
    if ks != [] {
      var init := ks[..|ks| - 1];
      ChildSumOfNoFacts(init, parent, m);
      ChildSumSnoc(RowsOf([], init), GroupRow([], ks[|ks| - 1]), parent, m);
    }
  }

  /**
   * When the keys list every group of level `g` the facts fall in, the rows whose parent is
   * `parent` sum to the parent group's own sum.
   */
  lemma {:induction false} ChildSumCoversGroup(facts: seq<Fact>, g: GroupingSet, ks: seq<GroupKey>, parent: GroupKey, m: Measure)
    requires g != SupplierLevel && parent.level == ParentLevel(g)
    requires Distinct(ks)
    requires forall i :: 0 <= i < |ks| ==> ks[i].level == g
    requires forall f :: f in facts ==> KeyOf(f, g) in ks
    ensures ChildSum(RowsOf(facts, ks), parent, m) == GroupSum(facts, parent, m)
  {
    if facts == [] {
      ChildSumOfNoFacts(ks, parent, m);
    } else {
      var init, f := facts[..|facts| - 1], facts[|facts| - 1];
      assert facts == init + [f];
      assert forall x :: x in init ==> x in facts;
      ChildSumCoversGroup(init, g, ks, parent, m);
      ChildSumAddFact(init, f, g, ks, parent, m);
      GroupSumSnoc(init, f, parent, m);
      ParentOfKeyOf(f, g);
    }
  }

  /**
   * A brand-level row sums the family-level rows of its supplier, brand and month, and a
   * supplier-level row sums the brand-level rows of its supplier and month, for both measures.
   */
  lemma AggregateConsistent(facts: seq<Fact>, r: SummaryRow, m: Measure)
    requires r in Aggregate(facts) && r.key.level != FamilyLevel
    ensures RowValue(r, m) == ChildSum(Aggregate(facts), r.key, m)
  {
    var fam, bra, sup := Block(facts, FamilyLevel), Block(facts, BrandLevel), Block(facts, SupplierLevel);
    AggregateRowsAreGroups(facts, r);
    ChildSumAppend(fam + bra, sup, r.key, m);
    ChildSumAppend(fam, bra, r.key, m);
    forall q | q in sup ensures ParentKey(q.key) != Some(r.key) {
      BlockRow(facts, SupplierLevel, q);
    }
    ChildSumOfStrangers(sup, r.key, m);
    if r.key.level == BrandLevel {
      forall q | q in bra ensures ParentKey(q.key) != Some(r.key) {
        BlockRow(facts, BrandLevel, q);
      }
      ChildSumOfStrangers(bra, r.key, m);
      forall f | f in facts ensures KeyOf(f, FamilyLevel) in Groups(facts, FamilyLevel) {
        GroupsMembership(facts, FamilyLevel, KeyOf(f, FamilyLevel));
      }
      ChildSumCoversGroup(facts, FamilyLevel, Groups(facts, FamilyLevel), r.key, m);
    } else {
      forall q | q in fam ensures ParentKey(q.key) != Some(r.key) {
        BlockRow(facts, FamilyLevel, q);
      }
      ChildSumOfStrangers(fam, r.key, m);
      forall f | f in facts ensures KeyOf(f, BrandLevel) in Groups(facts, BrandLevel) {
        GroupsMembership(facts, BrandLevel, KeyOf(f, BrandLevel));
      }
      ChildSumCoversGroup(facts, BrandLevel, Groups(facts, BrandLevel), r.key, m);
    }
  }
}
