# Sales summary hierarchy: build, pivot, rebalance and roll-up

This project models the core of a small sales-metrics service whose tables live in a DuckDB database file: it defines that behaviour in Dafny and proves properties of it. `Challenge/DuckDBManager.py:1,13` opens that file through `adbc_driver_sqlite`. `start_server.py:57-66` opens it through DuckDB's own ADBC entry point (`duckdb_adbc_init`). The model gives every statement the manager issues DuckDB's semantics, following the second route.

- **Build.** The summary table `sales_summary_by_product_family` is built from the `sales` and `product` tables. It is an inner join on `product_id`, grouped by three grouping sets over supplier, brand, family and invoice month, with `SUM(quantity)`, `SUM(net_price)` and `GROUPING_ID`.
- **Views.** `pivoted_sales` holds one quantity column per listed month. `unpivoted_sales` turns those columns back into rows.
- **Manager.** The database manager does these operations on the summary table as a tree of nodes; each node's `parent_id` names its parent row:
  - propagate a product edit to `sales` and rebuild the summary;
  - rebalance a parent's children proportionally or equally;
  - roll a node's children up into it.

Modules follow the program's structure:

| file | module | what it holds |
|---|---|---|
| `wrappers.dfy` | `Wrappers` | `Option`, `Result`, `Outcome` |
| `seqs.dfy` | `Seqs` | distinct sequences and first-occurrence de-duplication |
| `dates.dfy` | `Dates` | `CAST(text AS DATE)` on ISO dates, and `STRFTIME` with `%Y-%m-%d` and `%Y-%m` |
| `summary.dfy` | `Summary` | the join, the month bucket, the grouping-sets build and its properties (`Challenge/data.py`) |
| `pivot.dfy` | `Pivot` | the pivot and unpivot views (`Challenge/data.py`) |
| `table.dfy` | `Table` | the summary table as nodes keyed by `node_id`, and what each rebalance and roll-up leaves in it |
| `numbering.dfy` | `Numbering` | how a rebuilt table gets its `node_id` and `parent_id` |
| `manager.dfy` | `Manager` | the `SalesDatabase` class and the rebalance functions (`Challenge/DuckDBManager.py`) |

## How the model represents the code

- **State.** The manager's state is a `SalesDatabase` object:
  - `products` and `sales` are sequences of rows;
  - `summary` is a `map` from `node_id` to a `Node`.
- **SQL statements.** Each statement the manager issues is one assignment to that state. The `DELETE` and the `INSERT ... SELECT` that `recalculate_summary` sends in one call are two such steps, so an `INSERT` that raises leaves the summary empty (`Manager.Recalculated`).
- **Child loops.** The rebalance functions read a parent's children (`SELECT ... WHERE parent_id = p`) into the manager and loop over them. The model takes those children as a set and visits them in an arbitrary order (`:|`). `rollup_to_parents` (`Challenge/DuckDBManager.py:59-66`) has no loop in the manager: it issues one `UPDATE` whose `SUM` subquery reads the children inside the engine. The loop in `Manager.SalesDatabase.RollupToParents` stands for that subquery's summation. Every loop is proved against a single specification function, so the result does not depend on the order the engine returns rows in.
- **Nullable quantity.** A node's `quantity` is `Option<real>` because a roll-up over a node with no children stores the `SUM` of no rows, which is NULL.
- **Python errors.** Errors Python would raise are modelled as results:
  - `sum` over a NULL quantity is `TypeError`;
  - `new_value / len(children)` with no children is `ZeroDivisionError`.
  In both cases the error is raised before any `UPDATE` runs, and the model leaves the table unchanged.
- **Zero-total test.** `if total_quantity` is Python's truth test. It falls back to equal shares only when the total is exactly zero; a negative total still takes the proportional branch.
- **Roll-up sum.** The sum in `rollup_to_parents` is SQL's `SUM`: NULL quantities are skipped, and the result is NULL when no child has a quantity.
- **Invoice dates.** They are stored as text. `CAST(... AS DATE)` accepts the ISO form `YYYY-MM-DD` with a valid calendar date; any other text makes the build fail with `InvalidDate`.
- **Build quantities.** Sale quantities are integers (`Challenge/data.py:56`), so the summary's `quantity` column, created as `SUM(s.quantity)` at `Challenge/data.py:86`, is an integer column. The model carries quantities as exact `real`s for built and rebalanced values alike. So the model does not round the rebalanced quantities the way the stored table does (see "## Left out").

### Where the code is inconsistent, and what the model does

- **No residual absorption, no validation.** `Challenge/DuckDBManager.py` has no residual absorption by a last child and no check against negative values or unknown node ids. The model follows the code and validates nothing. It computes each share in exact real arithmetic, so in the model the children sum to the new value exactly. The stored table rounds each share to an integer instead (see "## Left out").
- **Grouping sets in `recalculate_summary`.** `Challenge/DuckDBManager.py:52` lists the grouping sets without the month, although the month is a selected column. The model rebuilds with the same three grouping sets as the initial build at `Challenge/data.py:91-96`, which include the month.
- **Month expression in `recalculate_summary`.** `Challenge/DuckDBManager.py:46` applies `STRFTIME(s.invoice_date, '%Y-%m')` to the text column directly, with no `CAST ... AS DATE`. The initial build at `Challenge/data.py:85` casts first. The model's rebuild (`Summary.Build`) uses the cast-then-format expression of `Challenge/data.py:85`. So an invoice date that does not cast fails the rebuild with `InvalidDate`.
- **Where `node_id` and `parent_id` come from.** Neither build creates `node_id` or `parent_id`, yet the rebalance and roll-up statements read them. The model numbers rebuilt rows by position. It points each row's `parent_id` at the row of its parent group: family to brand, brand to supplier; supplier rows have none (`Numbering.Index`).
- **Tuples as ids in `equal_rebalance`.** `equal_rebalance` iterates over the result rows, which are one-element tuples, and writes each tuple into its `WHERE node_id = ...` clause. The model uses the node id itself.

## Model

| member | source | states |
|---|---|---|
| Dates.ParseDate | Challenge/data.py:85 | a successful cast yields a valid calendar date from text of the exact `YYYY-MM-DD` shape |
| Dates.FormatMonth | Challenge/data.py:85 | `%Y-%m` gives seven characters, four digits, a dash and two digits; its bucket is the text prefix (`Dates.MonthIsPrefix`) and is injective in year and month (`Dates.FormatMonthInjective`) |
| Dates.ParseFormattedDate | Challenge/data.py:54-55 | every stored `%Y-%m-%d` date casts back to the same date |
| Dates.ParsedDateIsCanonical | Challenge/data.py:85 | text that casts to a date is exactly that date's `%Y-%m-%d` form |
| Dates.MonthIsPrefix | Challenge/data.py:85 | the `%Y-%m` month of a cast date is the first seven characters of its text |
| Dates.FormatMonthInjective | Challenge/data.py:92-95 | two dates fall in the same month bucket iff they share year and month |
| Dates.DigitsValueOfPadded | Challenge/data.py:85 | reading back a zero-padded number gives the number |
| Summary.GroupingSetId | Challenge/data.py:88 | `GROUPING_ID(supplier, brand, family)` is 0, 1 and 3 for the family, brand and supplier sets |
| Summary.KeyOf | Challenge/data.py:91-96 | a fact's group keeps its supplier and month and NULLs exactly the collapsed columns |
| Summary.ParentKey | Challenge/data.py:91-96 | only supplier-level groups have no parent group; a parent is one level coarser |
| Summary.ParentOfKeyOf | Challenge/data.py:91-96 | the parent of a fact's group is that fact's group one level up |
| Summary.MatchingProducts | Challenge/data.py:90 | a sale joins exactly the products with its `product_id`, and none when no product matches |
| Summary.JoinMembership | Challenge/data.py:89-90 | a joined row is a sale and a product with equal `product_id`, and every such pair is joined |
| Summary.Join | Challenge/data.py:89-90 | the inner join; its rows are characterised by `Summary.JoinMembership` and it distributes over concatenation (`Summary.JoinConcat`) |
| Summary.JoinConcat | Challenge/data.py:89-90 | the join of two sales tables put together is the two joins put together, so the join is row by row |
| Summary.UnmatchedSaleIgnored | Challenge/data.py:89-90 | a sale with no matching product, at any position of the sales table, leaves the build unchanged |
| Summary.Build | Challenge/data.py:78-98 | the build: fails exactly as `Summary.BuildFailsOnlyOnBadDates` states; its rows are as `Summary.AggregateRowsAreGroups`, `Summary.AggregateKeysUnique` and `Summary.AggregateConsistent` state |
| Summary.ToFacts | Challenge/data.py:85 | the facts exist iff every joined date casts; each fact is its sale's; an error names a failing date |
| Summary.BuildFailsOnlyOnBadDates | Challenge/data.py:85-90 | the build fails iff some sale that joins a product has an invoice date that does not cast |
| Summary.FactMonths | Challenge/data.py:85 | every fact's month is the first seven characters of its sale's invoice date |
| Summary.Groups | Challenge/data.py:91-96 | a grouping set's groups are listed once each, all at that level |
| Summary.GroupsMembership | Challenge/data.py:91-96 | a key is a group of a set iff some fact falls in it |
| Summary.GroupSum | Challenge/data.py:86-87 | `SUM` over one group; the child rows of a parent group add up to it (`Summary.ChildSumCoversGroup`) |
| Summary.Aggregate | Challenge/data.py:86-96 | the three grouping sets in turn; its rows are characterised by the `Summary.Aggregate...` lemmas below |
| Summary.AggregateRowsAreGroups | Challenge/data.py:86-96 | every row has NULLs where its set collapses, an id in {0, 1, 3}, a nonempty group, and both sums over that group |
| Summary.AggregateCoversFacts | Challenge/data.py:91-96 | every fact's group at each of the three levels has its row |
| Summary.AggregateKeysUnique | Challenge/data.py:91-96 | no two rows share grouping set, supplier, brand, family and month |
| Summary.AggregateParentsPresent | Challenge/data.py:91-96 | every brand or family row has the row of its parent group |
| Summary.AggregateConsistent | Challenge/data.py:86-96 | a supplier or brand row's quantity and net amount equal the sums over its child rows one level down |
| Summary.ChildSumCoversGroup | Challenge/data.py:91-96 | the child rows of a parent group together sum the parent group's facts |
| Pivot.Pivot | Challenge/data.py:114-127 | one pivot row per distinct (supplier, brand, family), with four month cells |
| Pivot.PivotGroupsMembership | Challenge/data.py:119-125 | the pivot's groups are distinct and are exactly the groups present in the summary |
| Pivot.CellSumPresent | Challenge/data.py:123 | a cell is NULL iff no summary row has that group and month |
| Pivot.CellSumOfUniqueRow | Challenge/data.py:123 | with one row per group and month, a cell holds that row's quantity |
| Pivot.PivotCell | Challenge/data.py:122-125 | every pivot cell is NULL or the quantity of its group's row for that month |
| Pivot.Unpivot | Challenge/data.py:133-143 | the UNPIVOT that leaves NULL cells out; characterised by `Pivot.UnpivotMembership` and `Pivot.UnpivotDistinct` |
| Pivot.UnpivotDistinct | Challenge/data.py:133-143 | pivot rows of distinct groups unpivot to rows without repeats |
| Pivot.UnpivotMembership | Challenge/data.py:133-143 | an unpivoted row is a non-NULL cell of some pivot row in one of the listed months |
| Pivot.PivotRoundTrip | Challenge/data.py:114-143 | unpivoting the pivot yields exactly the summary rows whose month is listed, each exactly once (no repeats; multiplicity 1); rows of other months are dropped |
| Pivot.AggregateGroupMonthUnique | Challenge/data.py:91-96 | the built summary has one row per group and month, so the round trip applies to it |
| Table.ChildIds | Challenge/DuckDBManager.py:73-77 | `SELECT node_id ... WHERE parent_id = p` lists only existing rows; editing quantities keeps it (`Table.QuantityEditKeepsChildren`) |
| Table.SqlSum | Challenge/DuckDBManager.py:62 | SQL's `SUM(quantity)`: NULL when no child has a quantity; after a roll-up the parent holds it (`Table.RollupSumsChildren`) |
| Table.QuantitySumRemove | Challenge/DuckDBManager.py:79 | the children's total does not depend on the order the rows are taken in |
| Table.QuantitySumScaled | Challenge/DuckDBManager.py:81-82 | scaling every child's quantity by a factor scales their total by it |
| Table.ProportionallyRebalanced | Challenge/DuckDBManager.py:69-87 | after a proportional rebalance, only the children's quantities change; every child has one; no row is added or removed |
| Table.ProportionalShares | Challenge/DuckDBManager.py:81-82 | with a nonzero total, each child gets `new_value * old / total` |
| Table.ProportionalSumsToNewValue | Challenge/DuckDBManager.py:79-87 | the children's new quantities add up to exactly `new_value` |
| Table.ProportionalKeepsRatios | Challenge/DuckDBManager.py:81-82 | the ratio between any two siblings' quantities is kept |
| Table.ProportionalOnZeroTotalIsEqual | Challenge/DuckDBManager.py:81 | with a zero total, proportional rebalance is equal rebalance: each child gets `new_value / count` |
| Table.ProportionalWithoutChildren | Challenge/DuckDBManager.py:73-80 | a parent without children leaves the table unchanged |
| Table.EquallyRebalanced | Challenge/DuckDBManager.py:89-105 | after an equal rebalance, only the children's quantities change, and the children are the same |
| Table.EqualSumsToNewValue | Challenge/DuckDBManager.py:99-105 | all children get the same quantity, and together they add up to `new_value` |
| Table.QuantityEditKeepsChildren | Challenge/DuckDBManager.py:83-86 | rewriting quantities only leaves every parent with the same children |
| Table.RolledUp | Challenge/DuckDBManager.py:55-67 | the roll-up changes row `parent_id` alone, setting its quantity to the SUM over its children |
| Table.RollupSumsChildren | Challenge/DuckDBManager.py:59-66 | after the roll-up, the parent's quantity equals the SUM over its children |
| Table.RollupIdempotent | Challenge/DuckDBManager.py:55-67 | rolling up the same parent twice gives what rolling it up once gives |
| Table.RollupOfConsistentTable | Challenge/DuckDBManager.py:55-67 | on a table where every parent already holds its children's SUM, the roll-up changes nothing |
| Table.RebalanceThenRollup | Challenge/DuckDBManager.py:55-87 | a rebalance of a parent's children to `new_value`, followed by its roll-up, leaves the parent at exactly `new_value` |
| Numbering.Find | Challenge/DuckDBManager.py:64 | finds the first row with a key, or reports that no row has it |
| Numbering.Index | Challenge/DuckDBManager.py:39-52 | the rebuilt table has one node per built row, with that row's key and sums |
| Numbering.IndexParent | Challenge/DuckDBManager.py:64 | node j is node i's parent iff row j holds row i's parent group |
| Numbering.IndexChildSum | Challenge/DuckDBManager.py:61-65 | the quantities of a node's children sum to the build's child sum for its row |
| Numbering.AggregateIndexConsistent | Challenge/DuckDBManager.py:39-52 | a freshly built table has every node with children holding their SUM |
| Numbering.AggregateIndexHierarchy | Challenge/DuckDBManager.py:39-52 | supplier nodes have no parent; every other node's parent is the node of its parent group |
| Numbering.RebuildConsistent | Challenge/DuckDBManager.py:35-53 | every successful rebuild yields a consistent table |
| Manager.UpdateWhere | Challenge/DuckDBManager.py:27-31 | the UPDATE keeps the table's length and rewrites exactly the rows meeting the condition |
| Manager.UpdateWhereNoMatch | Challenge/DuckDBManager.py:27-31 | an UPDATE whose condition no row meets leaves the sales table as it was |
| Manager.SalesDatabase.RecalculateSummary | Challenge/DuckDBManager.py:35-53 | the summary becomes the numbered build, which is consistent; when the INSERT raises on a failed cast the DELETE has already emptied it and the error is returned |
| Manager.SalesDatabase.UpdateDependencies | Challenge/DuckDBManager.py:21-33 | a non-"product" call changes nothing; a "product" call updates the sales rows meeting the condition, then rebuilds the summary |
| Manager.SalesDatabase.RollupToParents | Challenge/DuckDBManager.py:55-67 | the loop over the children leaves exactly the table `Table.RolledUp` describes |
| Manager.SumChildQuantities | Challenge/DuckDBManager.py:79 | the loop returns the children's total iff none is NULL; otherwise the `TypeError` |
| Manager.WriteShares | Challenge/DuckDBManager.py:80-87 | the update loop gives every child its share of the pre-edit total and touches nothing else |
| Manager.ProportionalRebalance | Challenge/DuckDBManager.py:69-87 | succeeds iff no child's quantity is NULL, leaving `Table.ProportionallyRebalanced`; otherwise `TypeError` with the table untouched |
| Manager.EqualRebalance | Challenge/DuckDBManager.py:89-105 | succeeds iff the parent has children, leaving `Table.EquallyRebalanced`; otherwise `ZeroDivisionError` with the table untouched |

## Left out

- Connection handling is not modelled:
  - the singleton `__new__` and its lock (`Challenge/DuckDBManager.py:8-14`);
  - `execute_query` and the ADBC driver;
  - the FastAPI routes, the Redis listener, the logger and the optional gate in `Challenge/mainapi.py`.
  These are I/O and concurrency. Each SQL statement is modelled as one step on the manager's state, with no other client interleaving.
- The random sample data (Faker and `random`), the DataFrame round trips and the `print`s in `Challenge/data.py` are left out. The model takes the product and sales tables as inputs.
- The `customer` table is left out. No modelled operation reads it.
- Rounding of the stored quantities is not modelled:
  - The summary's `quantity` column is an integer column: `Challenge/data.py:86` creates it as `SUM` over the integer `sales.quantity` of `Challenge/data.py:56`.
  - Each `UPDATE ... SET quantity = {new_child_value}` (`Challenge/DuckDBManager.py:85`, `:103`) therefore stores the Python float share rounded to an integer. Every rebalanced child can be off by up to half a unit. Rebalancing 100 equally over three children stores 33, 33 and 33, which sum to 99.
  - The model stores the exact real share instead.
- Table.ProportionalSumsToNewValue, Table.EqualSumsToNewValue and Table.RebalanceThenRollup: they describe the exact-real model, not the stored table. In the source the children's stored quantities, and the rolled-up parent, can differ from `new_value` by the rounding above.
- Floating-point rounding is not modelled. `net_amount` is a `SUM` of the `net_price` doubles and is carried as an exact real; the DuckDB double can differ from it by a rounding error. The Python float shares are rounded once more when stored, as above.
- The untrusted column, value and condition text of `update_dependencies` is not modelled, and neither is SQL injection. The model takes an assignment function and a condition predicate on a sale row instead.
- Other date spellings DuckDB's cast accepts (times, a `T` separator, surrounding spaces) are not modelled. `Dates.ParseDate` accepts exactly `YYYY-MM-DD`.
- Duplicate node ids are not modelled. The summary is a map, so each `node_id` names one row; a table holding the same `node_id` twice would have a `WHERE node_id = ...` update hit every copy.
- Manager.SalesDatabase.RollupToParents, Manager.ProportionalRebalance and Manager.EqualRebalance: their contracts state the new table through a specification function in `Table`. The properties are proved as lemmas about those functions (`Table.RollupSumsChildren`, `Table.ProportionalSumsToNewValue`, and so on).
