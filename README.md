# sales_etl_dag in Dafny

A model of the batch pipeline in `dags/sales_etl_dag.py`. The DAG fills four
Postgres tables:

- `product_dim`: product name → category.
- `sales_raw`: sale date, product and amount, one row per sale.
- `sales_daily_agg`: one summary row per date.
- `sales_category_agg`: one summary row per (date, category).

Its five tasks run in a fixed chain:

1. `create_tables` creates the four tables if they do not exist.
2. `load_product_dim` truncates `product_dim` and inserts the product rows.
3. `load_raw` truncates `sales_raw` and inserts the sale rows.
4. `aggregate_daily` computes SUM, AVG and COUNT per date and upserts them.
5. `aggregate_by_category` joins the sales to the dimension, computes SUM and COUNT per (date, category) and upserts them.

The model covers the table semantics. Airflow and the database engine are
not modelled.

- `Money`: amounts are `NUMERIC(10, 2)`, so they are integer cents. `RoundDiv` is the rounding applied when AVG is stored with two fraction digits: to the nearest cent, ties away from zero.
- `Grouping`: `GroupBy` folds (key, amount) rows into per-key SUM and COUNT(*). It is checked against an independent reference, `AmountsFor` (the amounts carrying one key) and `Sum`.
- `Schema`: the rows, keys and errors of the four tables, and `Database`, the four tables as one value.
- `Aggregates`: both `SELECT … GROUP BY` queries, the inner join, and the `ON CONFLICT DO UPDATE` merge (`Upsert`).
- `Loads`: the row-by-row plain `INSERT`s into `product_dim`, where a repeated product name violates the primary key.
- `Stages`: each task as an atomic transition of a `Database`. A failed task commits nothing. `RunStages` runs the chain and stops at the first failure. The lemmas here give the run's outcome, its idempotence, the "other dates untouched" property and stale summary rows.
- `Store`: `SalesStore`, a class whose fields are the four tables. Its task methods change the tables in place. The two loaders are loops, as in the source. Every method is proved against the corresponding transition in `Stages`: `CreateTables` against `CreateTablesStep`, `LoadProducts` against `LoadDimensionStep`, `LoadSales` against `LoadFactsStep`, `AggregateDailySales` against `AggregateDailyStep`, and `AggregateDailySalesByCategory` against `AggregateByCategoryStep`.
- `Scenario`: a worked run on three products and four sales, one of them for an unknown product.

A product name repeated in the dimension source is not resolved by
last-write-wins. `load_products_from_csv` issues a plain `INSERT` on the
primary key and commits once at the end. A repeated product therefore aborts
the whole dimension load, the transaction rolls back, and the run stops there.
`Loads.DimensionInsertsExact` and `Stages.PipelineOutcome` state this
behaviour.

## Model

| member | source | states |
|---|---|---|
| Money.RoundDiv | dags/sales_etl_dag.py:45 | the stored average is n/d rounded to the nearest integer, ties away from zero, with the sign of n |
| Money.RoundDivUnique | dags/sales_etl_dag.py:45 | that rounding rule determines the result: any integer satisfying it equals RoundDiv |
| Money.RoundDivExact | dags/sales_etl_dag.py:138 | the average of c equal amounts a is stored as exactly a |
| Grouping.GroupBy | dags/sales_etl_dag.py:137-141 | GROUP BY makes a group exactly for the keys that occur in the rows, and every group counts at least one row |
| Grouping.GroupByExact | dags/sales_etl_dag.py:137-141 | each key's group holds the exact sum and the number of the rows with that key; a key without rows has no group |
| Aggregates.Upsert | dags/sales_etl_dag.py:142-146 | ON CONFLICT DO UPDATE: the keys afterwards are the old keys plus the incoming ones; incoming rows overwrite; other rows are unchanged; nothing is deleted |
| Aggregates.DailyAggregate | dags/sales_etl_dag.py:134-141 | no daily row has a zero count |
| Aggregates.DailyAggregateExact | dags/sales_etl_dag.py:134-141 | a date has a daily row iff some fact has that date; the row is (exact sum, rounded sum/count, count) of that date's amounts |
| Aggregates.DailyAggregateAllDates | dags/sales_etl_dag.py:134-141 | for every date at once: a row iff some fact has that date, and then the exact sum, rounded average and count of its amounts |
| Aggregates.DailyRowDependsOnItsDate | dags/sales_etl_dag.py:134-141 | a date's daily row depends only on that date's facts |
| Aggregates.Join | dags/sales_etl_dag.py:161-163 | the inner join yields at most one row per fact and only categories the dimension holds; JoinAmounts and CategoryAggregateExact give which facts it keeps |
| Aggregates.CategoryAggregate | dags/sales_etl_dag.py:155-164 | no category row has a zero count |
| Aggregates.CategoryAggregateExact | dags/sales_etl_dag.py:155-164 | (d, c) has a row iff some fact of date d has a product the dimension maps to c; the row is the exact sum and count of those facts |
| Aggregates.CategoryAggregateAllKeys | dags/sales_etl_dag.py:155-164 | for every (d, c) at once: a row iff some fact of date d matches category c, and then the exact sum and count of the matching facts |
| Aggregates.CategoryRowDependsOnItsKey | dags/sales_etl_dag.py:155-164 | a (date, category) row depends only on the facts that join to that key |
| Aggregates.UnmatchedFactIgnored | dags/sales_etl_dag.py:161-163 | a fact whose product is not in product_dim changes no category row, wherever it stands in sales_raw |
| Aggregates.EmptyDimensionNoCategoryRows | dags/sales_etl_dag.py:161-164 | an empty product_dim yields no category rows, and no error |
| Loads.InsertAll | dags/sales_etl_dag.py:76-83 | the row-by-row INSERTs keep every existing entry on success and fail only with a UniqueViolation; InsertAllSucceeds, InsertAllContents and InsertAllFailure give exactly when and with what |
| Loads.InsertAllSucceeds | dags/sales_etl_dag.py:76-83 | the inserts succeed iff no row repeats a key of the table or of an earlier row |
| Loads.InsertAllContents | dags/sales_etl_dag.py:76-83 | successful inserts add exactly one entry per row, product to category, and keep the old entries |
| Loads.InsertAllFailure | dags/sales_etl_dag.py:76-83 | a failed insert reports a UniqueViolation naming a product that is already a key |
| Loads.DimensionInsertsExact | dags/sales_etl_dag.py:72-85 | after the truncate, the load succeeds iff the source has distinct product names; product_dim is then exactly the source mapping; a failure names a product that occurs twice |
| Stages.CreateTablesStep | dags/sales_etl_dag.py:26-57 | CREATE TABLE IF NOT EXISTS keeps existing tables and their rows; otherwise it creates them empty |
| Stages.LoadDimensionStep | dags/sales_etl_dag.py:60-87 | the dimension load commits iff the tables exist and the source repeats no product name; product_dim is then exactly the source mapping and nothing else changes; a failure names a product that occurs twice (or the missing table) and commits nothing |
| Stages.LoadFactsStep | dags/sales_etl_dag.py:95-122 | the fact load succeeds once the tables exist; sales_raw then equals the source, in order, with duplicates kept and no dimension check; nothing else changes |
| Stages.AggregateDailyStep | dags/sales_etl_dag.py:130-148 | afterwards a date has a daily row iff it had one or some fact has that date; a date with facts gets (exact sum, rounded average, count) of its amounts; every other date keeps its old row; only sales_daily_agg changes |
| Stages.AggregateByCategoryStep | dags/sales_etl_dag.py:151-170 | afterwards (d, c) has a row iff it had one or some fact of date d has a product the dimension maps to c; such a key gets the exact sum and count of those facts; every other key keeps its old row; only sales_category_agg changes |
| Stages.RunStages | dags/sales_etl_dag.py:178 | completed stages are a prefix of the chain; the run finishes iff all of them completed; a halting stage is the one right after them |
| Stages.Pipeline | dags/sales_etl_dag.py:178 | one run of the chain: its completed tasks are a prefix of the chain, all of it exactly when the run finished; PipelineOutcome gives the resulting database |
| Stages.PipelineOutcome | dags/sales_etl_dag.py:172-178 | a run halts only at load_product_dim, on a repeated product, after create_tables alone; otherwise see below |
| Stages.PipelineIdempotent | dags/sales_etl_dag.py:60-178 | running the DAG again with the same sources leaves the same database, stages and outcome |
| Stages.StageIdempotent | dags/sales_etl_dag.py:72-168 | each task run twice with the same source commits the same database as once |
| Stages.ReaggregateTouchesOnlyChangedDate | dags/sales_etl_dag.py:142-146 | reloading facts that change only date d0, then re-aggregating, leaves every other date's daily row as it was |
| Stages.ReaggregateTouchesOnlyChangedCategoryDate | dags/sales_etl_dag.py:165-168 | reloading facts that change only date d0, then re-aggregating by category, leaves every (date, category) row of another date as it was |
| Stages.EmptyFactsKeepStaleSummaries | dags/sales_etl_dag.py:134-168 | a run with an empty sales source on existing tables leaves both summary tables unchanged, whether or not the product load succeeds: stale rows are never pruned |
| Store.SalesStore.CreateTables | dags/sales_etl_dag.py:26-57 | the tables afterwards are CreateTablesStep of the tables before |
| Store.SalesStore.LoadProducts | dags/sales_etl_dag.py:60-87 | the truncate-and-insert loop with its single commit leaves exactly what LoadDimensionStep commits (rollback on failure) and reports its outcome |
| Store.SalesStore.LoadSales | dags/sales_etl_dag.py:95-122 | the truncate-and-append loop leaves exactly what LoadFactsStep commits and reports its outcome |
| Store.SalesStore.AggregateDailySales | dags/sales_etl_dag.py:130-148 | the upsert statement leaves exactly what AggregateDailyStep commits |
| Store.SalesStore.AggregateDailySalesByCategory | dags/sales_etl_dag.py:151-170 | the join-and-upsert statement leaves exactly what AggregateByCategoryStep commits |
| Store.SalesStore.RunPipeline | dags/sales_etl_dag.py:178 | running the tasks in chain order on the store gives the database, completed stages and halt that Pipeline specifies |
| Scenario.ScenarioDaily | dags/sales_etl_dag.py:134-141 | for the sample facts, day 1 is (18.00, 6.00, 3), counting the unknown product, and day 2 is (20.00, 20.00, 1) |
| Scenario.ScenarioCategory | dags/sales_etl_dag.py:155-164 | for the sample facts, (day 1, Tools) is (15.00, 2) and (day 2, Electronics) is (20.00, 1); the unknown product is excluded |
| Scenario.ScenarioRunFinishes | dags/sales_etl_dag.py:178 | on a database without tables, the sample run completes all five tasks and loads both sources as given |
| Scenario.ScenarioRunDaily | dags/sales_etl_dag.py:130-148 | the sample run leaves the daily table of ScenarioDaily |
| Scenario.ScenarioRunCategory | dags/sales_etl_dag.py:151-170 | the sample run leaves the category table of ScenarioCategory |

The success case of `Stages.PipelineOutcome`:

- the run finishes;
- `product_dim` is exactly the source mapping;
- `sales_raw` is the source;
- each summary table is its previous contents upserted with the fresh aggregate.

## Left out

- Airflow (`DAG`, operators, `default_args`, scheduling, retries): `RunStages` stands for the scheduler running the chain, and only the order of the chain is modelled.
- Connections, cursors and `close()`: each task is one atomic transition. A task that raises rolls back its transaction, so a failed task leaves the database unchanged.
- CSV files and `csv.DictReader`: the loaders take already-parsed rows.
- Postgres casting the CSV text to `DATE` and `NUMERIC(10, 2)`, including the input rounding of amounts with more than two fraction digits: not modelled. Dates are (year, month, day) values without calendar validation.
- Database limits are not modelled:
  - `VARCHAR(50)` length overflow;
  - `NUMERIC(10, 2)` precision overflow;
  - `INT` overflow of `transactions_count`;
  - `NOT NULL` violations from missing CSV columns.
  Amounts are unbounded integer cents and may be negative, because neither the code nor the schema rejects negative amounts.
- Money.RoundDiv: Postgres computes `AVG(numeric)` to at least 16 significant digits before the store rounds it to 2. The model rounds the exact quotient once. The two differ only when the intermediate rounding crosses a half-cent boundary. That needs so many rows for one date that their sum would first overflow `total_amount NUMERIC(10, 2)`, which the model does not bound either (see above).
- The `SERIAL id` of `sales_raw`: a row's position in the sequence stands for it.
- Store.SalesStore.RunPipeline: it does not test the outcomes of `load_raw` and the two aggregates. Once `create_tables` has run those tasks cannot fail in the model. Connectivity failures and other store errors are not modelled.
- Concurrent runs of the DAG: the code does not handle them, and they are not modelled.
