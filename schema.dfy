/** The rows and keys of the four tables that create_tables declares
    (dags/sales_etl_dag.py:30-55), and the errors a stage can end with. */
module Schema {
  import opened Money

  /** A DATE value. Calendar validation is the database's and is not modelled. */
  datatype Date = Date(year: int, month: int, day: int)

  /** A row of the products source: product name and its category. */
  datatype ProductRow = ProductRow(product: string, category: string)

  /** A row of sales_raw (and of the sales source); the SERIAL id is the
      row's position in the sequence. */
  datatype Sale = Sale(date: Date, product: string, amount: Cents)

  /** A row of sales_daily_agg, keyed by its date. */
  datatype DailySummary = DailySummary(total: Cents, avg: Cents, count: nat)

  /** The composite primary key (sale_date, category) of sales_category_agg. */
  datatype CategoryKey = CategoryKey(date: Date, category: string)

  /** A row of sales_category_agg, keyed by a CategoryKey. */
  datatype CategorySummary = CategorySummary(total: Cents, count: nat)

  /** The four tables. product_dim is keyed by product_name, so it is a map;
      sales_raw keeps its rows in insertion order. `created` records whether
      create_tables has run: before it, no table exists. */
  datatype Database = Database(
    created: bool,
    productDim: map<string, string>,
    salesRaw: seq<Sale>,
    dailyAgg: map<Date, DailySummary>,
    categoryAgg: map<CategoryKey, CategorySummary>)

  /** A database in which create_tables has not yet run. */
  const NoTables := Database(false, map[], [], map[], map[])

  /** Why a stage fails: a statement on a table that does not exist yet, or
      a plain INSERT repeating a primary key of product_dim. */
  datatype StageError = UndefinedTable(table: string) | UniqueViolation(product: string)

  /** The outcome of a stage: its new database, or the error that aborted it. */
  datatype Result<T> = Ok(value: T) | Err(error: StageError)
}
