/** The Postgres database the DAG writes, as an object whose tables its
    tasks change in place. Each task method is proved against the
    corresponding stage transition in module Stages. */
module Store {
  import opened Schema
  import opened Loads
  import opened Aggregates
  import opened Stages

  /** What a task reports to the scheduler. */
  datatype Outcome = Done | Failed(error: StageError)

  /** The database after a stage: its result if it committed, else unchanged. */
  function Committed(db: Database, r: Result<Database>): Database {
    if r.Ok? then r.value else db
  }

  function OutcomeOf(r: Result<Database>): Outcome {
    if r.Ok? then Done else Failed(r.error)
  }

  class SalesStore {
    var created: bool
    var productDim: map<string, string>
    var salesRaw: seq<Sale>
    var dailyAgg: map<Date, DailySummary>
    var categoryAgg: map<CategoryKey, CategorySummary>

    /** The four tables as a value. */
    function State(): Database
      reads this
    {
      Database(created, productDim, salesRaw, dailyAgg, categoryAgg)
    }

    /** A database in which create_tables has not run. */
    constructor ()
      ensures State() == NoTables
    {
      created, productDim, salesRaw, dailyAgg, categoryAgg := false, map[], [], map[], map[];
    }

    /** create_tables (dags/sales_etl_dag.py:26-57). */
    method CreateTables()
      modifies this
      ensures State() == CreateTablesStep(old(State()))
    {
      if !created {
        created, productDim, salesRaw, dailyAgg, categoryAgg := true, map[], [], map[], map[];
      }
    }

    /** load_products_from_csv (dags/sales_etl_dag.py:60-87): truncate,
        insert row by row, commit once. A repeated product name aborts the
        transaction, which restores the table it had truncated. */
    method LoadProducts(source: seq<ProductRow>) returns (outcome: Outcome)
      modifies this`productDim
      ensures State() == Committed(old(State()), LoadDimensionStep(old(State()), source))
      ensures outcome == OutcomeOf(LoadDimensionStep(old(State()), source))
    {
      if !created {
        return Failed(UndefinedTable("product_dim"));
      }
      var snapshot := productDim;
      productDim := map[];
      var i := 0;
      while i < |source|
        invariant 0 <= i <= |source|
        invariant InsertAll(productDim, source[i..]) == InsertAll(map[], source)
      {
        var row := source[i];
        assert source[i..][1..] == source[i + 1..];
        if row.product in productDim {
          productDim := snapshot;
          return Failed(UniqueViolation(row.product));
        }
        productDim := productDim[row.product := row.category];
        i := i + 1;
      }
      outcome := Done;
    }

    /** load_sales_from_csv (dags/sales_etl_dag.py:95-122): truncate, then
        append every source row in order, commit once. */
    method LoadSales(source: seq<Sale>) returns (outcome: Outcome)
      modifies this`salesRaw
      ensures State() == Committed(old(State()), LoadFactsStep(old(State()), source))
      ensures outcome == OutcomeOf(LoadFactsStep(old(State()), source))
    {
      if !created {
        return Failed(UndefinedTable("sales_raw"));
      }
      salesRaw := [];
      var i := 0;
      while i < |source|
        invariant 0 <= i <= |source|
        invariant salesRaw == source[..i]
      {
        salesRaw := salesRaw + [source[i]];
        i := i + 1;
      }
      assert source[..i] == source;
      outcome := Done;
    }

    /** aggregate_daily (dags/sales_etl_dag.py:130-148): one INSERT ...
        SELECT ... ON CONFLICT statement. */
    method AggregateDailySales() returns (outcome: Outcome)
      modifies this`dailyAgg
      ensures State() == Committed(old(State()), AggregateDailyStep(old(State())))
      ensures outcome == OutcomeOf(AggregateDailyStep(old(State())))
    {
      if !created {
        return Failed(UndefinedTable("sales_daily_agg"));
      }
      dailyAgg := Upsert(dailyAgg, DailyAggregate(salesRaw));
      outcome := Done;
    }

    /** aggregate_by_category (dags/sales_etl_dag.py:151-170): one INSERT ...
        SELECT ... JOIN ... ON CONFLICT statement. */
    method AggregateDailySalesByCategory() returns (outcome: Outcome)
      modifies this`categoryAgg
      ensures State() == Committed(old(State()), AggregateByCategoryStep(old(State())))
      ensures outcome == OutcomeOf(AggregateByCategoryStep(old(State())))
    {
      if !created {
        return Failed(UndefinedTable("sales_category_agg"));
      }
      categoryAgg := Upsert(categoryAgg, CategoryAggregate(salesRaw, productDim));
      outcome := Done;
    }

    /** One run of the DAG (dags/sales_etl_dag.py:178): the tasks in chain
        order, each started only after the one before committed, stopping
        at the first that fails. */
    method RunPipeline(products: seq<ProductRow>, sales: seq<Sale>) returns (completed: seq<Stage>, halt: Halt)
      modifies this
      ensures State() == Pipeline(old(State()), products, sales).db
      ensures completed == Pipeline(old(State()), products, sales).completed
      ensures halt == Pipeline(old(State()), products, sales).halt
    {
      ghost var db0 := State();
      PipelineOutcome(db0, products, sales);
      PipelineUnfold(db0, products, sales);
      CreateTables();
      var o := LoadProducts(products);
      if o.Failed? {
        return [Stage.CreateTables], HaltedAt(LoadDimension, o.error);
      }
      // With the tables in place, the remaining tasks cannot fail.
      o := LoadSales(sales);
      o := AggregateDailySales();
      o := AggregateDailySalesByCategory();
      completed, halt := Chain, Finished;
    }
  }
}
