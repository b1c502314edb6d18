/** The five tasks of sales_etl_dag as atomic transitions of the database,
    and the chain create_tables >> load_product_dim >> load_raw >>
    aggregate_daily >> aggregate_by_category (dags/sales_etl_dag.py:178)
    that runs them in order and stops at the first failure. */
module Stages {
  import opened Money
  import opened Grouping
  import opened Schema
  import opened Loads
  import opened Aggregates

  datatype Stage = CreateTables | LoadDimension | LoadFacts | AggregateDaily | AggregateByCategory

  /** The task chain, in the order the DAG fixes. */
  const Chain: seq<Stage> := [CreateTables, LoadDimension, LoadFacts, AggregateDaily, AggregateByCategory]

  /** CREATE TABLE IF NOT EXISTS for the four tables: a database that has
      them keeps them with all their rows; one that has not gets them empty. */
  function CreateTablesStep(db: Database): (r: Database)
    ensures r.created
    ensures db.created ==> r == db
    ensures !db.created ==> r.productDim == map[] && r.salesRaw == [] && r.dailyAgg == map[] && r.categoryAgg == map[]
  {
    if db.created then db else Database(true, map[], [], map[], map[])
  }

  /** load_products_from_csv: TRUNCATE product_dim, INSERT every source row,
      one commit at the end. Any error rolls the whole transaction back, so
      a failure leaves the database as it was (Err carries no database).
      The load commits exactly when the tables exist and the source repeats
      no product name; product_dim is then exactly the source mapping. */
  function LoadDimensionStep(db: Database, source: seq<ProductRow>): (r: Result<Database>)
    ensures r.Ok? <==> db.created && DistinctProducts(source)
    ensures r.Ok? ==> r.value == db.(productDim := r.value.productDim)
    ensures r.Ok? ==> r.value.productDim.Keys == Names(source)
    ensures r.Ok? ==> forall i :: 0 <= i < |source| ==> r.value.productDim[source[i].product] == source[i].category
    ensures !db.created ==> r == Err(UndefinedTable("product_dim"))
    ensures db.created && r.Err? ==>
      exists i, j :: 0 <= j < i < |source| && source[j].product == source[i].product &&
        r.error == UniqueViolation(source[i].product)
  {
    if !db.created then Err(UndefinedTable("product_dim"))
    else
      DimensionInsertsExact(source);
      match InsertAll(map[], source)
      case Ok(t) => Ok(db.(productDim := t))
      case Err(e) => Err(e)
  }

  /** load_sales_from_csv: TRUNCATE sales_raw and INSERT every source row
      in order, with no deduplication and no lookup in product_dim. */
  function LoadFactsStep(db: Database, source: seq<Sale>): (r: Result<Database>)
    ensures r.Ok? <==> db.created
    ensures r.Ok? ==> r.value.salesRaw == source && r.value == db.(salesRaw := source)
  {
    if !db.created then Err(UndefinedTable("sales_raw"))
    else Ok(db.(salesRaw := source))
  }

  /** aggregate_daily: the daily GROUP BY of sales_raw upserted into
      sales_daily_agg. Afterwards a date has a row exactly when it had one
      or some fact carries it; a date with facts gets the row of its facts,
      and every other date keeps its old row. */
  function AggregateDailyStep(db: Database): (r: Result<Database>)
    ensures r.Ok? <==> db.created
    ensures !db.created ==> r == Err(UndefinedTable("sales_daily_agg"))
    ensures r.Ok? ==> r.value == db.(dailyAgg := r.value.dailyAgg)
    ensures r.Ok? ==> forall d :: d in r.value.dailyAgg <==>
      d in db.dailyAgg || exists i :: 0 <= i < |db.salesRaw| && db.salesRaw[i].date == d
    ensures r.Ok? ==> forall d :: AmountsOn(db.salesRaw, d) != [] ==>
      var xs := AmountsOn(db.salesRaw, d);
      d in r.value.dailyAgg && r.value.dailyAgg[d] == DailySummary(Sum(xs), RoundDiv(Sum(xs), |xs|), |xs|)
    ensures r.Ok? ==> forall d :: d in db.dailyAgg && AmountsOn(db.salesRaw, d) == [] ==>
      d in r.value.dailyAgg && r.value.dailyAgg[d] == db.dailyAgg[d]
  {
    if !db.created then Err(UndefinedTable("sales_daily_agg"))
    else
      DailyAggregateAllDates(db.salesRaw);
      Ok(db.(dailyAgg := Upsert(db.dailyAgg, DailyAggregate(db.salesRaw))))
  }

  /** aggregate_by_category: the (date, category) GROUP BY of sales_raw
      joined to product_dim, upserted into sales_category_agg. Afterwards a
      key has a row exactly when it had one or some fact of its date has a
      product the dimension files under its category; such a key gets the
      sum and count of those facts, and every other key keeps its old row. */
  function AggregateByCategoryStep(db: Database): (r: Result<Database>)
    ensures r.Ok? <==> db.created
    ensures !db.created ==> r == Err(UndefinedTable("sales_category_agg"))
    ensures r.Ok? ==> r.value == db.(categoryAgg := r.value.categoryAgg)
    ensures r.Ok? ==> forall k :: k in r.value.categoryAgg <==>
      k in db.categoryAgg ||
      exists i :: 0 <= i < |db.salesRaw| && db.salesRaw[i].date == k.date && Matches(db.salesRaw[i], db.productDim, k.category)
    ensures r.Ok? ==> forall k :: MatchedAmounts(db.salesRaw, db.productDim, k) != [] ==>
      var xs := MatchedAmounts(db.salesRaw, db.productDim, k);
      k in r.value.categoryAgg && r.value.categoryAgg[k] == CategorySummary(Sum(xs), |xs|)
    ensures r.Ok? ==> forall k :: k in db.categoryAgg && MatchedAmounts(db.salesRaw, db.productDim, k) == [] ==>
      k in r.value.categoryAgg && r.value.categoryAgg[k] == db.categoryAgg[k]
  {
    if !db.created then Err(UndefinedTable("sales_category_agg"))
    else
      CategoryAggregateAllKeys(db.salesRaw, db.productDim);
      Ok(db.(categoryAgg := Upsert(db.categoryAgg, CategoryAggregate(db.salesRaw, db.productDim))))
  }

  /** The task a stage names, fed with the two sources. */
  function Step(stage: Stage, db: Database, products: seq<ProductRow>, sales: seq<Sale>): Result<Database> {
    match stage
    case CreateTables => Ok(CreateTablesStep(db))
    case LoadDimension => LoadDimensionStep(db, products)
    case LoadFacts => LoadFactsStep(db, sales)
    case AggregateDaily => AggregateDailyStep(db)
    case AggregateByCategory => AggregateByCategoryStep(db)
  }

  /** How a run ended: every stage done, or halted by one stage's error. */
  datatype Halt = Finished | HaltedAt(stage: Stage, error: StageError)

  /** The database a run leaves, the stages it completed, and how it ended. */
  datatype RunReport = RunReport(db: Database, completed: seq<Stage>, halt: Halt)

  /** Runs the stages one after another, each on the committed result of
      the one before; the first error halts the run and no later stage runs.
      The completed stages are a prefix of the chain, all of it exactly when
      the run finished, and a halting stage is the one right after them. */
  function RunStages(stages: seq<Stage>, db: Database, products: seq<ProductRow>, sales: seq<Sale>): (r: RunReport)
    ensures r.completed <= stages
    ensures r.halt.Finished? <==> r.completed == stages
    ensures r.halt.HaltedAt? ==> |r.completed| < |stages| && stages[|r.completed|] == r.halt.stage
  {
    if stages == [] then RunReport(db, [], Finished)
    else match Step(stages[0], db, products, sales)
      case Err(e) => RunReport(db, [], HaltedAt(stages[0], e))
      case Ok(db') =>
        var rest := RunStages(stages[1..], db', products, sales);
        RunReport(rest.db, [stages[0]] + rest.completed, rest.halt)
  }

  /** One run of the whole DAG. */
  function Pipeline(db: Database, products: seq<ProductRow>, sales: seq<Sale>): (r: RunReport)
    ensures r.completed <= Chain
    ensures r.halt.Finished? <==> r.completed == Chain
  {
    RunStages(Chain, db, products, sales)
  }

  /** The run halts only when product_dim's load hits a repeated product
      name: then create_tables alone has completed and the database is what
      it left. Otherwise the run finishes with product_dim holding exactly
      the source mapping, sales_raw the source rows, and each summary table
      its old rows upserted with the fresh aggregates: every old summary
      key is kept and every date (or date and category) with facts gets
      the row its facts determine. */
  lemma PipelineOutcome(db: Database, products: seq<ProductRow>, sales: seq<Sale>)
    ensures var r := Pipeline(db, products, sales);
      var start := CreateTablesStep(db);
      && (r.halt.Finished? <==> DistinctProducts(products))
      && (!DistinctProducts(products) ==>
            && r.completed == [CreateTables] && r.db == start
            && r.halt.stage == LoadDimension && r.halt.error.UniqueViolation?
            && exists i, j :: 0 <= j < i < |products| && products[j].product == products[i].product &&
                 r.halt.error.product == products[i].product)
      && (DistinctProducts(products) ==>
            && r.db.created
            && InsertAll(map[], products) == Ok(r.db.productDim)
            && r.db.productDim.Keys == Names(products)
            && (forall i :: 0 <= i < |products| ==> r.db.productDim[products[i].product] == products[i].category)
            && r.db.salesRaw == sales
            && r.db.dailyAgg == Upsert(start.dailyAgg, DailyAggregate(sales))
            && r.db.categoryAgg == Upsert(start.categoryAgg, CategoryAggregate(sales, r.db.productDim)))
  {
    DimensionInsertsExact(products);
    PipelineUnfold(db, products, sales);
    if DistinctProducts(products) {
      RunAfterCreate(CreateTablesStep(db), products, sales, InsertAll(map[], products).value);
    }
  }

  /** A run is create_tables followed by the rest of the chain. */
  lemma PipelineUnfold(db: Database, products: seq<ProductRow>, sales: seq<Sale>)
    ensures var rest := RunStages(Chain[1..], CreateTablesStep(db), products, sales);
      Pipeline(db, products, sales) == RunReport(rest.db, [CreateTables] + rest.completed, rest.halt)
    ensures !DistinctProducts(products) ==>
      var r := RunStages(Chain[1..], CreateTablesStep(db), products, sales);
      r.completed == [] && r.db == CreateTablesStep(db) && r.halt == HaltedAt(LoadDimension, InsertAll(map[], products).error)
  {
    DimensionInsertsExact(products);
    assert Chain[1..][0] == LoadDimension;
  }

  /** A stage that succeeds hands its result to the rest of the stages. */
  lemma RunStagesStep(stage: Stage, rest: seq<Stage>, db: Database, products: seq<ProductRow>, sales: seq<Sale>)
    requires Step(stage, db, products, sales).Ok?
    ensures var r := RunStages(rest, Step(stage, db, products, sales).value, products, sales);
      RunStages([stage] + rest, db, products, sales) == RunReport(r.db, [stage] + r.completed, r.halt)
  {
    assert ([stage] + rest)[1..] == rest;
  }

  /** On existing tables and a source without repeated products, the chain
      after create_tables completes, each stage applied to the last one's result. */
  lemma RunAfterCreate(start: Database, products: seq<ProductRow>, sales: seq<Sale>, dim: map<string, string>)
    requires start.created && InsertAll(map[], products) == Ok(dim)
    ensures var r := RunStages(Chain[1..], start, products, sales);
      var d1 := start.(productDim := dim, salesRaw := sales);
      var d2 := d1.(dailyAgg := Upsert(d1.dailyAgg, DailyAggregate(sales)));
      r.halt == Finished && r.db == d2.(categoryAgg := Upsert(d2.categoryAgg, CategoryAggregate(sales, dim)))
  {
    var d1 := start.(productDim := dim);
    var d2 := d1.(salesRaw := sales);
    var d3 := d2.(dailyAgg := Upsert(d2.dailyAgg, DailyAggregate(sales)));
    var d4 := d3.(categoryAgg := Upsert(d3.categoryAgg, CategoryAggregate(sales, dim)));
    var tail := [LoadFacts, AggregateDaily, AggregateByCategory];
    assert RunStages([AggregateByCategory], d3, products, sales) == RunReport(d4, [AggregateByCategory], Finished) by {
      assert AggregateByCategoryStep(d3) == Ok(d4);
      RunStagesStep(AggregateByCategory, [], d3, products, sales);
    }
    assert RunStages(tail[1..], d2, products, sales) == RunReport(d4, tail[1..], Finished) by {
      assert AggregateDailyStep(d2) == Ok(d3);
      assert tail[1..] == [AggregateDaily] + [AggregateByCategory];
      RunStagesStep(AggregateDaily, [AggregateByCategory], d2, products, sales);
    }
    assert RunStages(tail, d1, products, sales) == RunReport(d4, tail, Finished) by {
      assert LoadFactsStep(d1, sales) == Ok(d2);
      assert tail == [LoadFacts] + tail[1..];
      RunStagesStep(LoadFacts, tail[1..], d1, products, sales);
    }
    assert LoadDimensionStep(start, products) == Ok(d1);
    RunStagesStep(LoadDimension, tail, start, products, sales);
    assert Chain[1..] == [LoadDimension] + tail;
  }

  /** Re-running the DAG on the database a run left, with the same sources,
      changes nothing: loads are full refreshes and the aggregates are
      upserts of values that depend only on the reloaded tables. */
  lemma PipelineIdempotent(db: Database, products: seq<ProductRow>, sales: seq<Sale>)
    ensures var once := Pipeline(db, products, sales);
      Pipeline(once.db, products, sales) == once
  {
    var once := Pipeline(db, products, sales);
    PipelineOutcome(db, products, sales);
    PipelineOutcome(once.db, products, sales);
    if DistinctProducts(products) {
      assert CreateTablesStep(once.db) == once.db;
      var twice := Pipeline(once.db, products, sales);
      assert twice.db.productDim == once.db.productDim;
      assert twice.db.dailyAgg == once.db.dailyAgg;
      assert twice.db.categoryAgg == once.db.categoryAgg;
    }
  }

  /** Each task, run a second time on what its first run committed and with
      the same source, commits the same database again: the loads truncate
      before inserting, and the upserts overwrite with equal values. */
  lemma StageIdempotent(stage: Stage, db: Database, products: seq<ProductRow>, sales: seq<Sale>)
    requires Step(stage, db, products, sales).Ok?
    ensures Step(stage, Step(stage, db, products, sales).value, products, sales) == Step(stage, db, products, sales)
  {
    var once := Step(stage, db, products, sales).value;
    match stage
    case CreateTables =>
    case LoadDimension =>
      assert once.productDim == InsertAll(map[], products).value;
    case LoadFacts =>
    case AggregateDaily =>
      var rows := DailyAggregate(db.salesRaw);
      assert once.salesRaw == db.salesRaw;
      assert Upsert(once.dailyAgg, rows) == once.dailyAgg;
    case AggregateByCategory =>
      var rows := CategoryAggregate(db.salesRaw, db.productDim);
      assert once.salesRaw == db.salesRaw && once.productDim == db.productDim;
      assert Upsert(once.categoryAgg, rows) == once.categoryAgg;
  }

  /** Re-aggregating after a reload that changes only the facts of date d0
      leaves the daily row of every other date as the earlier run left it. */
  lemma ReaggregateTouchesOnlyChangedDate(db: Database, sales: seq<Sale>, d0: Date, d: Date)
    requires db.created
    requires forall d' :: d' != d0 ==> AmountsOn(db.salesRaw, d') == AmountsOn(sales, d')
    requires d != d0
    ensures var before := AggregateDailyStep(db).value;
      var after := AggregateDailyStep(LoadFactsStep(before, sales).value).value;
      (d in before.dailyAgg <==> d in after.dailyAgg) &&
      (d in before.dailyAgg ==> after.dailyAgg[d] == before.dailyAgg[d])
  {
    DailyRowDependsOnItsDate(db.salesRaw, sales, d);
  }

  /** Re-aggregating by category after a reload that changes only the
      facts of date d0 leaves the category row of every key of another date
      as the earlier run left it. */
  lemma ReaggregateTouchesOnlyChangedCategoryDate(db: Database, sales: seq<Sale>, d0: Date, key: CategoryKey)
    requires db.created
    requires forall k: CategoryKey :: k.date != d0 ==>
      MatchedAmounts(db.salesRaw, db.productDim, k) == MatchedAmounts(sales, db.productDim, k)
    requires key.date != d0
    ensures var before := AggregateByCategoryStep(db).value;
      var after := AggregateByCategoryStep(LoadFactsStep(before, sales).value).value;
      (key in before.categoryAgg <==> key in after.categoryAgg) &&
      (key in before.categoryAgg ==> after.categoryAgg[key] == before.categoryAgg[key])
  {
    CategoryRowDependsOnItsKey(db.salesRaw, sales, db.productDim, key);
  }

  /** Summary rows are never pruned: a run over an empty fact source leaves
      both summary tables of an existing database exactly as they were,
      whether the dimension load commits or halts the run. */
  lemma EmptyFactsKeepStaleSummaries(db: Database, products: seq<ProductRow>)
    requires db.created
    ensures Pipeline(db, products, []).db.dailyAgg == db.dailyAgg
    ensures Pipeline(db, products, []).db.categoryAgg == db.categoryAgg
  {
    PipelineOutcome(db, products, []);
    assert DateRows([]) == [] && Join([], Pipeline(db, products, []).db.productDim) == [];
  }
}
