/** A worked run of the whole DAG on a fresh database: three products in
    two categories and four sales over two days, one of them for a product
    the dimension does not know. */
module Scenario {
  import opened Money
  import opened Grouping
  import opened Schema
  import opened Loads
  import opened Aggregates
  import opened Stages

  const Day1 := Date(2024, 1, 1)
  const Day2 := Date(2024, 1, 2)

  const Products := [
    ProductRow("Widget", "Tools"),
    ProductRow("Gadget", "Tools"),
    ProductRow("Gizmo", "Electronics")]

  const Sales := [
    Sale(Day1, "Widget", 1000),
    Sale(Day1, "Gadget", 500),
    Sale(Day1, "Unknown", 300),
    Sale(Day2, "Gizmo", 2000)]

  lemma DateRowsCons(s: Sale, rest: seq<Sale>)
    ensures DateRows([s] + rest) == [(s.date, s.amount)] + DateRows(rest)
  {
    assert ([s] + rest)[1..] == rest;
  }

  lemma JoinCons(s: Sale, rest: seq<Sale>, dim: map<string, string>)
    ensures Join([s] + rest, dim) ==
      if s.product in dim then [(CategoryKey(s.date, dim[s.product]), s.amount)] + Join(rest, dim) else Join(rest, dim)
  {
    assert ([s] + rest)[1..] == rest;
  }

  lemma GroupByCons<K>(k: K, amount: Cents, rest: seq<(K, Cents)>)
    ensures var g := GroupBy(rest);
      GroupBy([(k, amount)] + rest) == g[k := Group(GroupOf(g, k).total + amount, GroupOf(g, k).count + 1)]
  {
    assert ([(k, amount)] + rest)[1..] == rest;
  }

  /** The facts of the scenario, projected onto (date, amount). */
  lemma ScenarioDateRows()
    ensures DateRows(Sales) == [(Day1, 1000), (Day1, 500), (Day1, 300), (Day2, 2000)]
  {
    var s3 := [Sale(Day2, "Gizmo", 2000)];
    var s2 := [Sale(Day1, "Unknown", 300)] + s3;
    var s1 := [Sale(Day1, "Gadget", 500)] + s2;
    assert Sales == [Sale(Day1, "Widget", 1000)] + s1;
    assert DateRows(s3) == [(Day2, 2000)] by { DateRowsCons(Sale(Day2, "Gizmo", 2000), []); }
    assert DateRows(s2) == [(Day1, 300), (Day2, 2000)] by { DateRowsCons(Sale(Day1, "Unknown", 300), s3); }
    assert DateRows(s1) == [(Day1, 500), (Day1, 300), (Day2, 2000)] by { DateRowsCons(Sale(Day1, "Gadget", 500), s2); }
    DateRowsCons(Sale(Day1, "Widget", 1000), s1);
  }

  /** The scenario's facts grouped by date. */
  lemma ScenarioDailyGroups()
    ensures GroupBy(DateRows(Sales)) == map[Day2 := Group(2000, 1), Day1 := Group(1800, 3)]
  {
    var r3 := [(Day2, 2000)];
    var r2 := [(Day1, 300)] + r3;
    var r1 := [(Day1, 500)] + r2;
    assert DateRows(Sales) == [(Day1, 1000)] + r1 by { ScenarioDateRows(); }
    assert GroupBy(r3) == map[Day2 := Group(2000, 1)] by { GroupByCons(Day2, 2000, []); }
    assert GroupBy(r2) == map[Day2 := Group(2000, 1), Day1 := Group(300, 1)] by { GroupByCons(Day1, 300, r3); }
    assert GroupBy(r1) == map[Day2 := Group(2000, 1), Day1 := Group(800, 2)] by { GroupByCons(Day1, 500, r2); }
    GroupByCons(Day1, 1000, r1);
  }

  lemma ScenarioDaily()
    ensures DailyAggregate(Sales) == map[Day1 := DailySummary(1800, 600, 3), Day2 := DailySummary(2000, 2000, 1)]
  {
    ScenarioDailyGroups();
    assert RoundDiv(1800, 3) == 600 by { RoundDivExact(600, 3); }
    assert RoundDiv(2000, 1) == 2000 by { RoundDivExact(2000, 1); }
  }

  /** The facts of the scenario joined to its dimension. */
  lemma ScenarioJoin(dim: map<string, string>)
    requires dim == map["Widget" := "Tools", "Gadget" := "Tools", "Gizmo" := "Electronics"]
    ensures Join(Sales, dim) ==
      [(CategoryKey(Day1, "Tools"), 1000), (CategoryKey(Day1, "Tools"), 500), (CategoryKey(Day2, "Electronics"), 2000)]
  {
    var s3 := [Sale(Day2, "Gizmo", 2000)];
    var s2 := [Sale(Day1, "Unknown", 300)] + s3;
    var s1 := [Sale(Day1, "Gadget", 500)] + s2;
    assert Sales == [Sale(Day1, "Widget", 1000)] + s1;
    var j2 := [(CategoryKey(Day2, "Electronics"), 2000)];
    assert Join(s3, dim) == j2 by { JoinCons(Sale(Day2, "Gizmo", 2000), [], dim); }
    assert Join(s2, dim) == j2 by {
      assert "Unknown" !in dim;
      JoinCons(Sale(Day1, "Unknown", 300), s3, dim);
    }
    assert Join(s1, dim) == [(CategoryKey(Day1, "Tools"), 500)] + j2 by { JoinCons(Sale(Day1, "Gadget", 500), s2, dim); }
    JoinCons(Sale(Day1, "Widget", 1000), s1, dim);
  }

  lemma ScenarioCategory(dim: map<string, string>)
    requires dim == map["Widget" := "Tools", "Gadget" := "Tools", "Gizmo" := "Electronics"]
    ensures CategoryAggregate(Sales, dim) ==
      map[CategoryKey(Day1, "Tools") := CategorySummary(1500, 2), CategoryKey(Day2, "Electronics") := CategorySummary(2000, 1)]
  {
    var tools, electronics := CategoryKey(Day1, "Tools"), CategoryKey(Day2, "Electronics");
    var j2 := [(electronics, 2000)];
    var j1 := [(tools, 500)] + j2;
    assert Join(Sales, dim) == [(tools, 1000)] + j1 by { ScenarioJoin(dim); }
    assert GroupBy(j2) == map[electronics := Group(2000, 1)] by { GroupByCons(electronics, 2000, []); }
    assert GroupBy(j1) == map[electronics := Group(2000, 1), tools := Group(500, 1)] by { GroupByCons(tools, 500, j2); }
    var g := map[electronics := Group(2000, 1), tools := Group(1500, 2)];
    assert GroupBy(Join(Sales, dim)) == g by { GroupByCons(tools, 1000, j1); }
  }

  /** On a database without tables the run completes every task and loads
      both sources as given. */
  lemma ScenarioRunFinishes()
    ensures var r := Pipeline(NoTables, Products, Sales);
      && r.halt == Finished
      && r.completed == Chain
      && r.db.salesRaw == Sales
      && r.db.productDim == map["Widget" := "Tools", "Gadget" := "Tools", "Gizmo" := "Electronics"]
  {
    var dim := ScenarioDimension();
    PipelineOutcome(NoTables, Products, Sales);
  }

  /** The daily summary that run leaves counts the unknown product's 3.00:
      18.00 over three sales on day 1, average 6.00. */
  lemma ScenarioRunDaily()
    ensures Pipeline(NoTables, Products, Sales).db.dailyAgg ==
      map[Day1 := DailySummary(1800, 600, 3), Day2 := DailySummary(2000, 2000, 1)]
  {
    var dim := ScenarioDimension();
    assert Pipeline(NoTables, Products, Sales).db.dailyAgg == Upsert(map[], DailyAggregate(Sales)) by {
      PipelineOutcome(NoTables, Products, Sales);
    }
    ScenarioDaily();
  }

  /** The category summary that run leaves drops the unknown product:
      15.00 over the two Tools sales of day 1. */
  lemma ScenarioRunCategory()
    ensures Pipeline(NoTables, Products, Sales).db.categoryAgg ==
      map[CategoryKey(Day1, "Tools") := CategorySummary(1500, 2), CategoryKey(Day2, "Electronics") := CategorySummary(2000, 1)]
  {
    var dim := ScenarioDimension();
    assert Pipeline(NoTables, Products, Sales).db.categoryAgg == Upsert(map[], CategoryAggregate(Sales, dim)) by {
      PipelineOutcome(NoTables, Products, Sales);
    }
    ScenarioCategory(dim);
  }

  /** The scenario's dimension source loads without a key violation. */
  lemma ScenarioDimension() returns (dim: map<string, string>)
    ensures dim == map["Widget" := "Tools", "Gadget" := "Tools", "Gizmo" := "Electronics"]
    ensures InsertAll(map[], Products) == Ok(dim) && DistinctProducts(Products)
  {
    dim := map["Widget" := "Tools", "Gadget" := "Tools", "Gizmo" := "Electronics"];
    assert Products[1..] == [ProductRow("Gadget", "Tools"), ProductRow("Gizmo", "Electronics")];
    assert Products[1..][1..] == [ProductRow("Gizmo", "Electronics")];
    DimensionInsertsExact(Products);
  }
}
