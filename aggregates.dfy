/** The two aggregate queries (dags/sales_etl_dag.py:130-170): what each
    SELECT ... GROUP BY computes from sales_raw (and product_dim), and the
    ON CONFLICT DO UPDATE merge of its result into the summary table. */
module Aggregates {
  import opened Money
  import opened Grouping
  import opened Schema

  // ---------------------------------------------------------------- upsert

  /** INSERT ... ON CONFLICT (key) DO UPDATE SET every non-key column =
      EXCLUDED.column: an incoming row overwrites the row with its key or is
      added; rows whose key is not incoming stay as they are. No row is ever
      deleted. */
  function Upsert<K, V>(table: map<K, V>, incoming: map<K, V>): (r: map<K, V>)
    ensures r.Keys == table.Keys + incoming.Keys
    ensures forall k :: k in incoming ==> r[k] == incoming[k]
    ensures forall k :: k in table && k !in incoming ==> r[k] == table[k]
  {
    table + incoming
  }

  // ---------------------------------------------------------- daily query

  /** sales_raw projected onto (sale_date, amount). */
  function DateRows(facts: seq<Sale>): seq<(Date, Cents)> {
    if facts == [] then [] else [(facts[0].date, facts[0].amount)] + DateRows(facts[1..])
  }

  /** SELECT sale_date, SUM(amount), AVG(amount), COUNT(*) FROM sales_raw
      GROUP BY sale_date, with AVG stored into NUMERIC(10, 2): the exact
      quotient rounded half away from zero to whole cents. */
  function DailyAggregate(facts: seq<Sale>): (agg: map<Date, DailySummary>)
    ensures forall d :: d in agg ==> agg[d].count > 0
  {
    var g := GroupBy(DateRows(facts));
    map d | d in g :: DailySummary(g[d].total, RoundDiv(g[d].total, g[d].count), g[d].count)
  }

  /** Reference definition: the amounts of the facts dated d, in load order. */
  function AmountsOn(facts: seq<Sale>, d: Date): seq<Cents> {
    if facts == [] then []
    else if facts[0].date == d then [facts[0].amount] + AmountsOn(facts[1..], d)
    else AmountsOn(facts[1..], d)
  }

  lemma {:induction false} DateRowsAmounts(facts: seq<Sale>, d: Date)
    ensures AmountsFor(DateRows(facts), d) == AmountsOn(facts, d)
  {
    if facts != [] {
      DateRowsAmounts(facts[1..], d);
      assert DateRows(facts)[1..] == DateRows(facts[1..]);
    }
  }

  /** Some fact is dated d exactly when the facts dated d are not none. */
  lemma {:induction false} AmountsOnOccurs(facts: seq<Sale>, d: Date)
    ensures AmountsOn(facts, d) != [] <==> exists i :: 0 <= i < |facts| && facts[i].date == d
  {
    if facts != [] {
      AmountsOnOccurs(facts[1..], d);
      if exists i :: 0 <= i < |facts| && facts[i].date == d {
        var i :| 0 <= i < |facts| && facts[i].date == d;
        if i > 0 { assert facts[1..][i - 1] == facts[i]; }
      }
      if exists i :: 0 <= i < |facts[1..]| && facts[1..][i].date == d {
        var i :| 0 <= i < |facts[1..]| && facts[1..][i].date == d;
        assert facts[i + 1] == facts[1..][i];
      }
    }
  }

  /** The daily aggregate has a row exactly for the dates that have facts,
      and that row holds the exact sum of the date's amounts, their number,
      and the sum divided by the number rounded to cents. */
  lemma DailyAggregateExact(facts: seq<Sale>, d: Date)
    ensures d in DailyAggregate(facts) <==> exists i :: 0 <= i < |facts| && facts[i].date == d
    ensures d in DailyAggregate(facts) ==>
      var xs := AmountsOn(facts, d);
      |xs| > 0 && DailyAggregate(facts)[d] == DailySummary(Sum(xs), RoundDiv(Sum(xs), |xs|), |xs|)
  {
    GroupByExact(DateRows(facts), d);
    DateRowsAmounts(facts, d);
    AmountsOnOccurs(facts, d);
  }

  /** Two fact tables that agree on the facts of date d give the same daily
      row for d (or none in both): changing other dates' facts cannot change it. */
  lemma DailyRowDependsOnItsDate(f1: seq<Sale>, f2: seq<Sale>, d: Date)
    requires AmountsOn(f1, d) == AmountsOn(f2, d)
    ensures d in DailyAggregate(f1) <==> d in DailyAggregate(f2)
    ensures d in DailyAggregate(f1) ==> DailyAggregate(f1)[d] == DailyAggregate(f2)[d]
  {
    GroupByExact(DateRows(f1), d);
    DateRowsAmounts(f1, d);
    GroupByExact(DateRows(f2), d);
    DateRowsAmounts(f2, d);
  }

  /** DailyAggregateExact for every date at once: a row exactly for the
      dates with facts, each the sum, rounded average and count of its
      date's amounts. */
  lemma DailyAggregateAllDates(facts: seq<Sale>)
    ensures forall d :: d in DailyAggregate(facts) <==> exists i :: 0 <= i < |facts| && facts[i].date == d
    ensures forall d :: AmountsOn(facts, d) != [] ==>
      var xs := AmountsOn(facts, d);
      d in DailyAggregate(facts) && DailyAggregate(facts)[d] == DailySummary(Sum(xs), RoundDiv(Sum(xs), |xs|), |xs|)
    ensures forall d :: AmountsOn(facts, d) == [] ==> d !in DailyAggregate(facts)
  {
    forall d ensures d in DailyAggregate(facts) <==> exists i :: 0 <= i < |facts| && facts[i].date == d {
      DailyAggregateExact(facts, d);
    }
    forall d ensures AmountsOn(facts, d) != [] <==> d in DailyAggregate(facts)
      ensures AmountsOn(facts, d) != [] ==>
        var xs := AmountsOn(facts, d);
        DailyAggregate(facts)[d] == DailySummary(Sum(xs), RoundDiv(Sum(xs), |xs|), |xs|)
    {
      DailyAggregateExact(facts, d);
      AmountsOnOccurs(facts, d);
    }
  }

  // ------------------------------------------------------- category query

  /** Does fact s join the dimension row of category c? */
  predicate Matches(s: Sale, dim: map<string, string>, c: string) {
    s.product in dim && dim[s.product] == c
  }

  /** FROM sales_raw sr JOIN product_dim p ON p.product_name = sr.product,
      projected onto ((sale_date, category), amount). A fact whose product
      has no dimension row yields no joined row; since product_name is the
      dimension's primary key, a fact joins at most one row. */
  function Join(facts: seq<Sale>, dim: map<string, string>): (j: seq<(CategoryKey, Cents)>)
    ensures |j| <= |facts|
    ensures forall i :: 0 <= i < |j| ==> j[i].0.category in dim.Values
  {
    if facts == [] then []
    else if facts[0].product in dim then
      [(CategoryKey(facts[0].date, dim[facts[0].product]), facts[0].amount)] + Join(facts[1..], dim)
    else Join(facts[1..], dim)
  }

  /** SELECT sale_date, category, SUM(amount), COUNT(*) over the join,
      GROUP BY sale_date, category. */
  function CategoryAggregate(facts: seq<Sale>, dim: map<string, string>): (agg: map<CategoryKey, CategorySummary>)
    ensures forall k :: k in agg ==> agg[k].count > 0
  {
    var g := GroupBy(Join(facts, dim));
    map k | k in g :: CategorySummary(g[k].total, g[k].count)
  }

  /** Reference definition: the amounts of the facts dated key.date whose
      product the dimension files under key.category, in load order. */
  function MatchedAmounts(facts: seq<Sale>, dim: map<string, string>, key: CategoryKey): seq<Cents> {
    if facts == [] then []
    else if facts[0].date == key.date && Matches(facts[0], dim, key.category) then
      [facts[0].amount] + MatchedAmounts(facts[1..], dim, key)
    else MatchedAmounts(facts[1..], dim, key)
  }

  lemma {:induction false} JoinAmounts(facts: seq<Sale>, dim: map<string, string>, key: CategoryKey)
    ensures AmountsFor(Join(facts, dim), key) == MatchedAmounts(facts, dim, key)
  {
    if facts != [] {
      JoinAmounts(facts[1..], dim, key);
      if facts[0].product in dim {
        var row := (CategoryKey(facts[0].date, dim[facts[0].product]), facts[0].amount);
        assert ([row] + Join(facts[1..], dim))[1..] == Join(facts[1..], dim);
      }
    }
  }

  /** Some fact matches the key exactly when the matched amounts are not none. */
  lemma {:induction false} MatchedAmountsOccur(facts: seq<Sale>, dim: map<string, string>, key: CategoryKey)
    ensures MatchedAmounts(facts, dim, key) != [] <==>
      exists i :: 0 <= i < |facts| && facts[i].date == key.date && Matches(facts[i], dim, key.category)
  {
    if facts != [] {
      MatchedAmountsOccur(facts[1..], dim, key);
      if exists i :: 0 <= i < |facts| && facts[i].date == key.date && Matches(facts[i], dim, key.category) {
        var i :| 0 <= i < |facts| && facts[i].date == key.date && Matches(facts[i], dim, key.category);
        if i > 0 { assert facts[1..][i - 1] == facts[i]; }
      }
      if exists i :: 0 <= i < |facts[1..]| && facts[1..][i].date == key.date && Matches(facts[1..][i], dim, key.category) {
        var i :| 0 <= i < |facts[1..]| && facts[1..][i].date == key.date && Matches(facts[1..][i], dim, key.category);
        assert facts[i + 1] == facts[1..][i];
      }
    }
  }

  /** The category aggregate has a row for (d, c) exactly when some fact of
      date d has a product the dimension files under c, and that row holds
      the exact sum and the number of those facts. Facts whose product is
      not in the dimension are in no row's amounts. */
  lemma CategoryAggregateExact(facts: seq<Sale>, dim: map<string, string>, key: CategoryKey)
    ensures key in CategoryAggregate(facts, dim) <==>
      exists i :: 0 <= i < |facts| && facts[i].date == key.date && Matches(facts[i], dim, key.category)
    ensures key in CategoryAggregate(facts, dim) ==>
      var xs := MatchedAmounts(facts, dim, key);
      CategoryAggregate(facts, dim)[key] == CategorySummary(Sum(xs), |xs|)
  {
    GroupByExact(Join(facts, dim), key);
    JoinAmounts(facts, dim, key);
    MatchedAmountsOccur(facts, dim, key);
  }

  /** CategoryAggregateExact for every key at once. */
  lemma CategoryAggregateAllKeys(facts: seq<Sale>, dim: map<string, string>)
    ensures forall k :: k in CategoryAggregate(facts, dim) <==>
      exists i :: 0 <= i < |facts| && facts[i].date == k.date && Matches(facts[i], dim, k.category)
    ensures forall k :: MatchedAmounts(facts, dim, k) != [] ==>
      var xs := MatchedAmounts(facts, dim, k);
      k in CategoryAggregate(facts, dim) && CategoryAggregate(facts, dim)[k] == CategorySummary(Sum(xs), |xs|)
    ensures forall k :: MatchedAmounts(facts, dim, k) == [] ==> k !in CategoryAggregate(facts, dim)
  {
    forall k ensures k in CategoryAggregate(facts, dim) <==>
      exists i :: 0 <= i < |facts| && facts[i].date == k.date && Matches(facts[i], dim, k.category)
    {
      CategoryAggregateExact(facts, dim, k);
    }
    forall k ensures MatchedAmounts(facts, dim, k) != [] <==> k in CategoryAggregate(facts, dim)
      ensures MatchedAmounts(facts, dim, k) != [] ==>
        var xs := MatchedAmounts(facts, dim, k);
        CategoryAggregate(facts, dim)[k] == CategorySummary(Sum(xs), |xs|)
    {
      CategoryAggregateExact(facts, dim, k);
      MatchedAmountsOccur(facts, dim, k);
    }
  }

  /** Two fact tables that agree on the facts matching (d, c) give the same
      category row for (d, c), or none in both. */
  lemma CategoryRowDependsOnItsKey(f1: seq<Sale>, f2: seq<Sale>, dim: map<string, string>, key: CategoryKey)
    requires MatchedAmounts(f1, dim, key) == MatchedAmounts(f2, dim, key)
    ensures key in CategoryAggregate(f1, dim) <==> key in CategoryAggregate(f2, dim)
    ensures key in CategoryAggregate(f1, dim) ==> CategoryAggregate(f1, dim)[key] == CategoryAggregate(f2, dim)[key]
  {
    GroupByExact(Join(f1, dim), key);
    JoinAmounts(f1, dim, key);
    GroupByExact(Join(f2, dim), key);
    JoinAmounts(f2, dim, key);
  }

  lemma {:induction false} JoinAppend(a: seq<Sale>, b: seq<Sale>, dim: map<string, string>)
    ensures Join(a + b, dim) == Join(a, dim) + Join(b, dim)
  {
    if a == [] {
      assert a + b == b;
    } else {
      assert (a + b)[1..] == a[1..] + b;
      JoinAppend(a[1..], b, dim);
    }
  }

  /** Join exclusion: a fact whose product has no dimension row, wherever it
      stands in sales_raw, changes no category row (and raises no error:
      the aggregate is total). */
  lemma UnmatchedFactIgnored(before: seq<Sale>, s: Sale, after: seq<Sale>, dim: map<string, string>)
    requires s.product !in dim
    ensures CategoryAggregate(before + [s] + after, dim) == CategoryAggregate(before + after, dim)
  {
    JoinAppend(before + [s], after, dim);
    JoinAppend(before, [s], dim);
    JoinAppend(before, after, dim);
    assert [s][1..] == [];
    assert Join(before, dim) + Join([s], dim) == Join(before, dim);
    assert Join(before + [s] + after, dim) == Join(before + after, dim);
  }

  /** An empty product_dim joins nothing, so the category aggregate is empty. */
  lemma {:induction false} EmptyDimensionNoCategoryRows(facts: seq<Sale>)
    ensures CategoryAggregate(facts, map[]) == map[]
  {
    if facts != [] {
      EmptyDimensionNoCategoryRows(facts[1..]);
      assert Join(facts, map[]) == Join(facts[1..], map[]);
    }
  }
}
