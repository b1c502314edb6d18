/** What the INSERT loop of load_products_from_csv does to product_dim
    (dags/sales_etl_dag.py:72-85), as a function of the rows it is given. */
module Loads {
  import opened Schema

  /** The product names the rows carry. */
  function Names(rows: seq<ProductRow>): set<string> {
    set i | 0 <= i < |rows| :: rows[i].product
  }

  /** No product name occurs in two rows. */
  predicate DistinctProducts(rows: seq<ProductRow>) {
    forall i, j :: 0 <= i < j < |rows| ==> rows[i].product != rows[j].product
  }

  /** Plain INSERTs of the rows, in order, into a product_dim holding
      `table`: each row adds its (product_name, category); the first row
      whose product is already a key violates the primary key. */
  function InsertAll(table: map<string, string>, rows: seq<ProductRow>): (r: Result<map<string, string>>)
    ensures r.Ok? ==> table.Keys <= r.value.Keys && forall k :: k in table ==> r.value[k] == table[k]
    ensures r.Err? ==> r.error.UniqueViolation?
    decreases rows
  {
    if rows == [] then Ok(table)
    else if rows[0].product in table then Err(UniqueViolation(rows[0].product))
    else InsertAll(table[rows[0].product := rows[0].category], rows[1..])
  }

  lemma NamesCons(rows: seq<ProductRow>)
    requires rows != []
    ensures Names(rows) == {rows[0].product} + Names(rows[1..])
  {
    forall p | p in Names(rows) ensures p == rows[0].product || p in Names(rows[1..]) {
      var i :| 0 <= i < |rows| && rows[i].product == p;
      if i > 0 { assert rows[1..][i - 1] == rows[i]; }
    }
    forall i | 0 <= i < |rows[1..]| ensures rows[1..][i].product in Names(rows) {
      assert rows[1..][i] == rows[i + 1];
    }
  }

  /** The inserts succeed exactly when no row repeats a key, of the table
      or of an earlier row. */
  lemma {:induction false} InsertAllSucceeds(table: map<string, string>, rows: seq<ProductRow>)
    ensures InsertAll(table, rows).Ok? <==>
      DistinctProducts(rows) && forall i :: 0 <= i < |rows| ==> rows[i].product !in table
    decreases rows
  {
    if rows != [] {
      var r, tail := rows[0], rows[1..];
      if r.product !in table {
        var table' := table[r.product := r.category];
        InsertAllSucceeds(table', tail);
        if DistinctProducts(rows) && forall i :: 0 <= i < |rows| ==> rows[i].product !in table {
          forall i | 0 <= i < |tail| ensures tail[i].product !in table' {
            assert rows[i + 1] == tail[i];
          }
        }
        if InsertAll(table', tail).Ok? {
          forall i, j | 0 <= i < j < |rows| ensures rows[i].product != rows[j].product {
            assert rows[j] == tail[j - 1];
            if i > 0 { assert rows[i] == tail[i - 1]; }
          }
          forall i | 0 <= i < |rows| ensures rows[i].product !in table {
            if i > 0 { assert rows[i] == tail[i - 1]; }
          }
        }
      }
    }
  }

  /** After successful inserts the table holds its old entries plus exactly
      one entry per row, mapping the row's product to its category. */
  lemma {:induction false} InsertAllContents(table: map<string, string>, rows: seq<ProductRow>)
    requires InsertAll(table, rows).Ok?
    ensures var t := InsertAll(table, rows).value;
      && t.Keys == table.Keys + Names(rows)
      && (forall i :: 0 <= i < |rows| ==> t[rows[i].product] == rows[i].category)
      && (forall k :: k in table ==> t[k] == table[k])
    decreases rows
  {
    if rows != [] {
      var r, tail := rows[0], rows[1..];
      var table' := table[r.product := r.category];
      InsertAllContents(table', tail);
      NamesCons(rows);
      var t := InsertAll(table, rows).value;
      forall i | 0 <= i < |rows| ensures t[rows[i].product] == rows[i].category {
        if i > 0 { assert rows[i] == tail[i - 1]; }
      }
    }
  }

  /** A failed insert names a row whose product is already a key: of the
      table, or of an earlier row. */
  lemma {:induction false} InsertAllFailure(table: map<string, string>, rows: seq<ProductRow>)
    requires InsertAll(table, rows).Err?
    ensures exists i ::
      && 0 <= i < |rows|
      && InsertAll(table, rows).error == UniqueViolation(rows[i].product)
      && (rows[i].product in table || exists j :: 0 <= j < i && rows[j].product == rows[i].product)
    decreases rows
  {
    var r, tail := rows[0], rows[1..];
    if r.product !in table {
      var table' := table[r.product := r.category];
      InsertAllFailure(table', tail);
      var i :| 0 <= i < |tail| && InsertAll(table', tail).error == UniqueViolation(tail[i].product) &&
        (tail[i].product in table' || exists j :: 0 <= j < i && tail[j].product == tail[i].product);
      assert rows[i + 1] == tail[i];
      if tail[i].product !in table' {
        var j :| 0 <= j < i && tail[j].product == tail[i].product;
        assert rows[j + 1] == tail[j];
      }
    } else {
      assert rows[0] == r;
    }
  }

  /** The dimension load's inserts into the truncated table: they succeed
      exactly when the source repeats no product name, and then product_dim
      holds exactly one entry per source row, mapping its product to its
      category; a failure names a product that occurs twice in the source. */
  lemma DimensionInsertsExact(rows: seq<ProductRow>)
    ensures InsertAll(map[], rows).Ok? <==> DistinctProducts(rows)
    ensures InsertAll(map[], rows).Ok? ==>
      var t := InsertAll(map[], rows).value;
      && t.Keys == Names(rows)
      && forall i :: 0 <= i < |rows| ==> t[rows[i].product] == rows[i].category
    ensures InsertAll(map[], rows).Err? ==>
      exists i, j :: 0 <= j < i < |rows| && rows[j].product == rows[i].product &&
        InsertAll(map[], rows).error == UniqueViolation(rows[i].product)
  {
    InsertAllSucceeds(map[], rows);
    if InsertAll(map[], rows).Ok? {
      InsertAllContents(map[], rows);
    } else {
      InsertAllFailure(map[], rows);
    }
  }
}
