/** GROUP BY key with SUM(amount) and COUNT(*), over rows already reduced to
    (group key, amount) pairs. Both aggregate queries of the pipeline are
    instances of it. */
module Grouping {
  import opened Money

  /** The SUM and COUNT(*) of one group. */
  datatype Group = Group(total: Cents, count: nat)

  /** Every key that some row carries. */
  function KeysOf<K>(rows: seq<(K, Cents)>): set<K> {
    set i | 0 <= i < |rows| :: rows[i].0
  }

  /** The grouped query as a fold over the rows: each row adds its amount
      and one to the group of its key. Only keys that occur get a group,
      and every group counts at least one row. */
  function GroupBy<K>(rows: seq<(K, Cents)>): (g: map<K, Group>)
    ensures g.Keys == KeysOf(rows)
    ensures forall k :: k in g ==> g[k].count > 0
  {
    if rows == [] then map[]
    else
      var rest := GroupBy(rows[1..]);
      var k := rows[0].0;
      var prev := if k in rest then rest[k] else Group(0, 0);
      assert KeysOf(rows) == {k} + KeysOf(rows[1..]) by {
        forall j | 0 <= j < |rows[1..]| ensures rows[1..][j].0 in KeysOf(rows) {
          assert rows[1..][j] == rows[j + 1];
        }
        forall k' | k' in KeysOf(rows) ensures k' == k || k' in KeysOf(rows[1..]) {
          var j :| 0 <= j < |rows| && rows[j].0 == k';
          if j > 0 { assert rows[1..][j - 1] == rows[j]; }
        }
      }
      rest[k := Group(prev.total + rows[0].1, prev.count + 1)]
  }

  /** Reference definition of the rows a group collects: the amounts of the
      rows whose key is k, in row order (WHERE key = k). */
  function AmountsFor<K(==)>(rows: seq<(K, Cents)>, k: K): seq<Cents> {
    if rows == [] then []
    else if rows[0].0 == k then [rows[0].1] + AmountsFor(rows[1..], k)
    else AmountsFor(rows[1..], k)
  }

  /** Exact sum of a sequence of amounts. */
  function Sum(xs: seq<Cents>): Cents {
    if xs == [] then 0 else xs[0] + Sum(xs[1..])
  }

  /** The group of a key, with an absent key read as the empty group. */
  function GroupOf<K>(g: map<K, Group>, k: K): Group {
    if k in g then g[k] else Group(0, 0)
  }

  /** The fold computes what GROUP BY promises: every key's group holds the
      exact sum and the number of the rows with that key, and a key without
      rows has no group. */
  lemma {:induction false} GroupByExact<K>(rows: seq<(K, Cents)>, k: K)
    ensures GroupOf(GroupBy(rows), k) == Group(Sum(AmountsFor(rows, k)), |AmountsFor(rows, k)|)
    ensures k in GroupBy(rows) <==> AmountsFor(rows, k) != []
  {
    if rows != [] {
      GroupByExact(rows[1..], k);
      if rows[0].0 == k {
        var xs := AmountsFor(rows[1..], k);
        assert AmountsFor(rows, k) == [rows[0].1] + xs;
        assert ([rows[0].1] + xs)[1..] == xs;
      }
    }
  }
}
