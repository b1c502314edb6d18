/** Amounts are NUMERIC(10, 2): exact decimals with two fraction digits,
    modelled here as whole cents. */
module Money {

  /** An amount of money in cents (NUMERIC(10, 2) scaled by 100). */
  type Cents = int

  /** q is n / d rounded to the nearest integer, ties away from zero: the
      rounding Postgres applies when a NUMERIC quotient is stored into a
      column of smaller scale. Written with q * d so that it reads as
      "n / d lies in [q - 1/2, q + 1/2)" for n >= 0 and in "(q - 1/2, q + 1/2]"
      for n < 0. */
  ghost predicate RoundsTo(n: int, d: int, q: int)
    requires d > 0
  {
    if n >= 0 then 2 * (q * d) - d <= 2 * n < 2 * (q * d) + d
    else 2 * (q * d) - d < 2 * n <= 2 * (q * d) + d
  }

  /** Division of n by d rounded half away from zero. */
  function RoundDiv(n: int, d: int): (q: int)
    requires d > 0
    ensures RoundsTo(n, d, q)
    ensures n >= 0 ==> q >= 0
    ensures n <= 0 ==> q <= 0
  {
    if n >= 0 then
      var q := (2 * n + d) / (2 * d);
      RoundHalfUp(n, d, q, (2 * n + d) % (2 * d));
      q
    else
      var q := (2 * -n + d) / (2 * d);
      RoundHalfUp(-n, d, q, (2 * -n + d) % (2 * d));
      assert (-q) * d == -(q * d);
      -q
  }

  /** Floor((2n + d) / 2d) is n / d rounded half up, for n >= 0. */
  lemma RoundHalfUp(n: nat, d: int, q: int, r: int)
    requires d > 0
    requires 2 * n + d == q * (2 * d) + r && 0 <= r < 2 * d
    ensures q >= 0
    ensures 2 * (q * d) - d <= 2 * n < 2 * (q * d) + d
  {
    assert q * (2 * d) == 2 * (q * d);
  }

  /** RoundsTo determines the quotient: RoundDiv is the only integer that
      is a nearest one and breaks ties away from zero. */
  lemma RoundDivUnique(n: int, d: int, q': int)
    requires d > 0
    requires RoundsTo(n, d, q')
    ensures q' == RoundDiv(n, d)
  {
    var q := RoundDiv(n, d);
    MultiplesApart(q, q', d);
  }

  /** Distinct multiples of d lie at least d apart. */
  lemma MultiplesApart(q: int, q': int, d: int)
    requires d > 0
    ensures q < q' ==> q' * d - q * d >= d
    ensures q' < q ==> q * d - q' * d >= d
  {
    if q != q' {
      var lo, hi := if q < q' then q else q', if q < q' then q' else q;
      var k: nat := hi - lo - 1;
      assert hi * d == lo * d + k * d + d;
      assert k * d >= 0;
    }
  }

  /** The average of c equal amounts a is a itself. */
  lemma RoundDivExact(a: int, c: int)
    requires c > 0
    ensures RoundDiv(a * c, c) == a
  {
    RoundDivUnique(a * c, c, a);
  }
}
