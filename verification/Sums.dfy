/** Sums of an integer weight over the rows of a table. */
module Sums {
  ghost function Sum<K, V>(rows: map<K, V>, weight: V -> int): int
  {
    if rows == map[] then 0
    else
      var k :| k in rows;
      weight(rows[k]) + Sum(rows - {k}, weight)
  }

  /** Any row may be taken out of the sum first. */
  lemma {:induction false} SumRemove<K, V>(rows: map<K, V>, weight: V -> int, k: K)
    requires k in rows
    ensures Sum(rows, weight) == weight(rows[k]) + Sum(rows - {k}, weight)
    decreases |rows|
  {
    var j :| j in rows && Sum(rows, weight) == weight(rows[j]) + Sum(rows - {j}, weight);
    if j != k {
      SumRemove(rows - {j}, weight, k);
      SumRemove(rows - {k}, weight, j);
      assert rows - {j} - {k} == rows - {k} - {j};
    }
  }

  /** Writing one row changes the sum by the difference of the two weights. */
  lemma SumPut<K, V>(rows: map<K, V>, weight: V -> int, k: K, v: V)
    ensures Sum(rows[k := v], weight) ==
            Sum(rows, weight) - (if k in rows then weight(rows[k]) else 0) + weight(v)
  {
    SumRemove(rows[k := v], weight, k);
    if k in rows {
      SumRemove(rows, weight, k);
      assert rows[k := v] - {k} == rows - {k};
    } else {
      assert rows[k := v] - {k} == rows;
    }
  }

  /** With non-negative weights no single row outweighs the sum. */
  lemma {:induction false} SumAtLeast<K, V>(rows: map<K, V>, weight: V -> int, k: K)
    requires k in rows
    requires forall j | j in rows :: weight(rows[j]) >= 0
    ensures Sum(rows, weight) >= weight(rows[k])
  {
    SumRemove(rows, weight, k);
    SumNonNegative(rows - {k}, weight);
  }

  lemma {:induction false} SumNonNegative<K, V>(rows: map<K, V>, weight: V -> int)
    requires forall j | j in rows :: weight(rows[j]) >= 0
    ensures Sum(rows, weight) >= 0
    decreases |rows|
  {
    if rows != map[] {
      var k :| k in rows;
      SumRemove(rows, weight, k);
      SumNonNegative(rows - {k}, weight);
    }
  }

  /** Two weights that agree on every row have the same sum. */
  lemma {:induction false} SumSame<K, V>(rows: map<K, V>, weight: V -> int, other: V -> int)
    requires forall j | j in rows :: weight(rows[j]) == other(rows[j])
    ensures Sum(rows, weight) == Sum(rows, other)
    decreases |rows|
  {
    if rows != map[] {
      var k :| k in rows;
      SumRemove(rows, weight, k);
      SumRemove(rows, other, k);
      SumSame(rows - {k}, weight, other);
    }
  }

  /** Rewriting rows without changing their weights keeps the sum. */
  lemma {:induction false} SumAgree<K, V>(rows: map<K, V>, rewritten: map<K, V>, weight: V -> int)
    requires rows.Keys == rewritten.Keys
    requires forall k | k in rows :: weight(rows[k]) == weight(rewritten[k])
    ensures Sum(rows, weight) == Sum(rewritten, weight)
    decreases |rows|
  {
    if rows == map[] {
      assert rewritten == map[];
    } else {
      var k :| k in rows;
      SumRemove(rows, weight, k);
      SumRemove(rewritten, weight, k);
      SumAgree(rows - {k}, rewritten - {k}, weight);
    }
  }

  lemma SumAllZero<K, V>(rows: map<K, V>, weight: V -> int)
    requires forall j | j in rows :: weight(rows[j]) == 0
    ensures Sum(rows, weight) == 0
  {
    SumSame(rows, weight, v => 0);
    SumOfZeros<K, V>(rows);
  }

  lemma {:induction false} SumOfZeros<K, V>(rows: map<K, V>)
    ensures Sum(rows, v => 0) == 0
    decreases |rows|
  {
    if rows != map[] {
      var k :| k in rows;
      SumRemove(rows, v => 0, k);
      SumOfZeros<K, V>(rows - {k});
    }
  }
}
