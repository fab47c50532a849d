/** Sums of a weight over the rows of a table, and how one row update moves them. */
module Sums {

  /** Some element of a non-empty set. */
  ghost function Pick<T>(s: set<T>): (x: T)
    requires s != {}
    ensures x in s
  {
    var x :| x in s;
    x
  }

  ghost function Total<V>(m: map<int, V>, weight: V -> int): int
    decreases |m|
  {
    if m.Keys == {} then 0
    else
      var k := Pick(m.Keys);
      weight(m[k]) + Total(m - {k}, weight)
  }

  lemma {:induction false} TotalRemove<V>(m: map<int, V>, weight: V -> int, k: int)
    requires k in m
    ensures Total(m, weight) == weight(m[k]) + Total(m - {k}, weight)
    decreases |m|
  {
    var c := Pick(m.Keys);
    if c != k {
      TotalRemove(m - {c}, weight, k);
      TotalRemove(m - {k}, weight, c);
      assert m - {c} - {k} == m - {k} - {c};
    }
  }

  /** Writing one row changes the total by the difference of that row's weights. */
  lemma TotalWrite<V>(m: map<int, V>, weight: V -> int, k: int, v: V)
    ensures Total(m[k := v], weight)
         == Total(m, weight) - (if k in m then weight(m[k]) else 0) + weight(v)
  {
    TotalRemove(m[k := v], weight, k);
    if k in m {
      TotalRemove(m, weight, k);
      assert m[k := v] - {k} == m - {k};
    } else {
      assert m[k := v] - {k} == m;
    }
  }

  /** Two tables with the same rows' weights have the same total. */
  lemma {:induction false} TotalSame<V>(m: map<int, V>, m': map<int, V>, f: V -> int, g: V -> int)
    requires m.Keys == m'.Keys && forall k | k in m :: f(m[k]) == g(m'[k])
    ensures Total(m, f) == Total(m', g)
    decreases |m|
  {
    if m.Keys != {} {
      var k := Pick(m.Keys);
      TotalRemove(m, f, k);
      TotalRemove(m', g, k);
      TotalSame(m - {k}, m' - {k}, f, g);
    }
  }

  /** If every row costs at most `unit` times its count, so does the whole table. */
  lemma {:induction false} TotalAtMost<V>(m: map<int, V>, cost: V -> int, count: V -> int, unit: int)
    requires forall k | k in m :: cost(m[k]) <= unit * count(m[k])
    ensures Total(m, cost) <= unit * Total(m, count)
    decreases |m|
  {
    if m.Keys != {} {
      var k := Pick(m.Keys);
      TotalRemove(m, cost, k);
      TotalRemove(m, count, k);
      TotalAtMost(m - {k}, cost, count, unit);
      Distributes(unit, count(m[k]), Total(m - {k}, count));
      hide Total;
    }
  }

  lemma Distributes(a: int, b: int, c: int)
    ensures a * (b + c) == a * b + a * c
  {}

  lemma {:induction false} TotalZero<V>(m: map<int, V>, weight: V -> int)
    requires forall k | k in m :: weight(m[k]) == 0
    ensures Total(m, weight) == 0
    decreases |m|
  {
    if m.Keys != {} {
      var k := Pick(m.Keys);
      TotalRemove(m, weight, k);
      TotalZero(m - {k}, weight);
    }
  }

  lemma {:induction false} TotalNonNegative<V>(m: map<int, V>, weight: V -> int)
    requires forall k | k in m :: weight(m[k]) >= 0
    ensures Total(m, weight) >= 0
    decreases |m|
  {
    if m.Keys != {} {
      var k := Pick(m.Keys);
      TotalRemove(m, weight, k);
      TotalNonNegative(m - {k}, weight);
    }
  }

  /** The largest of a non-empty finite set of row ids. */
  ghost function Largest(ids: set<int>): (m: int)
    requires ids != {}
    ensures m in ids && forall x | x in ids :: x <= m
    decreases |ids|
  {
    var k := Pick(ids);
    if ids == {k} then k
    else
      var rest := Largest(ids - {k});
      assert forall x | x in ids :: x == k || x in ids - {k};
      if k > rest then k else rest
  }
}
