/** Finite sums over maps keyed by symbol: the meaning of the portfolio's accumulator loops. */
module Sums {

  ghost function Sum(m: map<string, real>): real
    decreases |m|
  {
    if m == map[] then 0.0
    else
      var k :| k in m;
      m[k] + Sum(m - {k})
  }

  /** The sum does not depend on the order in which keys are taken out. */
  lemma {:induction false} SumRemove(m: map<string, real>, k: string)
    requires k in m
    ensures Sum(m) == m[k] + Sum(m - {k})
    decreases |m|
  {
    var j :| j in m && Sum(m) == m[j] + Sum(m - {j});
    if j != k {
      SumRemove(m - {j}, k);
      SumRemove(m - {k}, j);
      assert m - {j} - {k} == m - {k} - {j};
    }
  }

  lemma SumUpdate(m: map<string, real>, k: string, v: real)
    ensures Sum(m[k := v]) == Sum(m) + v - (if k in m then m[k] else 0.0)
  {
    var updated := m[k := v];
    SumRemove(updated, k);
    if k in m {
      SumRemove(m, k);
      assert updated - {k} == m - {k};
    } else {
      assert updated - {k} == m;
    }
  }

  /** Replacing the entry worth `was` by `v` moves the sum by the difference. */
  lemma SumMoves(m: map<string, real>, m': map<string, real>, k: string, was: real, v: real)
    requires m' == m[k := v] && was == (if k in m then m[k] else 0.0)
    ensures Sum(m') == Sum(m) + v - was
  {
    SumUpdate(m, k, v);
  }

  lemma {:induction false} SumAdd(a: map<string, real>, b: map<string, real>, c: map<string, real>)
    requires a.Keys == b.Keys == c.Keys
    requires forall k | k in c :: c[k] == a[k] + b[k]
    ensures Sum(c) == Sum(a) + Sum(b)
    decreases |c|
  {
    if c != map[] {
      var k :| k in c;
      SumRemove(a, k);
      SumRemove(b, k);
      SumRemove(c, k);
      SumAdd(a - {k}, b - {k}, c - {k});
    }
  }

  lemma {:induction false} SumOfZeros(m: map<string, real>)
    requires forall k | k in m :: m[k] == 0.0
    ensures Sum(m) == 0.0
    decreases |m|
  {
    if m != map[] {
      var k :| k in m;
      SumRemove(m, k);
      SumOfZeros(m - {k});
    }
  }
}
