/** Sums of naturals over a finite map; an absent key counts as zero. */
module Sums {

  import Bags

  ghost function Sum<K>(m: map<K, nat>): nat
    decreases m.Keys
  {
    if m == map[] then 0 else
      var k := Bags.Pick(m);
      m[k] + Sum(m - {k})
  }

  function Get<K>(m: map<K, nat>, k: K): nat {
    if k in m then m[k] else 0
  }

  lemma {:induction false} SumSplit<K>(m: map<K, nat>, k: K)
    requires k in m
    ensures Sum(m) == m[k] + Sum(m - {k})
    decreases m.Keys
  {
    var j := Bags.Pick(m);
    if j != k {
      SumSplit(m - {j}, k);
      SumSplit(m - {k}, j);
      assert m - {j} - {k} == m - {k} - {j};
    }
  }

  lemma SumUpdate<K>(m: map<K, nat>, k: K, v: nat)
    ensures Sum(m[k := v]) + Get(m, k) == Sum(m) + v
  {
    SumSplit(m[k := v], k);
    assert m[k := v] - {k} == m - {k};
    if k in m {
      SumSplit(m, k);
    } else {
      assert m - {k} == m;
    }
  }

  lemma {:induction false} SumLeq<K>(m: map<K, nat>, n: map<K, nat>)
    requires forall k :: Get(m, k) <= Get(n, k)
    ensures Sum(m) <= Sum(n)
    decreases m.Keys
  {
    if m != map[] {
      var k := Bags.Pick(m);
      forall j
        ensures Get(m - {k}, j) <= Get(n - {k}, j)
      {
        assert Get(m, j) <= Get(n, j);
      }
      SumLeq(m - {k}, n - {k});
      assert Get(m, k) <= Get(n, k);
      if k in n {
        SumSplit(n, k);
      } else {
        assert n - {k} == n;
      }
    }
  }

  /** Growth nowhere except possibly at `a` and `b`, and the two together shrink: the sum shrinks. */
  lemma SumDrop<K>(m: map<K, nat>, n: map<K, nat>, a: K, b: K)
    requires forall k :: k != a && k != b ==> Get(n, k) <= Get(m, k)
    requires a != b ==> Get(n, a) + Get(n, b) < Get(m, a) + Get(m, b)
    requires a == b ==> Get(n, a) < Get(m, a)
    ensures Sum(n) < Sum(m)
  {
    var mid := m[a := Get(n, a)];
    var top := mid[b := Get(n, b)];
    SumUpdate(m, a, Get(n, a));
    SumUpdate(mid, b, Get(n, b));
    SumLeq(n, top);
  }
}
