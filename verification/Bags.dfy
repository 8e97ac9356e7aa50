/** The multiset of everything stored in a finite map of lists, and how one update changes it. */
module Bags {

  ghost function Pick<K, V>(m: map<K, V>): (k: K)
    requires m != map[]
    ensures k in m
  {
    assert m.Keys != {};
    var k :| k in m;
    k
  }

  ghost function Bag<K, T>(m: map<K, seq<T>>): multiset<T>
    decreases m.Keys
  {
    if m == map[] then multiset{} else
      var k := Pick(m);
      multiset(m[k]) + Bag(m - {k})
  }

  function Lookup<K, T>(m: map<K, seq<T>>, k: K): seq<T> {
    if k in m then m[k] else []
  }

  lemma {:induction false} BagSplit<K, T>(m: map<K, seq<T>>, k: K)
    requires k in m
    ensures Bag(m) == multiset(m[k]) + Bag(m - {k})
    decreases m.Keys
  {
    var j := Pick(m);
    if j != k {
      BagSplit(m - {j}, k);
      BagSplit(m - {k}, j);
      assert m - {j} - {k} == m - {k} - {j};
    }
  }

  lemma Replaced<K, T>(m: map<K, seq<T>>, k: K, v: seq<T>)
    ensures Bag(m[k := v]) == multiset(v) + Bag(m - {k})
  {
    BagSplit(m[k := v], k);
    assert m[k := v] - {k} == m - {k};
  }

  /** Writing back what was there changes nothing. */
  lemma BagSame<K, T>(m: map<K, seq<T>>, k: K)
    ensures Bag(m[k := Lookup(m, k)]) == Bag(m)
  {
    Replaced(m, k, Lookup(m, k));
    if k in m {
      BagSplit(m, k);
    } else {
      assert m - {k} == m;
    }
  }

  /** Replacing a list by one that has one element less takes that element out of the bag. */
  lemma BagTake<K, T>(m: map<K, seq<T>>, k: K, v: seq<T>, x: T)
    requires multiset(Lookup(m, k)) == multiset(v) + multiset{x}
    ensures Bag(m) == Bag(m[k := v]) + multiset{x}
  {
    assert k in m by {
      assert x in multiset(Lookup(m, k));
    }
    Replaced(m, k, v);
    BagSplit(m, k);
  }

  lemma BagGive<K, T>(m: map<K, seq<T>>, k: K, v: seq<T>, x: T)
    requires multiset(v) == multiset(Lookup(m, k)) + multiset{x}
    ensures Bag(m[k := v]) == Bag(m) + multiset{x}
  {
    Replaced(m, k, v);
    if k in m {
      BagSplit(m, k);
    } else {
      assert m - {k} == m;
    }
  }

  lemma BagHas<K, T>(m: map<K, seq<T>>, k: K)
    ensures multiset(Lookup(m, k)) <= Bag(m)
  {
    if k in m {
      BagSplit(m, k);
    }
  }

  lemma BagHasBoth<K, T>(m: map<K, seq<T>>, j: K, k: K)
    requires j != k
    ensures multiset(Lookup(m, j)) + multiset(Lookup(m, k)) <= Bag(m)
  {
    if j in m {
      BagSplit(m, j);
      BagHas(m - {j}, k);
    } else {
      BagHas(m, k);
    }
  }

  lemma {:induction false} BagMember<K, T>(m: map<K, seq<T>>, x: T)
    requires x in Bag(m)
    ensures exists k :: k in m && x in m[k]
    decreases m.Keys
  {
    var k := Pick(m);
    if x !in m[k] {
      BagMember(m - {k}, x);
      var j :| j in m - {k} && x in (m - {k})[j];
      assert j in m && x in m[j];
    }
  }
}
