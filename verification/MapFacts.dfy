/** Small facts about finite maps and sets that the other modules' proofs lean on. */
module MapFacts {
  lemma WithoutKeys<K, V>(m: map<K, V>, k: K)
    ensures (m - {k}).Keys == m.Keys - {k}
  {
  }

  lemma WithoutTwice<K, V>(m: map<K, V>, ks: set<K>, k: K)
    ensures (m - ks) - {k} == m - (ks + {k})
  {
  }

  lemma WithoutSize<K, V>(m: map<K, V>, k: K)
    requires k in m
    ensures |m - {k}| == |m| - 1
  {
    WithoutKeys(m, k);
    assert |m - {k}| == |(m - {k}).Keys|;
  }

  lemma PutKeys<K, V>(m: map<K, V>, k: K, v: V)
    ensures m[k := v].Keys == m.Keys + {k}
  {
  }

  lemma PutSize<K, V>(m: map<K, V>, k: K, v: V)
    ensures |m[k := v]| == |m| + if k in m then 0 else 1
  {
    PutKeys(m, k, v);
    assert |m[k := v]| == |m[k := v].Keys|;
    if k in m {
      assert m.Keys + {k} == m.Keys;
    }
  }

  lemma PutTake<K, V>(m: map<K, V>, k: K, v: V)
    requires k !in m
    ensures m[k := v] - {k} == m
  {
  }

  lemma PutTwice<K, V>(m: map<K, V>, k: K, v: V, w: V)
    ensures m[k := v][k := w] == m[k := w]
  {
  }

  lemma SameSize<K, V, W>(m: map<K, V>, n: map<K, W>)
    requires m.Keys == n.Keys
    ensures |m| == |n|
  {
    assert |m| == |m.Keys| && |n| == |n.Keys|;
  }

  lemma SmallerSize<K, V, W>(m: map<K, V>, n: map<K, W>)
    requires m.Keys < n.Keys
    ensures |m| < |n|
  {
    assert n.Keys == m.Keys + (n.Keys - m.Keys);
    assert |m| == |m.Keys| && |n| == |n.Keys|;
  }

  /** Taking `k` out of the part `b` of a disjoint union. */
  lemma TakeFromUnion<K>(s: set<K>, a: set<K>, b: set<K>, k: K)
    requires a !! b && s == a + b && k in b
    ensures s - {k} == a + (b - {k})
    ensures a !! b - {k}
  {
  }

  /** Moving `k` from the part `b` of a disjoint union to the part `a`. */
  lemma MoveInUnion<K>(s: set<K>, a: set<K>, b: set<K>, k: K)
    requires a !! b && s == a + b && k in b
    ensures s + {k} == s == (a + {k}) + (b - {k})
    ensures a + {k} !! b - {k}
  {
  }

  lemma TakeOne<K>(s: set<K>, k: K)
    requires k in s
    ensures multiset(s) == multiset(s - {k}) + multiset{k}
  {
  }

  lemma PutOne<K>(s: set<K>, k: K)
    requires k !in s
    ensures multiset(s + {k}) == multiset(s) + multiset{k}
  {
  }
}
