/** Maps and sets that agree outside some keys. */
module Agreement {

  ghost predicate SameAt<K(!new), V>(m: map<K, V>, m': map<K, V>, k: K) {
    (k in m <==> k in m') && (k in m ==> m'[k] == m[k])
  }

  ghost predicate SameMap<K(!new), V>(m: map<K, V>, m': map<K, V>, mine: set<K>) {
    forall k :: k !in mine ==> SameAt(m, m', k)
  }

  ghost predicate SameSet<K(!new)>(a: set<K>, a': set<K>, mine: set<K>) {
    forall k :: k !in mine ==> (k in a <==> k in a')
  }

  /** The same, for keys whose second part is `c`. */
  ghost predicate SameKeyed<K(!new), C(!new), V>(m: map<(K, C), V>, m': map<(K, C), V>, c: C) {
    forall k: K, x: C :: x != c ==> SameAt(m, m', (k, x))
  }

  lemma WriteMine<K(!new), V>(m: map<K, V>, m': map<K, V>, mine: set<K>, k: K, v: V)
    requires SameMap(m, m', mine) && k in mine
    ensures SameMap(m[k := v], m', mine)
  {
    forall x | x !in mine ensures SameAt(m[k := v], m', x) { assert SameAt(m, m', x); }
  }

  lemma WriteBoth<K(!new), V>(m: map<K, V>, m': map<K, V>, mine: set<K>, k: K, v: V)
    requires SameMap(m, m', mine)
    ensures SameMap(m[k := v], m'[k := v], mine)
  {
    forall x | x !in mine ensures SameAt(m[k := v], m'[k := v], x) { assert SameAt(m, m', x); }
  }

  lemma MoreMine<K(!new), V>(m: map<K, V>, m': map<K, V>, mine: set<K>, more: set<K>)
    requires SameMap(m, m', mine) && mine <= more
    ensures SameMap(m, m', more)
  {
  }

  lemma Look<K(!new), V>(m: map<K, V>, m': map<K, V>, mine: set<K>, k: K)
    requires SameMap(m, m', mine) && k !in mine
    ensures SameAt(m, m', k)
  {
  }

  lemma AddMine<K(!new)>(a: set<K>, a': set<K>, mine: set<K>, k: K)
    requires SameSet(a, a', mine) && k in mine
    ensures SameSet(a + {k}, a', mine)
  {
  }

  lemma AddBoth<K(!new)>(a: set<K>, a': set<K>, mine: set<K>, k: K)
    requires SameSet(a, a', mine)
    ensures SameSet(a + {k}, a' + {k}, mine)
  {
  }

  lemma MoreMineSet<K(!new)>(a: set<K>, a': set<K>, mine: set<K>, more: set<K>)
    requires SameSet(a, a', mine) && mine <= more
    ensures SameSet(a, a', more)
  {
  }

  lemma LookSet<K(!new)>(a: set<K>, a': set<K>, mine: set<K>, k: K)
    requires SameSet(a, a', mine) && k !in mine
    ensures k in a <==> k in a'
  {
  }

  lemma KeyedMine<K(!new), C(!new), V>(m: map<(K, C), V>, m': map<(K, C), V>, c: C, k: K, v: V)
    requires SameKeyed(m, m', c)
    ensures SameKeyed(m[(k, c) := v], m', c) && SameKeyed(m - {(k, c)}, m', c)
  {
    forall j: K, x: C | x != c ensures SameAt(m[(k, c) := v], m', (j, x)) && SameAt(m - {(k, c)}, m', (j, x)) {
      assert SameAt(m, m', (j, x));
    }
  }

  lemma KeyedBoth<K(!new), C(!new), V>(m: map<(K, C), V>, m': map<(K, C), V>, c: C, key: (K, C), v: V)
    requires SameKeyed(m, m', c)
    ensures SameKeyed(m[key := v], m'[key := v], c) && SameKeyed(m - {key}, m' - {key}, c)
  {
    forall j: K, x: C | x != c
      ensures SameAt(m[key := v], m'[key := v], (j, x)) && SameAt(m - {key}, m' - {key}, (j, x))
    {
      assert SameAt(m, m', (j, x));
    }
  }

  lemma LookKeyed<K(!new), C(!new), V>(m: map<(K, C), V>, m': map<(K, C), V>, c: C, key: (K, C))
    requires SameKeyed(m, m', c) && key.1 != c
    ensures SameAt(m, m', key)
  {
    assert key == (key.0, key.1);
  }
}
