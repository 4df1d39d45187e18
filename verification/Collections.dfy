/** Optional values and lookups. */
module Options {

  datatype Option<+T> = None | Some(value: T)

  function Look<K, V>(m: map<K, V>, k: K): Option<V> {
    if k in m then Some(m[k]) else None
  }

  function GetOr<T>(o: Option<T>, default: T): T {
    if o.Some? then o.value else default
  }
}

/** Sums over the values of a finite map. */
module Sums {

  ghost function Sum<K>(m: map<K, nat>): nat
    decreases |m|
  {
    if m == map[] then 0
    else
      var k :| k in m;
      m[k] + Sum(m - {k})
  }

  /** The sum does not depend on the order in which the keys are taken. */
  lemma {:induction false} SumWithout<K>(m: map<K, nat>, k: K)
    requires k in m
    ensures Sum(m) == m[k] + Sum(m - {k})
    decreases |m|
  {
    var x :| x in m && Sum(m) == m[x] + Sum(m - {x});
    if x != k {
      SumWithout(m - {x}, k);
      SumWithout(m - {k}, x);
      assert m - {x} - {k} == m - {k} - {x};
    }
  }

  lemma SumUpdate<K>(m: map<K, nat>, k: K, n: nat)
    ensures Sum(m[k := n]) == Sum(m) - (if k in m then m[k] else 0) + n
  {
    SumWithout(m[k := n], k);
    assert m[k := n] - {k} == m - {k};
    if k in m { SumWithout(m, k); } else { assert m - {k} == m; }
  }
}

/** Lists filed under keys, and how often they hold an element all together. */
module Bags {
  import Sums

  function ListAt<K, E>(m: map<K, seq<E>>, k: K): seq<E> {
    if k in m then m[k] else []
  }

  ghost function Counts<K, E>(m: map<K, seq<E>>, e: E): map<K, nat> {
    map k | k in m :: multiset(m[k])[e]
  }

  ghost function Occurs<K, E>(m: map<K, seq<E>>, e: E): nat {
    Sums.Sum(Counts(m, e))
  }

  lemma OccursUpdate<K, E>(m: map<K, seq<E>>, k: K, q: seq<E>, e: E)
    ensures Occurs(m[k := q], e) == Occurs(m, e) - multiset(ListAt(m, k))[e] + multiset(q)[e]
  {
    assert Counts(m[k := q], e) == Counts(m, e)[k := multiset(q)[e]];
    Sums.SumUpdate(Counts(m, e), k, multiset(q)[e]);
  }

  lemma OccursWithout<K, E>(m: map<K, seq<E>>, k: K, e: E)
    ensures Occurs(m, e) == multiset(ListAt(m, k))[e] + Occurs(m - {k}, e)
  {
    assert Counts(m - {k}, e) == Counts(m, e) - {k};
    if k in m { Sums.SumWithout(Counts(m, e), k); } else { assert m - {k} == m; }
  }
}
