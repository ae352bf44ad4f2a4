// Counters: finite maps to counts, read as zero where they have no key.
module Counters {

  type Counter<K> = map<K, nat>

  function Get<K>(c: Counter<K>, key: K): nat {
    if key in c then c[key] else 0
  }

  // counter[key] += n
  function Bump<K>(c: Counter<K>, key: K, n: nat): Counter<K> {
    c[key := Get(c, key) + n]
  }

  // Counter.update with another counter.
  function Plus<K>(c: Counter<K>, d: Counter<K>): Counter<K> {
    map key | key in c.Keys + d.Keys :: Get(c, key) + Get(d, key)
  }

  // Raw counts as the scripts take them in: positive ones only.
  function Sanitized<K>(raw: map<K, int>): Counter<K> {
    map key | key in raw && raw[key] > 0 :: raw[key]
  }

  lemma {:induction false} PlusCommutes<K>(c: Counter<K>, d: Counter<K>)
    ensures Plus(c, d) == Plus(d, c)
  {
    assert c.Keys + d.Keys == d.Keys + c.Keys;
  }

  lemma {:induction false} PlusAssociates<K>(b: Counter<K>, c: Counter<K>, d: Counter<K>)
    ensures Plus(Plus(b, c), d) == Plus(b, Plus(c, d))
  {
    var left, right := Plus(Plus(b, c), d), Plus(b, Plus(c, d));
    assert left.Keys == right.Keys;
    forall key | key in left
      ensures left[key] == right[key]
    {
      assert Get(Plus(b, c), key) == Get(b, key) + Get(c, key);
      assert Get(Plus(c, d), key) == Get(c, key) + Get(d, key);
    }
  }

  lemma {:induction false} PlusEmpty<K>(c: Counter<K>)
    ensures Plus(map[], c) == c == Plus(c, map[])
  {
  }

  lemma {:induction false} PlusOne<K>(c: Counter<K>, key: K, n: nat)
    ensures Plus(c, map[key := n]) == Bump(c, key, n)
  {
    assert c.Keys + {key} == Bump(c, key, n).Keys;
  }

  // ---- Sums over the keys with a property -------------------------------------------

  ghost function MassOver<K(!new)>(keys: set<K>, c: Counter<K>, p: K -> bool): nat {
    if keys == {} then 0
    else
      var key :| key in keys;
      MassOver(keys - {key}, c, p) + if p(key) then Get(c, key) else 0
  }

  // The sum of the counts whose key satisfies p.
  ghost function Mass<K(!new)>(c: Counter<K>, p: K -> bool): nat {
    MassOver(c.Keys, c, p)
  }

  predicate Any<K>(key: K) {
    true
  }

  ghost function Total<K(!new)>(c: Counter<K>): nat {
    Mass(c, Any)
  }

  lemma {:induction false} MassTakeOut<K(!new)>(keys: set<K>, c: Counter<K>, p: K -> bool, key: K)
    requires key in keys
    ensures MassOver(keys, c, p) == MassOver(keys - {key}, c, p) + if p(key) then Get(c, key) else 0
  {
    var other :| other in keys
      && MassOver(keys, c, p) == MassOver(keys - {other}, c, p) + if p(other) then Get(c, other) else 0;
    if other != key {
      MassTakeOut(keys - {other}, c, p, key);
      MassTakeOut(keys - {key}, c, p, other);
      assert keys - {other} - {key} == keys - {key} - {other};
    }
  }

  // Keys the counter lacks add nothing.
  lemma {:induction false} MassWiden<K(!new)>(keys: set<K>, c: Counter<K>, p: K -> bool)
    requires c.Keys <= keys
    ensures MassOver(keys, c, p) == Mass(c, p)
    decreases keys
  {
    if key :| key in keys && key !in c {
      MassTakeOut(keys, c, p, key);
      MassWiden(keys - {key}, c, p);
    } else {
      assert keys == c.Keys;
    }
  }

  lemma {:induction false} MassOverPlus<K(!new)>(keys: set<K>, c: Counter<K>, d: Counter<K>, p: K -> bool)
    ensures MassOver(keys, Plus(c, d), p) == MassOver(keys, c, p) + MassOver(keys, d, p)
  {
    if key :| key in keys {
      MassOverPlus(keys - {key}, c, d, p);
      MassTakeOut(keys, Plus(c, d), p, key);
      MassTakeOut(keys, c, p, key);
      MassTakeOut(keys, d, p, key);
    }
  }

  lemma {:induction false} MassPlus<K(!new)>(c: Counter<K>, d: Counter<K>, p: K -> bool)
    ensures Mass(Plus(c, d), p) == Mass(c, p) + Mass(d, p)
  {
    var keys := c.Keys + d.Keys;
    assert Plus(c, d).Keys == keys;
    MassOverPlus(keys, c, d, p);
    MassWiden(keys, c, p);
    MassWiden(keys, d, p);
  }

  lemma {:induction false} MassSingle<K(!new)>(key: K, n: nat, p: K -> bool)
    ensures Mass(map[key := n], p) == if p(key) then n else 0
  {
    var c: Counter<K> := map[key := n];
    assert c.Keys == {key};
    MassTakeOut(c.Keys, c, p, key);
    assert c.Keys - {key} == {};
  }

  lemma {:induction false} MassBump<K(!new)>(c: Counter<K>, key: K, n: nat, p: K -> bool)
    ensures Mass(Bump(c, key, n), p) == Mass(c, p) + if p(key) then n else 0
  {
    PlusOne(c, key, n);
    MassPlus(c, map[key := n], p);
    MassSingle(key, n, p);
  }

  // sum(counter.values())
  method SumValues<K(!new, ==)>(c: Counter<K>) returns (total: nat)
    ensures total == Total(c)
  {
    total := 0;
    var todo := c.Keys;
    while todo != {}
      invariant todo <= c.Keys
      invariant total + MassOver(todo, c, Any) == Total(c)
      decreases todo
    {
      var key :| key in todo;
      MassTakeOut(todo, c, Any, key);
      total := total + c[key];
      todo := todo - {key};
    }
  }
}
