/** Insertion-ordered maps, as a list of entries with unique keys. */
module OrderedMaps {
  import opened Results

  datatype Entry<K, V> = Entry(key: K, value: V)

  predicate UniqueKeys<K(==), V>(m: seq<Entry<K, V>>) {
    forall i, j :: 0 <= i < j < |m| ==> m[i].key != m[j].key
  }

  predicate Has<K(==), V>(m: seq<Entry<K, V>>, key: K) {
    exists i :: 0 <= i < |m| && m[i].key == key
  }

  function Lookup<K(==), V>(m: seq<Entry<K, V>>, key: K): (r: Option<V>)
    ensures r.Some? <==> Has(m, key)
    ensures r.Some? ==> exists i :: 0 <= i < |m| && m[i] == Entry(key, r.value)
  {
    if m == [] then None
    else if m[0].key == key then Some(m[0].value)
    else
      assert forall i :: 0 <= i < |m[1..]| ==> m[1..][i] == m[i + 1];
      Lookup(m[1..], key)
  }

  /** Replaces the value of a key where it stands, or appends the key. */
  function Put<K(==), V>(m: seq<Entry<K, V>>, key: K, value: V): (r: seq<Entry<K, V>>) {
    if m == [] then [Entry(key, value)]
    else if m[0].key == key then [Entry(key, value)] + m[1..]
    else [m[0]] + Put(m[1..], key, value)
  }

  function Remove<K(==), V>(m: seq<Entry<K, V>>, key: K): (r: seq<Entry<K, V>>) {
    if m == [] then [] else if m[0].key == key then m[1..] else [m[0]] + Remove(m[1..], key)
  }

  lemma TailUnique<K, V>(m: seq<Entry<K, V>>)
    requires m != [] && UniqueKeys(m)
    ensures UniqueKeys(m[1..]) && !Has(m[1..], m[0].key)
  {
  }

  lemma {:induction false} PutFacts<K, V>(m: seq<Entry<K, V>>, key: K, value: V, other: K)
    ensures Lookup(Put(m, key, value), other) == if other == key then Some(value) else Lookup(m, other)
    ensures |Put(m, key, value)| == if Has(m, key) then |m| else |m| + 1
    ensures !Has(m, key) ==> Put(m, key, value) == m + [Entry(key, value)]
  {
    if m != [] {
      assert m == [m[0]] + m[1..];
      if m[0].key != key {
        PutFacts(m[1..], key, value, other);
        HasTail(m, key);
      } else {
        assert Has(m, key);
      }
    }
  }

  lemma HasTail<K, V>(m: seq<Entry<K, V>>, key: K)
    requires m != []
    ensures Has(m, key) <==> m[0].key == key || Has(m[1..], key)
  {
    if Has(m, key) && m[0].key != key {
      var i :| 0 <= i < |m| && m[i].key == key;
      assert m[1..][i - 1].key == key;
    }
    if Has(m[1..], key) {
      var i :| 0 <= i < |m[1..]| && m[1..][i].key == key;
      assert m[i + 1].key == key;
    }
  }

  lemma {:induction false} PutUnique<K, V>(m: seq<Entry<K, V>>, key: K, value: V)
    requires UniqueKeys(m)
    ensures UniqueKeys(Put(m, key, value))
  {
    if m != [] && m[0].key != key {
      TailUnique(m);
      PutUnique(m[1..], key, value);
      var r := Put(m[1..], key, value);
      PutFacts(m[1..], key, value, m[0].key);
      assert !Has(r, m[0].key);
      forall j | 0 <= j < |r| ensures r[j].key != m[0].key {
      }
    }
  }

  lemma {:induction false} RemoveFacts<K, V>(m: seq<Entry<K, V>>, key: K, other: K)
    requires UniqueKeys(m)
    ensures Lookup(Remove(m, key), other) == if other == key then None else Lookup(m, other)
    ensures |Remove(m, key)| == if Has(m, key) then |m| - 1 else |m|
    ensures UniqueKeys(Remove(m, key))
  {
    if m != [] {
      TailUnique(m);
      HasTail(m, key);
      if m[0].key != key {
        RemoveFacts(m[1..], key, other);
        RemoveFacts(m[1..], key, m[0].key);
        var r := Remove(m[1..], key);
        assert !Has(r, m[0].key);
        forall j | 0 <= j < |r| ensures r[j].key != m[0].key {
        }
      }
    }
  }
}
