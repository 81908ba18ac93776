// Secondary indexes shared by every registry: a map from an index key
// (status, tier, tag, market, ...) to the list of record ids filed under it.
// A record with the same key twice (a repeated tag) is filed twice and,
// when it is removed, taken out twice.
module Index {
  import opened Seqs

  /** `by_key.get(k, [])`. */
  function Bucket<K>(b: map<K, seq<string>>, k: K): seq<string>
  {
    if k in b then b[k] else []
  }

  /**
   * The index agrees with the records: each id occurs in the bucket of `k`
   * exactly as often as `k` occurs among that record's keys.
   */
  ghost predicate Indexed<K(!new)>(b: map<K, seq<string>>, keysOf: map<string, seq<K>>)
  {
    forall k, id :: Count(Bucket(b, k), id) == if id in keysOf then Count(keysOf[id], k) else 0
  }

  /** `by_key.setdefault(k, []).append(id)`. */
  function Add<K>(b: map<K, seq<string>>, k: K, id: string): map<K, seq<string>>
  {
    b[k := Bucket(b, k) + [id]]
  }

  /** `if k in by_key and id in by_key[k]: by_key[k].remove(id)`. */
  function Remove<K>(b: map<K, seq<string>>, k: K, id: string): map<K, seq<string>>
  {
    if k in b && id in b[k] then b[k := RemoveFirst(b[k], id)] else b
  }

  /** Filing `id` under every key of `keys`, in order. */
  function AddAll<K>(b: map<K, seq<string>>, keys: seq<K>, id: string): map<K, seq<string>>
  {
    if keys == [] then b else Add(AddAll(b, keys[..|keys| - 1], id), keys[|keys| - 1], id)
  }

  /** Taking `id` out of the bucket of every key of `keys`, in order. */
  function RemoveAll<K>(b: map<K, seq<string>>, keys: seq<K>, id: string): map<K, seq<string>>
  {
    if keys == [] then b else Remove(RemoveAll(b, keys[..|keys| - 1], id), keys[|keys| - 1], id)
  }

  function Sub(a: nat, b: nat): nat
  {
    if a >= b then a - b else 0
  }

  lemma AddCount<K>(b: map<K, seq<string>>, k: K, id: string, k': K, x: string)
    ensures Count(Bucket(Add(b, k, id), k'), x) == Count(Bucket(b, k'), x) + (if k == k' && x == id then 1 else 0)
  {
    if k == k' {
      assert Bucket(Add(b, k, id), k') == Bucket(b, k) + [id];
    }
  }

  lemma RemoveCount<K>(b: map<K, seq<string>>, k: K, id: string, k': K, x: string)
    ensures Count(Bucket(Remove(b, k, id), k'), x)
         == if k == k' && x == id then Sub(Count(Bucket(b, k'), x), 1) else Count(Bucket(b, k'), x)
  {
    if k in b && id in b[k] {
      RemoveFirstCount(b[k], id, x);
    }
  }

  lemma {:induction false} AddAllCount<K>(b: map<K, seq<string>>, keys: seq<K>, id: string, k: K, x: string)
    ensures Count(Bucket(AddAll(b, keys, id), k), x) == Count(Bucket(b, k), x) + (if x == id then Count(keys, k) else 0)
  {
    if keys != [] {
      var n := |keys| - 1;
      AddAllCount(b, keys[..n], id, k, x);
      AddCount(AddAll(b, keys[..n], id), keys[n], id, k, x);
      CountLast(keys, k);
    }
  }

  lemma {:induction false} RemoveAllCount<K>(b: map<K, seq<string>>, keys: seq<K>, id: string, k: K, x: string)
    ensures Count(Bucket(RemoveAll(b, keys, id), k), x)
         == if x == id then Sub(Count(Bucket(b, k), x), Count(keys, k)) else Count(Bucket(b, k), x)
  {
    if keys != [] {
      var n := |keys| - 1;
      var init := keys[..n];
      RemoveAllCount(b, init, id, k, x);
      RemoveCount(RemoveAll(b, init, id), keys[n], id, k, x);
      CountLast(keys, k);
    }
  }

  /** Filing a new record under its keys keeps the index in agreement. */
  lemma IndexedAddAll<K(!new)>(b: map<K, seq<string>>, keysOf: map<string, seq<K>>, id: string, keys: seq<K>)
    requires Indexed(b, keysOf) && id !in keysOf
    ensures Indexed(AddAll(b, keys, id), keysOf[id := keys])
  {
    forall k, x ensures Count(Bucket(AddAll(b, keys, id), k), x)
                     == if x in keysOf[id := keys] then Count(keysOf[id := keys][x], k) else 0 {
      AddAllCount(b, keys, id, k, x);
    }
  }

  /** Taking a record out of the buckets of its keys keeps the index in agreement. */
  lemma IndexedRemoveAll<K(!new)>(b: map<K, seq<string>>, keysOf: map<string, seq<K>>, id: string)
    requires Indexed(b, keysOf) && id in keysOf
    ensures Indexed(RemoveAll(b, keysOf[id], id), keysOf - {id})
  {
    forall k, x ensures Count(Bucket(RemoveAll(b, keysOf[id], id), k), x)
                     == if x in keysOf - {id} then Count((keysOf - {id})[x], k) else 0 {
      RemoveAllCount(b, keysOf[id], id, k, x);
    }
  }

  /** After it is indexed, a record is found in the bucket of each of its keys. */
  lemma IndexedFind<K(!new)>(b: map<K, seq<string>>, keysOf: map<string, seq<K>>, id: string, k: K)
    requires Indexed(b, keysOf) && id in keysOf && k in keysOf[id]
    ensures id in Bucket(b, k)
  {
    assert Count(Bucket(b, k), id) == Count(keysOf[id], k) > 0;
  }

  /** A bucket holds only records filed under its key. */
  lemma IndexedOnly<K(!new)>(b: map<K, seq<string>>, keysOf: map<string, seq<K>>, id: string, k: K)
    requires Indexed(b, keysOf) && id in Bucket(b, k)
    ensures id in keysOf && k in keysOf[id]
  {
    assert Count(Bucket(b, k), id) > 0;
  }

  lemma AddAllOne<K>(b: map<K, seq<string>>, k: K, id: string)
    ensures AddAll(b, [k], id) == Add(b, k, id)
  {
    assert [k][..0] == [];
  }

  lemma RemoveAllOne<K>(b: map<K, seq<string>>, k: K, id: string)
    ensures RemoveAll(b, [k], id) == Remove(b, k, id)
  {
    assert [k][..0] == [];
  }

  /** The loop `for k in keys: by_key.setdefault(k, []).append(id)`. */
  method AddToBuckets<K>(b: map<K, seq<string>>, keys: seq<K>, id: string) returns (r: map<K, seq<string>>)
    ensures r == AddAll(b, keys, id)
  {
    r := b;
    var i := 0;
    while i < |keys|
      invariant 0 <= i <= |keys|
      invariant r == AddAll(b, keys[..i], id)
    {
      PrefixOfPrefix(keys, i);
      r := Add(r, keys[i], id);
      i := i + 1;
    }
    FullPrefix(keys);
  }

  /** The loop `for k in keys: if k in by_key and id in by_key[k]: by_key[k].remove(id)`. */
  method RemoveFromBuckets<K>(b: map<K, seq<string>>, keys: seq<K>, id: string) returns (r: map<K, seq<string>>)
    ensures r == RemoveAll(b, keys, id)
  {
    r := b;
    var i := 0;
    while i < |keys|
      invariant 0 <= i <= |keys|
      invariant r == RemoveAll(b, keys[..i], id)
    {
      PrefixOfPrefix(keys, i);
      r := Remove(r, keys[i], id);
      i := i + 1;
    }
    FullPrefix(keys);
  }

  /** `ids` with every id not already present appended, in order (`set.update`). */
  function AddNew(acc: seq<string>, ids: seq<string>): (r: seq<string>)
    ensures forall x :: x in r <==> x in acc || x in ids
  {
    if ids == [] then acc
    else
      var a := AddNew(acc, ids[..|ids| - 1]);
      var x := ids[|ids| - 1];
      assert forall y :: y in ids <==> y in ids[..|ids| - 1] || y == x by {
        assert ids == ids[..|ids| - 1] + [x];
      }
      if x in a then a else a + [x]
  }

  /** The union of the buckets of `keys`, each id once, in first-seen order. */
  function Union<K>(b: map<K, seq<string>>, keys: seq<K>): (r: seq<string>)
  {
    if keys == [] then [] else AddNew(Union(b, keys[..|keys| - 1]), Bucket(b, keys[|keys| - 1]))
  }

  /** Some key of `keys` has `id` in its bucket. */
  predicate InSomeBucket<K>(b: map<K, seq<string>>, keys: seq<K>, id: string)
  {
    exists i :: 0 <= i < |keys| && id in Bucket(b, keys[i])
  }

  lemma InSomeBucketSnoc<K>(b: map<K, seq<string>>, keys: seq<K>, id: string)
    requires keys != []
    ensures InSomeBucket(b, keys, id) <==>
            InSomeBucket(b, keys[..|keys| - 1], id) || id in Bucket(b, keys[|keys| - 1])
  {
    var n := |keys| - 1;
    if InSomeBucket(b, keys[..n], id) {
      var i :| 0 <= i < n && id in Bucket(b, keys[..n][i]);
      assert keys[i] == keys[..n][i];
    }
    if InSomeBucket(b, keys, id) {
      var i :| 0 <= i < |keys| && id in Bucket(b, keys[i]);
      if i < n {
        assert keys[..n][i] == keys[i];
      }
    }
  }

  /** An id is in the union exactly when it is in the bucket of one of the keys. */
  lemma {:induction false} UnionMembers<K>(b: map<K, seq<string>>, keys: seq<K>, id: string)
    ensures id in Union(b, keys) <==> InSomeBucket(b, keys, id)
  {
    if keys != [] {
      UnionMembers(b, keys[..|keys| - 1], id);
      InSomeBucketSnoc(b, keys, id);
    }
  }

  /** The union of the buckets of `keys`, gathered bucket by bucket. */
  method UnionOf<K>(b: map<K, seq<string>>, keys: seq<K>) returns (ids: seq<string>)
    ensures ids == Union(b, keys)
  {
    ids := [];
    var i := 0;
    while i < |keys|
      invariant 0 <= i <= |keys|
      invariant ids == Union(b, keys[..i])
    {
      PrefixOfPrefix(keys, i);
      var bucket := Bucket(b, keys[i]);
      var before := ids;
      var j := 0;
      while j < |bucket|
        invariant 0 <= j <= |bucket|
        invariant ids == AddNew(before, bucket[..j])
      {
        PrefixOfPrefix(bucket, j);
        if bucket[j] !in ids {
          ids := ids + [bucket[j]];
        }
        j := j + 1;
      }
      FullPrefix(bucket);
      i := i + 1;
    }
    FullPrefix(keys);
  }

  /** `order` lists the keys of the primary map once each, in insertion order. */
  ghost predicate Ordered<V>(order: seq<string>, m: map<string, V>)
  {
    NoDup(order) && forall id :: id in order <==> id in m
  }

  lemma OrderedAppend<V>(order: seq<string>, m: map<string, V>, id: string, v: V)
    requires Ordered(order, m) && id !in m
    ensures Ordered(order + [id], m[id := v])
  {
  }

  lemma OrderedRemove<V>(order: seq<string>, m: map<string, V>, id: string)
    requires Ordered(order, m)
    ensures Ordered(RemoveFirst(order, id), m - {id})
  {
    RemoveFirstMultiset(order, id);
    forall y ensures y in RemoveFirst(order, id) <==> y in order && y != id {
      assert y in RemoveFirst(order, id) <==> multiset(RemoveFirst(order, id))[y] > 0;
      assert y in order <==> multiset(order)[y] > 0;
      NoDupCount(order, y);
    }
    NoDupRemove(order, id);
  }

  /** The order lists exactly as many ids as the map holds. */
  lemma OrderedSize<V>(order: seq<string>, m: map<string, V>)
    requires Ordered(order, m)
    ensures |order| == |m|
  {
    NoDupElems(order);
    assert (set x | x in order) == m.Keys;
  }

  lemma {:induction false} NoDupElems<T>(s: seq<T>)
    requires NoDup(s)
    ensures |set x | x in s| == |s|
  {
    if s != [] {
      var n := |s| - 1;
      NoDupElems(s[..n]);
      assert (set x | x in s) == (set x | x in s[..n]) + {s[n]};
      assert s[n] !in s[..n];
    }
  }

  lemma {:induction false} NoDupCount<T>(s: seq<T>, y: T)
    requires NoDup(s)
    ensures multiset(s)[y] <= 1
  {
    if s != [] {
      assert s == [s[0]] + s[1..];
      NoDupCount(s[1..], y);
    }
  }

  lemma {:induction false} NoDupRemove<T>(s: seq<T>, x: T)
    requires NoDup(s)
    ensures NoDup(RemoveFirst(s, x))
  {
    if s != [] && s[0] != x {
      NoDupRemove(s[1..], x);
      RemoveFirstMultiset(s[1..], x);
      assert multiset(RemoveFirst(s[1..], x))[s[0]] == 0;
    }
  }
}
