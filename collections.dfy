/** Bucketing a list by a key, as the summary code does with `filter` and
    with the dictionaries of id lists it fills by `push`: the bucket of a
    key is the sub-list of the elements with that key, in their original
    order, and the buckets together are a permutation of the list. */
module Collections {
  import opened OrderList

  /** `s.filter(x => key(x) === k)`. */
  function FilterKey<T(!new), K(==)>(s: seq<T>, key: T -> K, k: K): (r: seq<T>)
    ensures |r| <= |s|
    ensures forall x :: x in r <==> x in s && key(x) == k
  {
    if s == [] then []
    else
      var last := s[|s| - 1];
      FilterKey(s[..|s| - 1], key, k) + (if key(last) == k then [last] else [])
  }

  /** Filtering commutes with concatenation. */
  lemma {:induction false} FilterKeyAppend<T(!new), K>(a: seq<T>, b: seq<T>, key: T -> K, k: K)
    ensures FilterKey(a + b, key, k) == FilterKey(a, key, k) + FilterKey(b, key, k)
  {
    if b == [] {
      assert a + b == a;
    } else {
      var b' := b[..|b| - 1];
      assert (a + b)[..|a + b| - 1] == a + b';
      assert (a + b)[|a + b| - 1] == b[|b| - 1];
      FilterKeyAppend(a, b', key, k);
    }
  }

  /** The dictionary that a `forEach` over `s` builds with
      `m[key(x)] = m[key(x)] || []; m[key(x)].push(x)`. */
  function GroupByKey<T, K(==)>(s: seq<T>, key: T -> K): map<K, seq<T>> {
    if s == [] then map[]
    else
      var m := GroupByKey(s[..|s| - 1], key);
      var x := s[|s| - 1];
      m[key(x) := (if key(x) in m then m[key(x)] else []) + [x]]
  }

  /** One element more lands at the end of its key's bucket. */
  lemma GroupByKeySnoc<T, K>(s: seq<T>, x: T, key: T -> K)
    ensures var m := GroupByKey(s, key);
            GroupByKey(s + [x], key) == m[key(x) := (if key(x) in m then m[key(x)] else []) + [x]]
  {
    var t := s + [x];
    assert t[..|t| - 1] == s && t[|t| - 1] == x;
  }

  /** A key has a bucket exactly when some element has that key, and the
      bucket is the elements with that key, in list order. */
  lemma GroupByKeyIsFilter<T(!new), K>(s: seq<T>, key: T -> K)
    ensures forall k :: k in GroupByKey(s, key) <==> FilterKey(s, key, k) != []
    ensures forall k :: k in GroupByKey(s, key) ==> GroupByKey(s, key)[k] == FilterKey(s, key, k)
  {
    forall k: K {
      GroupByKeyAt(s, key, k);
    }
  }

  lemma {:induction false} GroupByKeyAt<T(!new), K>(s: seq<T>, key: T -> K, k: K)
    ensures k in GroupByKey(s, key) <==> FilterKey(s, key, k) != []
    ensures k in GroupByKey(s, key) ==> GroupByKey(s, key)[k] == FilterKey(s, key, k)
  {
    if s != [] {
      var p := s[..|s| - 1];
      var x := s[|s| - 1];
      GroupByKeyAt(p, key, k);
      var m := GroupByKey(p, key);
      assert GroupByKey(s, key) == m[key(x) := (if key(x) in m then m[key(x)] else []) + [x]];
      assert FilterKey(s, key, k) == FilterKey(p, key, k) + (if key(x) == k then [x] else []);
    }
  }

  /** Each element lands in exactly one bucket: the one of its own key. */
  lemma GroupByKeyPlacesEachOnce<T(!new), K>(s: seq<T>, key: T -> K, x: T, k: K)
    requires k in GroupByKey(s, key)
    ensures x in GroupByKey(s, key)[k] <==> x in s && key(x) == k
  {
    GroupByKeyIsFilter(s, key);
  }

  /** The buckets of the keys `ks`, one after another. */
  function Gather<T(!new), K(==)>(s: seq<T>, key: T -> K, ks: seq<K>): seq<T> {
    if ks == [] then [] else FilterKey(s, key, ks[0]) + Gather(s, key, ks[1..])
  }

  /** The bucket values of `m` for the keys `ks`, one after another
      (`Object.values(m).flat()` when `ks` is the key order of `m`). */
  function Flatten<K, T>(m: map<K, seq<T>>, ks: seq<K>): seq<T>
    requires forall k :: k in ks ==> k in m
  {
    if ks == [] then [] else m[ks[0]] + Flatten(m, ks[1..])
  }

  lemma {:induction false} GatherSnoc<T(!new), K>(s: seq<T>, x: T, key: T -> K, ks: seq<K>)
    requires NoDup(ks)
    ensures multiset(Gather(s + [x], key, ks))
         == multiset(Gather(s, key, ks)) + (if key(x) in ks then multiset{x} else multiset{})
  {
    if ks != [] {
      assert (s + [x])[..|s|] == s;
      assert ks[0] !in ks[1..];
      GatherSnoc(s, x, key, ks[1..]);
    }
  }

  /** With distinct keys that cover every element, the buckets together are
      a permutation of the list. */
  lemma {:induction false} GatherIsPermutation<T(!new), K>(s: seq<T>, key: T -> K, ks: seq<K>)
    requires NoDup(ks)
    requires forall x :: x in s ==> key(x) in ks
    ensures multiset(Gather(s, key, ks)) == multiset(s)
  {
    if s != [] {
      var p := s[..|s| - 1];
      var x := s[|s| - 1];
      assert s == p + [x];
      assert x in s;
      GatherIsPermutation(p, key, ks);
      GatherSnoc(p, x, key, ks);
      assert key(x) in ks;
      assert multiset(Gather(s, key, ks)) == multiset(Gather(p, key, ks)) + multiset{x};
      assert multiset(s) == multiset(p) + multiset{x};
    } else {
      GatherEmpty(key, ks);
    }
  }

  lemma {:induction false} GatherEmpty<T(!new), K>(key: T -> K, ks: seq<K>)
    ensures Gather([], key, ks) == []
  {
    if ks != [] {
      GatherEmpty(key, ks[1..]);
    }
  }

  /** Flattening the dictionary of buckets, in any enumeration of its keys,
      gives back a permutation of the list. */
  lemma {:induction false} FlattenGroupsIsPermutation<T(!new), K(!new)>(s: seq<T>, key: T -> K, ks: seq<K>)
    requires Lists(ks, GroupByKey(s, key).Keys)
    ensures multiset(Flatten(GroupByKey(s, key), ks)) == multiset(s)
  {
    GroupByKeyIsFilter(s, key);
    FlattenIsGather(s, key, ks);
    forall x | x in s ensures key(x) in ks {
      assert x in FilterKey(s, key, key(x));
    }
    GatherIsPermutation(s, key, ks);
  }

  lemma {:induction false} FlattenIsGather<T(!new), K>(s: seq<T>, key: T -> K, ks: seq<K>)
    requires forall k :: k in ks ==> k in GroupByKey(s, key)
    ensures Flatten(GroupByKey(s, key), ks) == Gather(s, key, ks)
  {
    if ks != [] {
      GroupByKeyIsFilter(s, key);
      FlattenIsGather(s, key, ks[1..]);
    }
  }
}
