/**
 * Ruby hashes keep insertion order. An ordered hash is modelled as a sequence
 * of key/value pairs; the hashes the program builds have unique keys.
 */
module OrderedHash {
  import opened Wrappers

  function Keys<K, V>(h: seq<(K, V)>): (ks: seq<K>)
    ensures |ks| == |h|
    ensures forall i {:trigger ks[i]} :: 0 <= i < |h| ==> ks[i] == h[i].0
  {
    if h == [] then [] else [h[0].0] + Keys(h[1..])
  }

  predicate UniqueKeys<K(==), V>(h: seq<(K, V)>) {
    forall i, j :: 0 <= i < j < |h| ==> h[i].0 != h[j].0
  }

  /** `h[k]`: the value stored under `k`, or None (Ruby's nil) when `k` is absent. */
  function Lookup<K(==), V>(h: seq<(K, V)>, k: K): (r: Option<V>)
    ensures r.None? <==> k !in Keys(h)
    ensures r.Some? ==> exists i :: 0 <= i < |h| && h[i] == (k, r.value)
  {
    if h == [] then None
    else if h[0].0 == k then Some(h[0].1)
    else Lookup(h[1..], k)
  }

  /** `h[k] = v`: replaces the value in place when `k` is present, appends otherwise. */
  function Put<K(==), V>(h: seq<(K, V)>, k: K, v: V): (r: seq<(K, V)>)
    ensures Keys(r) == if k in Keys(h) then Keys(h) else Keys(h) + [k]
  {
    if h == [] then [(k, v)]
    else if h[0].0 == k then [(k, v)] + h[1..]
    else [h[0]] + Put(h[1..], k, v)
  }

  /** `a.merge(b)`: every pair of `b` is put into `a`, in `b`'s order. */
  function Merge<K(==), V>(a: seq<(K, V)>, b: seq<(K, V)>): seq<(K, V)>
    decreases |b|
  {
    if b == [] then a else Merge(Put(a, b[0].0, b[0].1), b[1..])
  }

  lemma UniqueKeysTail<K, V>(h: seq<(K, V)>)
    requires h != [] && UniqueKeys(h)
    ensures UniqueKeys(h[1..]) && h[0].0 !in Keys(h[1..])
  {
  }

  lemma {:induction false} PutLookup<K, V>(h: seq<(K, V)>, k: K, v: V, k': K)
    ensures Lookup(Put(h, k, v), k') == if k' == k then Some(v) else Lookup(h, k')
  {
    if h != [] && h[0].0 != k {
      PutLookup(h[1..], k, v, k');
    }
  }

  lemma ConsUnique<K, V>(x: (K, V), t: seq<(K, V)>)
    requires UniqueKeys(t) && x.0 !in Keys(t)
    ensures UniqueKeys([x] + t)
  {
    var r := [x] + t;
    forall i, j | 0 <= i < j < |r| ensures r[i].0 != r[j].0 {
      if i == 0 {
        assert Keys(t)[j - 1] == t[j - 1].0;
      }
    }
  }

  lemma {:induction false} PutUnique<K, V>(h: seq<(K, V)>, k: K, v: V)
    requires UniqueKeys(h)
    ensures UniqueKeys(Put(h, k, v))
  {
    if h != [] {
      UniqueKeysTail(h);
      if h[0].0 == k {
        ConsUnique((k, v), h[1..]);
      } else {
        PutUnique(h[1..], k, v);
        ConsUnique(h[0], Put(h[1..], k, v));
      }
    }
  }

  /** A later pair of `b` overrides `a`; keys only `a` holds keep their value. */
  lemma {:induction false} MergeLookup<K, V>(a: seq<(K, V)>, b: seq<(K, V)>, k: K)
    requires UniqueKeys(b)
    ensures Lookup(Merge(a, b), k) == if k in Keys(b) then Lookup(b, k) else Lookup(a, k)
    decreases |b|
  {
    if b != [] {
      UniqueKeysTail(b);
      MergeLookup(Put(a, b[0].0, b[0].1), b[1..], k);
      PutLookup(a, b[0].0, b[0].1, k);
    }
  }

  lemma {:induction false} MergeUnique<K, V>(a: seq<(K, V)>, b: seq<(K, V)>)
    requires UniqueKeys(a)
    ensures UniqueKeys(Merge(a, b))
    decreases |b|
  {
    if b != [] {
      PutUnique(a, b[0].0, b[0].1);
      MergeUnique(Put(a, b[0].0, b[0].1), b[1..]);
    }
  }

  /** Merging never reorders or drops the receiver's keys: they stay a prefix. */
  lemma {:induction false} MergeKeysPrefix<K, V>(a: seq<(K, V)>, b: seq<(K, V)>)
    ensures |Keys(a)| <= |Keys(Merge(a, b))|
    ensures Keys(Merge(a, b))[..|a|] == Keys(a)
    decreases |b|
  {
    if b != [] {
      var a' := Put(a, b[0].0, b[0].1);
      MergeKeysPrefix(a', b[1..]);
      assert Keys(a')[..|a|] == Keys(a);
      assert Keys(Merge(a', b[1..]))[..|a|] == Keys(Merge(a', b[1..]))[..|a'|][..|a|];
    }
  }

  lemma {:induction false} PutAbsent<K, V>(h: seq<(K, V)>, k: K, v: V)
    requires k !in Keys(h)
    ensures Put(h, k, v) == h + [(k, v)]
  {
    if h != [] {
      assert Keys(h) == [h[0].0] + Keys(h[1..]);
      PutAbsent(h[1..], k, v);
    }
  }
}
