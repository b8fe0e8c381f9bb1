/**
 * Counting equal keys, the way the dashboard's two charts aggregate the mood
 * table: `value_counts()` on the mood column of today's rows and
 * `groupby(['date', 'mood']).size()` over all rows. A tally is a sequence of
 * buckets, one per distinct key, in order of first occurrence.
 */
module Counting {

  datatype Bucket<K> = Bucket(key: K, count: nat)

  /** The keys of a tally. */
  function KeySet<K>(r: seq<Bucket<K>>): (keys: set<K>)
    ensures forall i :: 0 <= i < |r| ==> r[i].key in keys
  {
    set i | 0 <= i < |r| :: r[i].key
  }

  /** No key has two buckets. */
  predicate DistinctKeys<K(==)>(r: seq<Bucket<K>>) {
    forall i, j :: 0 <= i < j < |r| ==> r[i].key != r[j].key
  }

  /** The sum of all the counts of a tally. */
  function Total<K>(r: seq<Bucket<K>>): (n: nat)
    ensures forall i :: 0 <= i < |r| ==> r[i].count <= n
  {
    if r == [] then 0 else r[0].count + Total(r[1..])
  }

  /** Adds one occurrence of `k`: the first bucket for `k` goes up by one, or a new bucket is opened at the end. */
  function Bump<K(==)>(r: seq<Bucket<K>>, k: K): (b: seq<Bucket<K>>)
    ensures |r| <= |b| <= |r| + 1
  {
    if r == [] then [Bucket(k, 1)]
    else if r[0].key == k then [Bucket(k, r[0].count + 1)] + r[1..]
    else [r[0]] + Bump(r[1..], k)
  }

  /** The tally of a sequence of keys. */
  function Tally<K(==)>(keys: seq<K>): (r: seq<Bucket<K>>)
    ensures |r| <= |keys|
    ensures keys != [] ==> r != []
  {
    if keys == [] then [] else Bump(Tally(keys[..|keys| - 1]), keys[|keys| - 1])
  }

  /** `Bump` keeps every bucket in place, adds one to the bucket of `k`, and opens a bucket for `k` only when there was none. */
  lemma {:induction false} BumpShape<K>(r: seq<Bucket<K>>, k: K)
    requires DistinctKeys(r)
    ensures var b := Bump(r, k);
      && |b| == (if k in KeySet(r) then |r| else |r| + 1)
      && (forall i :: 0 <= i < |r| ==>
            b[i].key == r[i].key && b[i].count == r[i].count + (if r[i].key == k then 1 else 0))
      && (k !in KeySet(r) ==> b[|r|] == Bucket(k, 1))
  {
    if r != [] && r[0].key != k {
      var rest := r[1..];
      BumpShape(rest, k);
      assert k in KeySet(r) <==> k in KeySet(rest) by {
        if k in KeySet(r) {
          var i :| 0 <= i < |r| && r[i].key == k;
          assert rest[i - 1].key == k;
        }
        if k in KeySet(rest) {
          var i :| 0 <= i < |rest| && rest[i].key == k;
          assert r[i + 1].key == k;
        }
      }
    } else if r != [] {
      assert r[0].key in KeySet(r);
    }
  }

  /** `Bump` adds exactly one to the total. */
  lemma {:induction false} BumpTotal<K>(r: seq<Bucket<K>>, k: K)
    ensures Total(Bump(r, k)) == Total(r) + 1
  {
    if r == [] {
      assert Bump(r, k)[1..] == [];
    } else if r[0].key == k {
      assert Bump(r, k)[1..] == r[1..];
    } else {
      assert Bump(r, k)[1..] == Bump(r[1..], k);
      BumpTotal(r[1..], k);
    }
  }

  /** A `Bump` of a tally with distinct keys has distinct keys, and gains `k` as a key. */
  lemma BumpKeys<K>(r: seq<Bucket<K>>, k: K)
    requires DistinctKeys(r)
    ensures DistinctKeys(Bump(r, k))
    ensures KeySet(Bump(r, k)) == KeySet(r) + {k}
  {
    var b := Bump(r, k);
    BumpShape(r, k);
    forall x | x in KeySet(b) ensures x in KeySet(r) + {k} {
      var i :| 0 <= i < |b| && b[i].key == x;
      if i < |r| { assert r[i].key == x; }
    }
    forall x | x in KeySet(r) + {k} ensures x in KeySet(b) {
      if x in KeySet(r) {
        var i :| 0 <= i < |r| && r[i].key == x;
        assert b[i].key == x;
      } else {
        assert b[|r|].key == x;
      }
    }
  }

  /** A tally has one bucket per distinct key of its input and no other. */
  lemma {:induction false} TallyKeys<K>(keys: seq<K>)
    ensures DistinctKeys(Tally(keys))
    ensures KeySet(Tally(keys)) == set x | x in keys
  {
    if keys != [] {
      var init, k := keys[..|keys| - 1], keys[|keys| - 1];
      assert keys == init + [k];
      TallyKeys(init);
      BumpKeys(Tally(init), k);
      assert (set x | x in keys) == (set x | x in init) + {k};
    }
  }

  /** Each bucket of a tally counts exactly the occurrences of its key, and no count is zero. */
  lemma {:induction false} TallyCounts<K>(keys: seq<K>)
    ensures forall i :: 0 <= i < |Tally(keys)| ==> Tally(keys)[i].count == multiset(keys)[Tally(keys)[i].key] > 0
  {
    if keys != [] {
      var init, k := keys[..|keys| - 1], keys[|keys| - 1];
      assert keys == init + [k];
      TallyCounts(init);
      TallyKeys(init);
      var t := Tally(init);
      BumpShape(t, k);
      var r := Tally(keys);
      assert r == Bump(t, k);
      assert multiset(keys) == multiset(init) + multiset{k};
      forall i | 0 <= i < |r| ensures r[i].count == multiset(keys)[r[i].key] > 0 {
        if i < |t| {
          assert r[i].count == t[i].count + (if t[i].key == k then 1 else 0);
        } else {
          assert k !in init;
        }
      }
    }
  }

  /** The counts of a tally add up to the number of keys counted. */
  lemma {:induction false} TallyTotal<K>(keys: seq<K>)
    ensures Total(Tally(keys)) == |keys|
  {
    if keys != [] {
      TallyTotal(keys[..|keys| - 1]);
      BumpTotal(Tally(keys[..|keys| - 1]), keys[|keys| - 1]);
    }
  }

  /** Keys a, a, b with a and b distinct tally as a twice, then b once. */
  lemma TallyTwoThenOne<K>(a: K, b: K)
    requires a != b
    ensures Tally([a, a, b]) == [Bucket(a, 2), Bucket(b, 1)]
  {
    var ks := [a, a, b];
    assert ks[..2] == [a, a] && ks[..2][..1] == [a] && [a][..0] == ks[..0];
    assert Tally([a]) == [Bucket(a, 1)];
    assert Tally([a, a]) == [Bucket(a, 2)];
    assert Tally(ks) == Bump([Bucket(a, 2)], b);
    assert Bump([Bucket(a, 2)], b) == [Bucket(a, 2)] + Bump([], b);
  }
}
