/**
 * The bounded memo behind `functools.lru_cache(maxsize=n)`: entries are kept
 * from least to most recently used; a hit moves its entry to the end, and a
 * miss whose result is stored first drops the oldest entry once the cache
 * holds `maxsize` of them.
 */
module Lru {
  import opened Base
  import opened Dicts

  datatype Cache<K, V> = Cache(entries: seq<(K, V)>, maxsize: nat)

  /** A cache holds each key once and never more than `maxsize` entries. */
  predicate Valid<K(==, !new), V>(c: Cache<K, V>) {
    0 < c.maxsize && |c.entries| <= c.maxsize && Distinct(Keys(c.entries))
  }

  /** The empty cache of a freshly decorated function. */
  function Empty<K(==, !new), V>(maxsize: nat): (c: Cache<K, V>)
    requires 0 < maxsize
    ensures Valid(c) && c.entries == []
  {
    Cache([], maxsize)
  }

  /** The memoised result for `k`, if any. */
  function Find<K(==, !new), V>(c: Cache<K, V>, k: K): (r: Option<V>)
    ensures r.Some? <==> k in Keys(c.entries)
  {
    Lookup(c.entries, k)
  }

  /** The entries without the one for `k`. */
  function Remove<K(==, !new), V>(d: seq<(K, V)>, k: K): (r: seq<(K, V)>)
    ensures k !in Keys(r)
    ensures forall k' :: k' != k ==> Lookup(r, k') == Lookup(d, k')
    ensures forall k' :: k' in Keys(r) ==> k' in Keys(d)
  {
    if d == [] then []
    else if d[0].0 == k then Remove(d[1..], k)
    else [d[0]] + Remove(d[1..], k)
  }

  lemma {:induction false} RemoveDistinct<K(!new), V>(d: seq<(K, V)>, k: K)
    requires Distinct(Keys(d))
    ensures Distinct(Keys(Remove(d, k)))
    ensures |Remove(d, k)| == if k in Keys(d) then |d| - 1 else |d|
  {
    if d != [] {
      DistinctTail(d);
      assert Keys(d) == [d[0].0] + Keys(d[1..]);
      RemoveDistinct(d[1..], k);
      var r := Remove(d[1..], k);
      if d[0].0 != k {
        assert d[0].0 !in Keys(r);
        KeysAppend([d[0]], r);
        assert Keys([d[0]]) == [d[0].0];
        forall i, j | 0 <= i < j < |Keys([d[0]] + r)|
          ensures Keys([d[0]] + r)[i] != Keys([d[0]] + r)[j]
        {
          assert Keys([d[0]] + r)[j] == Keys(r)[j - 1];
          if i > 0 {
            assert Keys([d[0]] + r)[i] == Keys(r)[i - 1];
          }
        }
      } else {
        RemoveAbsentIdentity(d[1..], k);
      }
    }
  }

  lemma {:induction false} RemoveAbsentIdentity<K(!new), V>(d: seq<(K, V)>, k: K)
    requires k !in Keys(d)
    ensures Remove(d, k) == d
  {
    if d != [] {
      assert Keys(d) == [d[0].0] + Keys(d[1..]);
      RemoveAbsentIdentity(d[1..], k);
    }
  }

  /** A hit: the entry for `k` becomes the most recently used one. */
  function Touch<K(==, !new), V>(c: Cache<K, V>, k: K): Cache<K, V> {
    match Find(c, k)
    case None => c
    case Some(v) => Cache(Remove(c.entries, k) + [(k, v)], c.maxsize)
  }

  /**
   * A miss whose result is kept: a full cache first forgets its least recently
   * used entry. A key that is already present is left alone.
   */
  function Insert<K(==, !new), V>(c: Cache<K, V>, k: K, v: V): Cache<K, V> {
    if k in Keys(c.entries) then c
    else if |c.entries| >= c.maxsize && c.entries != [] then Cache(c.entries[1..] + [(k, v)], c.maxsize)
    else Cache(c.entries + [(k, v)], c.maxsize)
  }

  lemma DistinctSnoc<K(!new), V>(d: seq<(K, V)>, x: (K, V))
    requires Distinct(Keys(d)) && x.0 !in Keys(d)
    ensures Distinct(Keys(d + [x]))
  {
    KeysAppend(d, [x]);
    assert Keys([x]) == [x.0];
  }

  lemma DistinctTail<K(!new), V>(d: seq<(K, V)>)
    requires Distinct(Keys(d)) && d != []
    ensures Distinct(Keys(d[1..]))
    ensures forall k :: k in Keys(d[1..]) ==> k in Keys(d) && k != d[0].0
  {
    assert d == [d[0]] + d[1..];
    KeysAppend([d[0]], d[1..]);
    assert Keys([d[0]]) == [d[0].0];
    DistinctPrefix([d[0].0], Keys(d[1..]));
    forall k | k in Keys(d[1..])
      ensures k in Keys(d) && k != d[0].0
    {
      var i :| 0 <= i < |Keys(d[1..])| && Keys(d[1..])[i] == k;
      assert Keys(d)[i + 1] == k;
      assert Keys(d)[0] == d[0].0;
    }
  }

  /** A hit keeps the cache valid and changes no memoised result. */
  lemma TouchValid<K(!new), V>(c: Cache<K, V>, k: K)
    requires Valid(c)
    ensures Valid(Touch(c, k))
    ensures forall k' :: Find(Touch(c, k), k') == Find(c, k')
    ensures k in Keys(c.entries) ==> Touch(c, k).entries[|Touch(c, k).entries| - 1].0 == k
  {
    if k in Keys(c.entries) {
      var r := Remove(c.entries, k);
      RemoveDistinct(c.entries, k);
      DistinctSnoc(r, (k, c.entries[0].1));
      var v := Find(c, k).value;
      DistinctSnoc(r, (k, v));
      forall k' ensures Find(Touch(c, k), k') == Find(c, k') {
        LookupAppend(r, [(k, v)], k');
      }
    }
  }

  /** A stored miss keeps the cache valid and answers `k` with `v` from then on. */
  lemma InsertValid<K(!new), V>(c: Cache<K, V>, k: K, v: V)
    requires Valid(c) && k !in Keys(c.entries)
    ensures Valid(Insert(c, k, v))
    ensures Find(Insert(c, k, v), k) == Some(v)
    ensures |Insert(c, k, v).entries| == if |c.entries| == c.maxsize then c.maxsize else |c.entries| + 1
  {
    var d := c.entries;
    if |d| >= c.maxsize && d != [] {
      DistinctTail(d);
      DistinctSnoc(d[1..], (k, v));
      LookupAppend(d[1..], [(k, v)], k);
    } else {
      DistinctSnoc(d, (k, v));
      LookupAppend(d, [(k, v)], k);
    }
  }

  /**
   * Storing a miss forgets exactly the least recently used entry when the cache
   * is full, and nothing when it is not.
   */
  lemma InsertEvictsOldest<K(!new), V>(c: Cache<K, V>, k: K, v: V, k': K)
    requires Valid(c) && k !in Keys(c.entries) && k' != k
    ensures Find(Insert(c, k, v), k') ==
      if |c.entries| == c.maxsize && k' == c.entries[0].0 then None else Find(c, k')
  {
    var d := c.entries;
    if |d| >= c.maxsize && d != [] {
      DistinctTail(d);
      LookupAppend(d[1..], [(k, v)], k');
      assert Keys([(k, v)]) == [k];
      assert d == [d[0]] + d[1..];
      LookupAppend([d[0]], d[1..], k');
      assert Keys([d[0]]) == [d[0].0];
    } else {
      LookupAppend(d, [(k, v)], k');
      assert Keys([(k, v)]) == [k];
    }
  }
}
