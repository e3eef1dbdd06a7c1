/**
 * Python dictionaries as insertion-ordered sequences of pairs.
 *
 * A Python `dict` remembers the order in which its keys were first inserted;
 * assigning to an existing key replaces the value in place. A dict display
 * `{k1: v1, k2: v2, **d, ...}` inserts its entries from left to right, so a key
 * written twice keeps the position of its first occurrence and the value of
 * its last one. `Put` is one assignment `d[k] = v`; `FromPairs` is a display.
 */
module Dicts {
  import opened Base

  type Dict<K, V> = seq<(K, V)>

  /** `list(d.keys())` */
  function Keys<K, V>(d: seq<(K, V)>): (ks: seq<K>)
    ensures |ks| == |d|
  {
    if d == [] then [] else [d[0].0] + Keys(d[1..])
  }

  /** `list(d.values())` */
  function Values<K, V>(d: seq<(K, V)>): (vs: seq<V>)
    ensures |vs| == |d|
  {
    if d == [] then [] else [d[0].1] + Values(d[1..])
  }

  predicate Distinct<K(==, !new)>(ks: seq<K>) {
    forall i, j :: 0 <= i < j < |ks| ==> ks[i] != ks[j]
  }

  /** Two duplicate-free sequences with no common element concatenate to a duplicate-free one. */
  lemma DistinctConcat<K(!new)>(a: seq<K>, b: seq<K>)
    requires Distinct(a) && Distinct(b)
    requires forall x :: x in a ==> x !in b
    ensures Distinct(a + b)
  {
    var ab := a + b;
    forall i, j | 0 <= i < j < |ab| ensures ab[i] != ab[j] {
      if j >= |a| && i < |a| {
        assert ab[i] == a[i] && ab[j] == b[j - |a|] && a[i] in a;
      } else if i >= |a| {
        assert ab[i] == b[i - |a|] && ab[j] == b[j - |a|];
      } else {
        assert ab[i] == a[i] && ab[j] == a[j];
      }
    }
  }

  lemma {:induction false} KeysAt<K, V>(d: seq<(K, V)>)
    ensures |Keys(d)| == |d|
    ensures forall i :: 0 <= i < |d| ==> Keys(d)[i] == d[i].0
  {
    if d != [] {
      KeysAt(d[1..]);
    }
  }

  lemma {:induction false} KeysAppend<K, V>(d: seq<(K, V)>, e: seq<(K, V)>)
    ensures Keys(d + e) == Keys(d) + Keys(e)
  {
    if d != [] {
      assert (d + e)[1..] == d[1..] + e;
      KeysAppend(d[1..], e);
    } else {
      assert d + e == e;
    }
  }

  lemma KeysPrefix<K, V>(d: seq<(K, V)>, n: nat)
    requires n <= |d|
    ensures Keys(d[..n]) == Keys(d)[..n]
  {
    KeysAt(d);
    KeysAt(d[..n]);
  }

  /** `d[k]` when `k in d`, None otherwise. */
  function Lookup<K(==, !new), V>(d: seq<(K, V)>, k: K): (r: Option<V>)
    ensures r.Some? <==> k in Keys(d)
  {
    if d == [] then None
    else if d[0].0 == k then Some(d[0].1)
    else Lookup(d[1..], k)
  }

  /** `d[k] = v`: an existing key keeps its position and takes the new value, a new key goes last. */
  function Put<K(==, !new), V>(d: seq<(K, V)>, k: K, v: V): (r: seq<(K, V)>)
    ensures Lookup(r, k) == Some(v)
    ensures forall k' :: k' != k ==> Lookup(r, k') == Lookup(d, k')
  {
    if d == [] then [(k, v)]
    else if d[0].0 == k then
      var r := [(k, v)] + d[1..];
      assert r[1..] == d[1..];
      r
    else
      var rest := Put(d[1..], k, v);
      var r := [d[0]] + rest;
      assert r[1..] == rest;
      r
  }

  /** Assigning keeps the key order, and appends the key when it is new. */
  lemma {:induction false} PutKeys<K(!new), V>(d: seq<(K, V)>, k: K, v: V)
    ensures Keys(Put(d, k, v)) == if k in Keys(d) then Keys(d) else Keys(d) + [k]
  {
    if d != [] && d[0].0 != k {
      PutKeys(d[1..], k, v);
      var rest := Put(d[1..], k, v);
      assert ([d[0]] + rest)[1..] == rest;
    } else if d != [] {
      assert ([(k, v)] + d[1..])[1..] == d[1..];
    }
  }

  /** Assigning to a key that is absent appends the pair. */
  lemma {:induction false} PutAbsent<K(!new), V>(d: seq<(K, V)>, k: K, v: V)
    requires k !in Keys(d)
    ensures Put(d, k, v) == d + [(k, v)]
  {
    if d != [] {
      PutAbsent(d[1..], k, v);
      assert [d[0]] + (d[1..] + [(k, v)]) == d + [(k, v)];
    }
  }

  /** Assigning to a key first found at index i replaces that one pair. */
  lemma {:induction false} PutPresent<K(!new), V>(d: seq<(K, V)>, i: nat, v: V)
    requires i < |d|
    requires forall j :: 0 <= j < i ==> d[j].0 != d[i].0
    ensures Put(d, d[i].0, v) == d[i := (d[i].0, v)]
  {
    if i == 0 {
      assert [(d[0].0, v)] + d[1..] == d[0 := (d[0].0, v)];
    } else {
      var t := d[1..];
      assert t[i - 1] == d[i];
      PutPresent(t, i - 1, v);
      assert [d[0]] + t[i - 1 := (d[i].0, v)] == d[i := (d[i].0, v)];
    }
  }

  lemma PutKeepsDistinct<K(!new), V>(d: seq<(K, V)>, k: K, v: V)
    requires Distinct(Keys(d))
    ensures Distinct(Keys(Put(d, k, v)))
  {
    PutKeys(d, k, v);
  }

  /** The dict built by a display whose entries are p, in order. */
  function FromPairs<K(==, !new), V>(p: seq<(K, V)>): (d: seq<(K, V)>)
    ensures Distinct(Keys(d))
    decreases |p|
  {
    if p == [] then []
    else
      var init := FromPairs(p[..|p| - 1]);
      PutKeepsDistinct(init, p[|p| - 1].0, p[|p| - 1].1);
      Put(init, p[|p| - 1].0, p[|p| - 1].1)
  }

  /** Evaluating a display is extending the dict one entry at a time. */
  lemma FromPairsSnoc<K(!new), V>(p: seq<(K, V)>, x: (K, V))
    ensures FromPairs(p + [x]) == Put(FromPairs(p), x.0, x.1)
  {
    assert (p + [x])[..|p|] == p;
  }

  /** A key written in a display takes the value of its LAST occurrence. */
  lemma {:induction false} LookupFromPairs<K(!new), V>(p: seq<(K, V)>, i: nat)
    requires i < |p|
    requires forall j :: i < j < |p| ==> p[j].0 != p[i].0
    ensures Lookup(FromPairs(p), p[i].0) == Some(p[i].1)
    decreases |p|
  {
    var n := |p| - 1;
    if i < n {
      var q := p[..n];
      assert q[i] == p[i];
      LookupFromPairs(q, i);
    }
  }

  /** A key that a display never writes is absent from the dict. */
  lemma {:induction false} LookupFromPairsAbsent<K(!new), V>(p: seq<(K, V)>, k: K)
    requires k !in Keys(p)
    ensures Lookup(FromPairs(p), k) == None
    decreases |p|
  {
    if p != [] {
      var n := |p| - 1;
      KeysPrefix(p, n);
      KeysAt(p);
      assert Keys(p) == Keys(p)[..n] + [Keys(p)[n]];
      LookupFromPairsAbsent(p[..n], k);
    }
  }

  /** The keys of a list in the order of their first occurrence. */
  function Dedup<K(==, !new)>(ks: seq<K>): seq<K> {
    if ks == [] then []
    else
      var init := Dedup(ks[..|ks| - 1]);
      if ks[|ks| - 1] in init then init else init + [ks[|ks| - 1]]
  }

  lemma {:induction false} DedupMembers<K(!new)>(ks: seq<K>)
    ensures forall k :: k in Dedup(ks) <==> k in ks
  {
    if ks != [] {
      DedupMembers(ks[..|ks| - 1]);
      assert ks == ks[..|ks| - 1] + [ks[|ks| - 1]];
    }
  }

  /** A key written twice in a display keeps the position of its FIRST occurrence. */
  lemma {:induction false} KeysFromPairs<K(!new), V>(p: seq<(K, V)>)
    ensures Keys(FromPairs(p)) == Dedup(Keys(p))
    decreases |p|
  {
    if p != [] {
      var n := |p| - 1;
      KeysFromPairs(p[..n]);
      KeysPrefix(p, n);
      KeysAt(p);
      DedupMembers(Keys(p[..n]));
      PutKeys(FromPairs(p[..n]), p[n].0, p[n].1);
    }
  }

  /** A display with distinct keys is exactly its list of entries. */
  lemma {:induction false} FromPairsDistinct<K(!new), V>(p: seq<(K, V)>)
    requires Distinct(Keys(p))
    ensures FromPairs(p) == p
    decreases |p|
  {
    if p != [] {
      var n := |p| - 1;
      KeysPrefix(p, n);
      KeysAt(p);
      FromPairsDistinct(p[..n]);
      assert p[n].0 !in Keys(p[..n]) by {
        KeysAt(p[..n]);
      }
      PutAbsent(p[..n], p[n].0, p[n].1);
      assert p[..n] + [p[n]] == p;
    }
  }

  /** A dict without repeated keys answers each of its keys with the value stored there. */
  lemma {:induction false} LookupDistinctAt<K(!new), V>(d: seq<(K, V)>, i: nat)
    requires Distinct(Keys(d)) && i < |d|
    ensures Lookup(d, d[i].0) == Some(d[i].1)
  {
    KeysAt(d);
    if i > 0 {
      KeysAt(d[1..]);
      assert d[1..][i - 1] == d[i];
      LookupDistinctAt(d[1..], i - 1);
    }
  }

  /** Looking a key up in two dicts written one after the other: the first one wins. */
  lemma {:induction false} LookupAppend<K(!new), V>(a: seq<(K, V)>, b: seq<(K, V)>, k: K)
    ensures Lookup(a + b, k) == if k in Keys(a) then Lookup(a, k) else Lookup(b, k)
  {
    if a != [] {
      assert (a + b)[1..] == a[1..] + b;
      LookupAppend(a[1..], b, k);
    } else {
      assert a + b == b;
    }
  }

  lemma DistinctPrefix<K(!new)>(a: seq<K>, b: seq<K>)
    requires Distinct(a + b)
    ensures Distinct(a) && Distinct(b)
  {
    assert forall i :: 0 <= i < |a| ==> a[i] == (a + b)[i];
    assert forall i :: 0 <= i < |b| ==> b[i] == (a + b)[|a| + i];
  }

  /** Replacing the value of an entry keeps the key list. */
  lemma {:induction false} KeysUpdate<K, V>(d: seq<(K, V)>, i: nat, x: (K, V))
    requires i < |d| && x.0 == d[i].0
    ensures Keys(d[i := x]) == Keys(d)
  {
    KeysAt(d);
    KeysAt(d[i := x]);
  }

  /** Entries with other keys in front of the wanted one do not change the answer. */
  lemma {:induction false} LookupSkip<K(!new), V>(d: seq<(K, V)>, n: nat, k: K)
    requires n <= |d| && forall i :: 0 <= i < n ==> d[i].0 != k
    ensures Lookup(d, k) == Lookup(d[n..], k)
  {
    if n > 0 {
      assert d[1..][n - 1..] == d[n..];
      LookupSkip(d[1..], n - 1, k);
    }
  }

  /** The first entry with the wanted key answers. */
  lemma LookupFirst<K(!new), V>(d: seq<(K, V)>, n: nat, k: K)
    requires n < |d| && d[n].0 == k && forall i :: 0 <= i < n ==> d[i].0 != k
    ensures Lookup(d, k) == Some(d[n].1)
  {
    LookupSkip(d, n, k);
    assert d[n..][0] == d[n];
  }

  /** Replacing the value of the entry at i changes the lookup of that key only. */
  lemma LookupUpdate<K(!new), V>(d: seq<(K, V)>, i: nat, x: (K, V), k: K)
    requires Distinct(Keys(d)) && i < |d| && d[i].0 == x.0
    ensures Distinct(Keys(d[i := x]))
    ensures Lookup(d[i := x], k) == if k == x.0 then Some(x.1) else Lookup(d, k)
  {
    KeysAt(d);
    KeysUpdate(d, i, x);
    assert forall j :: 0 <= j < i ==> d[j].0 != d[i].0 by {
      forall j | 0 <= j < i ensures d[j].0 != d[i].0 {
        assert Keys(d)[j] != Keys(d)[i];
      }
    }
    PutPresent(d, i, x.1);
  }

  /** Three value replacements in a dict with distinct keys, looked up. */
  lemma LookupUpdate3<K(!new), V>(d: seq<(K, V)>, i: nat, x: (K, V), j: nat, y: (K, V), l: nat, w: (K, V), k: K)
    requires Distinct(Keys(d))
    requires i < |d| && d[i].0 == x.0
    requires j < |d| && d[j].0 == y.0
    requires l < |d| && d[l].0 == w.0
    ensures Keys(d[i := x][j := y][l := w]) == Keys(d)
    ensures Lookup(d[i := x][j := y][l := w], k)
      == if k == w.0 then Some(w.1) else if k == y.0 then Some(y.1) else if k == x.0 then Some(x.1) else Lookup(d, k)
  {
    KeysUpdate(d, i, x);
    KeysUpdate(d[i := x], j, y);
    KeysUpdate(d[i := x][j := y], l, w);
    LookupUpdate(d, i, x, k);
    LookupUpdate(d[i := x], j, y, k);
    LookupUpdate(d[i := x][j := y], l, w, k);
  }

  /** Assigning the entries of q one after another, as `d.update(q)` does. */
  function PutAll<K(==, !new), V>(d: seq<(K, V)>, q: seq<(K, V)>): seq<(K, V)>
    decreases |q|
  {
    if q == [] then d else PutAll(Put(d, q[0].0, q[0].1), q[1..])
  }

  /** A display that extends another one continues from the dict the first part built. */
  lemma {:induction false} FromPairsAppend<K(!new), V>(p: seq<(K, V)>, q: seq<(K, V)>)
    ensures FromPairs(p + q) == PutAll(FromPairs(p), q)
    decreases |q|
  {
    if q == [] {
      assert p + q == p;
    } else {
      assert p + q == (p + [q[0]]) + q[1..];
      FromPairsAppend(p + [q[0]], q[1..]);
      FromPairsSnoc(p, q[0]);
    }
  }

  /** The first of a run of new keys is appended, and the rest are still new. */
  lemma PutFreshFirst<K(!new), V>(d: seq<(K, V)>, q: seq<(K, V)>)
    requires Distinct(Keys(d + q)) && q != []
    ensures Put(d, q[0].0, q[0].1) == d + [q[0]]
    ensures d + q == (d + [q[0]]) + q[1..]
  {
    KeysAppend(d, q);
    FreshAfter(Keys(d), Keys(q));
    PutAbsent(d, q[0].0, q[0].1);
    MoveHead(d, q);
  }

  /** In a duplicate-free concatenation, the first element of the second part is not in the first. */
  lemma FreshAfter<K(!new)>(a: seq<K>, b: seq<K>)
    requires Distinct(a + b) && b != []
    ensures b[0] !in a
  {
    forall j | 0 <= j < |a| ensures a[j] != b[0] {
      assert (a + b)[j] == a[j];
      assert (a + b)[|a|] == b[0];
    }
  }

  lemma MoveHead<X>(a: seq<X>, b: seq<X>)
    requires b != []
    ensures a + b == (a + [b[0]]) + b[1..]
  {
    assert b == [b[0]] + b[1..];
  }

  /** Assigning keys that are all new appends them in order. */
  lemma {:induction false} PutAllFresh<K(!new), V>(d: seq<(K, V)>, q: seq<(K, V)>)
    requires Distinct(Keys(d + q))
    ensures PutAll(d, q) == d + q
    decreases |q|
  {
    if q != [] {
      PutFreshFirst(d, q);
      PutAllFresh(d + [q[0]], q[1..]);
    }
  }

  /** A display whose later entries all carry new keys is the dict of its first part followed by them. */
  lemma FromPairsExtend<K(!new), V>(p: seq<(K, V)>, q: seq<(K, V)>)
    requires Distinct(Keys(FromPairs(p) + q))
    ensures FromPairs(p + q) == FromPairs(p) + q
  {
    FromPairsAppend(p, q);
    PutAllFresh(FromPairs(p), q);
  }

  /** A display entry whose key was written before replaces the value in place. */
  lemma FromPairsOverride<K(!new), V>(p: seq<(K, V)>, x: (K, V), i: nat)
    requires i < |FromPairs(p)| && FromPairs(p)[i].0 == x.0
    ensures FromPairs(p + [x]) == FromPairs(p)[i := x]
  {
    var d := FromPairs(p);
    KeysAt(d);
    FromPairsSnoc(p, x);
    PutPresent(d, i, x.1);
  }

  /** A display entry that repeats an entry already in the dict changes nothing. */
  lemma FromPairsRepeat<K(!new), V>(p: seq<(K, V)>, x: (K, V), q: seq<(K, V)>)
    requires x in FromPairs(p)
    ensures FromPairs(p + [x] + q) == FromPairs(p + q)
  {
    var d := FromPairs(p);
    var i :| 0 <= i < |d| && d[i] == x;
    FromPairsOverride(p, x, i);
    assert d[i := x] == d;
    FromPairsAppend(p + [x], q);
    FromPairsAppend(p, q);
  }

  /** An entry repeating one of a display with distinct keys changes nothing. */
  lemma FromPairsRepeatDistinct<K(!new), V>(p: seq<(K, V)>, x: (K, V), q: seq<(K, V)>)
    requires Distinct(Keys(p + q))
    requires x in p
    ensures FromPairs(p + [x] + q) == p + q
  {
    KeysAppend(p, q);
    DistinctPrefix(Keys(p), Keys(q));
    FromPairsDistinct(p);
    FromPairsRepeat(p, x, q);
    FromPairsDistinct(p + q);
  }

  /** The groupings `FromPairsRepeatTwice` moves between. */
  lemma RegroupTwo<X>(a: seq<X>, x: X, e: seq<X>, y: X, t: seq<X>)
    ensures a + e + t == a + (e + t)
    ensures a + [x] + e + [y] + t == a + [x] + (e + [y] + t)
    ensures a + (e + [y] + t) == (a + e) + [y] + t
  {
  }

  /** The front of a display with distinct keys is already merged. */
  lemma FromPairsDistinctFront<K(!new), V>(a: seq<(K, V)>, b: seq<(K, V)>)
    requires Distinct(Keys(a + b))
    ensures FromPairs(a) == a
  {
    KeysAppend(a, b);
    DistinctPrefix(Keys(a), Keys(b));
    FromPairsDistinct(a);
  }

  /** Two entries repeating earlier ones of a display with distinct keys change nothing. */
  lemma FromPairsRepeatTwice<K(!new), V>(a: seq<(K, V)>, x: (K, V), e: seq<(K, V)>, y: (K, V), t: seq<(K, V)>)
    requires Distinct(Keys(a + e + t))
    requires x in a && y in a + e
    ensures FromPairs(a + [x] + e + [y] + t) == a + e + t
  {
    var r := e + [y] + t;
    RegroupTwo(a, x, e, y, t);
    FromPairsDistinctFront(a, e + t);
    FromPairsRepeat(a, x, r);
    FromPairsRepeatDistinct(a + e, y, t);
  }

  /** A repeated key replaces its value in place; the fresh keys after it are appended. */
  lemma FromPairsOverrideExtend<K(!new), V>(p: seq<(K, V)>, x: (K, V), i: nat, q: seq<(K, V)>)
    requires i < |FromPairs(p)| && FromPairs(p)[i].0 == x.0
    requires Distinct(Keys(FromPairs(p) + q))
    ensures FromPairs(p + [x] + q) == FromPairs(p)[i := x] + q
  {
    var d := FromPairs(p);
    FromPairsOverride(p, x, i);
    KeysUpdate(d, i, x);
    KeysAppend(d, q);
    KeysAppend(d[i := x], q);
    FromPairsExtend(p + [x], q);
  }

  /** Updating a position of the first part of a concatenation. */
  lemma UpdateFront<X>(a: seq<X>, b: seq<X>, i: nat, v: X)
    requires i < |a|
    ensures (a + b)[i := v] == a[i := v] + b
  {
  }

  /** The first repeated key of `FromPairsPatch` overrides its value in place. */
  lemma FromPairsPatchOne<K(!new), V>(a: seq<(K, V)>, x: (K, V), e: seq<(K, V)>, t: seq<(K, V)>, ix: nat)
    requires Distinct(Keys(a + e + t))
    requires ix < |a| && a[ix].0 == x.0
    ensures FromPairs(a + [x] + e) == a[ix := x] + e
  {
    KeysAppend(a + e, t);
    KeysAppend(a, e);
    DistinctPrefix(Keys(a + e), Keys(t));
    DistinctPrefix(Keys(a), Keys(e));
    FromPairsDistinct(a);
    FromPairsOverrideExtend(a, x, ix, e);
  }

  /** The first two repeated keys of `FromPairsPatch` override their values in place. */
  lemma FromPairsPatchTwo<K(!new), V>(a: seq<(K, V)>, x: (K, V), e: seq<(K, V)>, y: (K, V), t: seq<(K, V)>, ix: nat, iy: nat)
    requires Distinct(Keys(a + e + t))
    requires ix < |a| && a[ix].0 == x.0
    requires iy < |a| && a[iy].0 == y.0
    ensures FromPairs(a + [x] + e + [y] + t) == (a[ix := x] + e)[iy := y] + t
  {
    var a1 := a[ix := x];
    FromPairsPatchOne(a, x, e, t, ix);
    assert Keys(a1 + e + t) == Keys(a + e + t) by {
      KeysUpdate(a, ix, x);
      KeysAppend(a1 + e, t);
      KeysAppend(a1, e);
      KeysAppend(a + e, t);
      KeysAppend(a, e);
    }
    assert (a1 + e)[iy].0 == y.0;
    FromPairsOverrideExtend(a + [x] + e, y, iy, t);
  }

  /**
   * A display with distinct keys, except for three entries that repeat keys of
   * its first part, is that first part with the three values replaced in place.
   */
  lemma FromPairsPatch<K(!new), V>(a: seq<(K, V)>, x: (K, V), e: seq<(K, V)>, y: (K, V), t: seq<(K, V)>, z: (K, V),
                                   ix: nat, iy: nat, iz: nat)
    requires Distinct(Keys(a + e + t))
    requires ix < |a| && a[ix].0 == x.0
    requires iy < |a| && a[iy].0 == y.0
    requires iz < |a| && a[iz].0 == z.0
    ensures FromPairs(a + [x] + e + [y] + t + [z]) == a[ix := x][iy := y][iz := z] + e + t
  {
    var a1 := a[ix := x];
    var p3 := a + [x] + e + [y] + t;
    FromPairsPatchTwo(a, x, e, y, t, ix, iy);
    UpdateFront(a1, e, iy, y);
    var a2 := a1[iy := y];
    assert FromPairs(p3) == (a2 + e) + t;
    assert |FromPairs(p3)| == |a| + |e| + |t| && FromPairs(p3)[iz].0 == z.0;
    FromPairsOverride(p3, z, iz);
    UpdateFront(a2 + e, t, iz, z);
    UpdateFront(a2, e, iz, z);
    assert p3 + [z] == a + [x] + e + [y] + t + [z];
  }

  /** The dict display `{ks[0]: vs[0], ks[1]: vs[1], ...}` before duplicate keys are merged. */
  function Zip<K, V>(ks: seq<K>, vs: seq<V>): (d: seq<(K, V)>)
    requires |ks| == |vs|
    ensures |d| == |ks|
    ensures forall i :: 0 <= i < |d| ==> d[i] == (ks[i], vs[i])
  {
    if ks == [] then [] else [(ks[0], vs[0])] + Zip(ks[1..], vs[1..])
  }

  lemma KeysZip<K, V>(ks: seq<K>, vs: seq<V>)
    requires |ks| == |vs|
    ensures Keys(Zip(ks, vs)) == ks
  {
    KeysAt(Zip(ks, vs));
  }

  /**
   * A display of distinct keys, cut at m and at n, with entries x, y and w
   * that repeat the keys at ix, iy and iz (all before m) appended at the two
   * cuts and at the end, merges into the display with those values replaced.
   */
  lemma DisplayPatch<K(!new), V>(z: seq<(K, V)>, m: nat, n: nat, x: (K, V), ix: nat, y: (K, V), iy: nat, w: (K, V), iz: nat)
    requires m <= n <= |z| && Distinct(Keys(z))
    requires ix < m && z[ix].0 == x.0
    requires iy < m && z[iy].0 == y.0
    requires iz < m && z[iz].0 == w.0
    ensures FromPairs(z[..m] + [x] + z[m..n] + [y] + z[n..] + [w]) == z[ix := x][iy := y][iz := w]
  {
    SplitThree(z, m, n);
    FromPairsPatch(z[..m], x, z[m..n], y, z[n..], w, ix, iy, iz);
    PatchSlices(z, m, n, ix, x, iy, y, iz, w);
  }

  /** Three point updates inside the first of three consecutive slices. */
  lemma PatchSlices<X>(z: seq<X>, m: nat, n: nat, ix: nat, x: X, iy: nat, y: X, iz: nat, w: X)
    requires m <= n <= |z| && ix < m && iy < m && iz < m
    ensures z[..m][ix := x][iy := y][iz := w] + z[m..n] + z[n..] == z[ix := x][iy := y][iz := w]
  {
    var b := z[..m][ix := x][iy := y][iz := w];
    assert b + z[m..n] + z[n..] == b + z[m..];
  }

  /** A sequence is its three consecutive slices. */
  lemma PrefixesOfThree<X>(a: seq<X>, b: seq<X>, c: seq<X>)
    ensures (a + b + c)[..|a|] == a && (a + b + c)[..|a| + |b|] == a + b
  {
  }

  lemma SplitThree<X>(z: seq<X>, m: nat, n: nat)
    requires m <= n <= |z|
    ensures z[..m] + z[m..n] + z[n..] == z
  {
    assert z[..m] + z[m..n] == z[..n];
  }

  /** Where each of seven concatenated parts sits. */
  lemma ConcatParts<X>(a: seq<X>, b: seq<X>, c: seq<X>, t: seq<X>, k: seq<X>, s: seq<X>, e: seq<X>, v: seq<X>)
    requires v == a + b + c + t + k + s + e
    ensures v[..|a|] == a
    ensures v[|a|..|a| + |b|] == b
    ensures v[|a| + |b|..|a| + |b| + |c|] == c
    ensures v[|a| + |b| + |c|..|a| + |b| + |c| + |t|] == t
    ensures v[|a| + |b| + |c| + |t|..|a| + |b| + |c| + |t| + |k|] == k
    ensures v[|a| + |b| + |c| + |t| + |k|..|a| + |b| + |c| + |t| + |k| + |s|] == s
    ensures v[|a| + |b| + |c| + |t| + |k| + |s|..] == e
  {
    assert v == a + (b + (c + (t + (k + (s + e)))));
  }
}
