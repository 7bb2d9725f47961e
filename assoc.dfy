/**
 * Python dictionaries whose iteration order matters: a sequence of key/value pairs, where an
 * assignment `d[k] = v` replaces the value in place when `k` is present and appends otherwise,
 * and `d.update(e)` performs those assignments in `e`'s order.
 */
module Assoc {
  import opened Wrappers
  import opened Seqs

  /** Keys are always strings in the source's dicts. */
  type Assoc<V> = seq<(string, V)>

  function Keys<V>(d: Assoc<V>): (ks: seq<string>)
    ensures |ks| == |d|
    ensures forall i :: 0 <= i < |d| ==> ks[i] == d[i].0
  {
    seq(|d|, i requires 0 <= i < |d| => d[i].0)
  }

  /** A Python dict never holds a key twice. */
  predicate UniqueKeys<V>(d: Assoc<V>) {
    Distinct(Keys(d))
  }

  /** `d.get(k)`: the value stored under `k`, if any. */
  function Get<V>(d: Assoc<V>, k: string): (r: Option<V>)
    ensures r.Some? <==> k in Keys(d)
    decreases |d|
  {
    if |d| == 0 then None
    else if d[0].0 == k then Some(d[0].1)
    else
      assert Keys(d) == [d[0].0] + Keys(d[1..]);
      Get(d[1..], k)
  }

  /** `d[k] = v`. */
  function Put<V>(d: Assoc<V>, k: string, v: V): (r: Assoc<V>)
    ensures Keys(r) == if k in Keys(d) then Keys(d) else Keys(d) + [k]
    ensures Get(r, k) == Some(v)
    ensures forall k' :: k' != k ==> Get(r, k') == Get(d, k')
    decreases |d|
  {
    if |d| == 0 then [(k, v)]
    else if d[0].0 == k then
      PutHere(d, k, v);
      [(k, v)] + d[1..]
    else
      var rest := Put(d[1..], k, v);
      PutFurther(d, k, v, rest);
      [d[0]] + rest
  }

  /** Assigning the first key replaces its value and keeps everything else. */
  lemma PutHere<V>(d: Assoc<V>, k: string, v: V)
    requires |d| > 0 && d[0].0 == k
    ensures var r := [(k, v)] + d[1..];
      && Keys(r) == Keys(d)
      && Get(r, k) == Some(v)
      && forall k' :: k' != k ==> Get(r, k') == Get(d, k')
  {
    var r := [(k, v)] + d[1..];
    assert r[1..] == d[1..];
    assert Keys(r) == Keys(d);
  }

  /** An assignment in the tail, behind a first entry with another key, is one in the whole dict. */
  lemma PutFurther<V>(d: Assoc<V>, k: string, v: V, rest: Assoc<V>)
    requires |d| > 0 && d[0].0 != k
    requires Keys(rest) == if k in Keys(d[1..]) then Keys(d[1..]) else Keys(d[1..]) + [k]
    requires Get(rest, k) == Some(v)
    requires forall k' :: k' != k ==> Get(rest, k') == Get(d[1..], k')
    ensures var r := [d[0]] + rest;
      && Keys(r) == (if k in Keys(d) then Keys(d) else Keys(d) + [k])
      && Get(r, k) == Some(v)
      && forall k' :: k' != k ==> Get(r, k') == Get(d, k')
  {
    var r := [d[0]] + rest;
    assert r[1..] == rest;
    ConsKeys(d);
    ConsKeys(r);
    forall k' | k' != k
      ensures Get(r, k') == Get(d, k')
    {
      if d[0].0 != k' {
        assert Get(r, k') == Get(rest, k');
      }
    }
  }

  lemma ConsKeys<V>(d: Assoc<V>)
    requires |d| > 0
    ensures Keys(d) == [d[0].0] + Keys(d[1..])
  {
  }

  /** A key is present after `d[k] = v` exactly when it was present before or it is `k`. */
  lemma PutKeyIn<V>(d: Assoc<V>, k: string, v: V, name: string)
    ensures name in Keys(Put(d, k, v)) <==> name in Keys(d) || name == k
  {
  }

  /** Assigning the value a key already holds changes nothing. */
  lemma {:induction false} PutSame<V>(d: Assoc<V>, k: string, v: V)
    requires Get(d, k) == Some(v)
    ensures Put(d, k, v) == d
    decreases |d|
  {
    if d[0].0 != k {
      PutSame(d[1..], k, v);
    }
  }

  /** A second assignment to the same key overrides the first. */
  lemma {:induction false} PutTwice<V>(d: Assoc<V>, k: string, v: V, w: V)
    ensures Put(Put(d, k, v), k, w) == Put(d, k, w)
    decreases |d|
  {
    if |d| > 0 && d[0].0 != k {
      PutTwice(d[1..], k, v, w);
    }
  }

  /** In a dict, an entry is present exactly when a lookup of its key finds its value. */
  lemma {:induction false} InUniqueGet<V>(d: Assoc<V>, k: string, v: V)
    requires UniqueKeys(d)
    ensures (k, v) in d <==> Get(d, k) == Some(v)
    decreases |d|
  {
    if |d| > 0 {
      var t := d[1..];
      HeadKeyNotInTail(d);
      InUniqueGet(t, k, v);
      assert d == [d[0]] + t;
    }
  }

  /** The first key of a dict is not among the rest, which form a dict. */
  lemma HeadKeyNotInTail<V>(d: Assoc<V>)
    requires |d| > 0 && UniqueKeys(d)
    ensures UniqueKeys(d[1..])
    ensures forall e :: e in d[1..] ==> e.0 != d[0].0
  {
    ConsKeys(d);
    var t := d[1..];
    forall e | e in t ensures e.0 != d[0].0 {
      var i :| 0 <= i < |t| && t[i] == e;
      assert Keys(d)[i + 1] == e.0;
    }
  }

  /** A rearrangement of a dict's entries is a dict with the same keys. */
  lemma PermutedKeys<V>(d: Assoc<V>, e: Assoc<V>)
    requires UniqueKeys(d) && multiset(d) == multiset(e)
    ensures UniqueKeys(e)
    ensures forall k :: k in Keys(e) <==> k in Keys(d)
  {
    forall i, j | 0 <= i < j < |e| ensures e[i].0 != e[j].0 {
      if e[i].0 == e[j].0 {
        assert e[i] in multiset(d) && e[j] in multiset(d);
        var a :| 0 <= a < |d| && d[a] == e[i];
        var b :| 0 <= b < |d| && d[b] == e[j];
        if a == b {
          MultisetTwice(e, i, j);
          TwiceInMultiset(d, e[i]);
        }
      }
    }
    forall k ensures k in Keys(e) <==> k in Keys(d) {
      if k in Keys(e) {
        var i :| 0 <= i < |e| && e[i].0 == k;
        assert e[i] in multiset(d);
      }
      if k in Keys(d) {
        var i :| 0 <= i < |d| && d[i].0 == k;
        assert d[i] in multiset(e);
      }
    }
  }

  /** An element at two positions occurs at least twice. */
  lemma MultisetTwice<T>(s: seq<T>, i: nat, j: nat)
    requires i < j < |s| && s[i] == s[j]
    ensures multiset(s)[s[i]] >= 2
  {
    var x := s[i];
    assert s == s[..i] + [x] + s[i + 1..j] + [x] + s[j + 1..];
  }

  /** An element counted twice stands at two positions. */
  lemma TwiceInMultiset<T>(s: seq<T>, x: T)
    requires multiset(s)[x] >= 2
    ensures exists a, b :: 0 <= a < b < |s| && s[a] == x && s[b] == x
  {
    var a :| 0 <= a < |s| && s[a] == x;
    var front, back := s[..a], s[a + 1..];
    assert s == front + [x] + back;
    assert multiset(s)[x] == multiset(front)[x] + 1 + multiset(back)[x];
    if multiset(front)[x] > 0 {
      var b :| 0 <= b < |front| && front[b] == x;
      assert s[b] == x;
    } else {
      var b :| 0 <= b < |back| && back[b] == x;
      assert s[a + 1 + b] == x;
    }
  }

  lemma PutCongruent<V>(d1: Assoc<V>, d2: Assoc<V>, k1: string, k2: string, v1: V, v2: V)
    requires d1 == d2 && k1 == k2 && v1 == v2
    ensures Put(d1, k1, v1) == Put(d2, k2, v2)
  {
  }

  /** Assigning keeps the keys unique. */
  lemma PutUnique<V>(d: Assoc<V>, k: string, v: V)
    requires UniqueKeys(d)
    ensures UniqueKeys(Put(d, k, v))
  {
  }

  /** Assigning a key extends a key list that was the de-duplicated history by that key. */
  lemma PutDedup<V>(d: Assoc<V>, ks: seq<string>, k: string, v: V)
    requires Keys(d) == Dedup(ks)
    ensures Keys(Put(d, k, v)) == Dedup(ks + [k])
  {
    var s := ks + [k];
    assert s[..|s| - 1] == ks;
  }

  /** `a.update(b)`: the assignments of `b`, in `b`'s order, applied to `a`. */
  function Merge<V>(a: Assoc<V>, b: Assoc<V>): Assoc<V>
    decreases |b|
  {
    if |b| == 0 then a else Put(Merge(a, b[..|b| - 1]), b[|b| - 1].0, b[|b| - 1].1)
  }

  /** The value recorded last for `k` in `b`, if any. */
  function LastGet<V>(b: Assoc<V>, k: string): Option<V>
    decreases |b|
  {
    if |b| == 0 then None
    else if b[|b| - 1].0 == k then Some(b[|b| - 1].1)
    else LastGet(b[..|b| - 1], k)
  }

  /** In a dict with unique keys the first and the last entry for a key are the same entry. */
  lemma {:induction false} LastGetUnique<V>(b: Assoc<V>, k: string)
    requires UniqueKeys(b)
    ensures LastGet(b, k) == Get(b, k)
    decreases |b|
  {
    if |b| > 0 {
      var p := b[..|b| - 1];
      assert b == p + [b[|b| - 1]];
      assert Keys(b) == Keys(p) + [b[|b| - 1].0];
      assert UniqueKeys(p);
      assert b[|b| - 1].0 !in Keys(p);
      GetAppend(p, b[|b| - 1]);
      LastGetUnique(p, k);
    }
  }

  lemma {:induction false} GetAppend<V>(p: Assoc<V>, e: (string, V))
    ensures forall k :: Get(p + [e], k) == if k in Keys(p) then Get(p, k) else if k == e.0 then Some(e.1) else None
    decreases |p|
  {
    if |p| > 0 {
      assert (p + [e])[1..] == p[1..] + [e];
      assert Keys(p) == [p[0].0] + Keys(p[1..]);
      GetAppend(p[1..], e);
    }
  }

  /**
   * After `a.update(b)`: a key is present iff it was in `a` or in `b`; its value is `b`'s when `b`
   * has the key, and `a`'s otherwise; `a`'s keys keep their positions at the front.
   */
  lemma {:induction false} MergeGet<V>(a: Assoc<V>, b: Assoc<V>, k: string)
    ensures Get(Merge(a, b), k) == if k in Keys(b) then LastGet(b, k) else Get(a, k)
    ensures k in Keys(Merge(a, b)) <==> k in Keys(a) || k in Keys(b)
    decreases |b|
  {
    if |b| > 0 {
      var p := b[..|b| - 1];
      assert Keys(b) == Keys(p) + [b[|b| - 1].0];
      MergeGet(a, p, k);
    }
  }

  lemma {:induction false} MergeKeysPrefix<V>(a: Assoc<V>, b: Assoc<V>)
    ensures |Keys(Merge(a, b))| >= |Keys(a)|
    ensures Keys(Merge(a, b))[..|a|] == Keys(a)
    ensures UniqueKeys(a) ==> UniqueKeys(Merge(a, b))
    decreases |b|
  {
    if |b| > 0 {
      var m := Merge(a, b[..|b| - 1]);
      var e := b[|b| - 1];
      MergeKeysPrefix(a, b[..|b| - 1]);
      assert Merge(a, b) == Put(m, e.0, e.1);
      if UniqueKeys(a) {
        PutUnique(m, e.0, e.1);
      }
      PutKeysPrefix(m, e.0, e.1, |a|);
    }
  }

  /** Assigning a key keeps every prefix of the key list. */
  lemma PutKeysPrefix<V>(d: Assoc<V>, k: string, v: V, n: nat)
    requires n <= |Keys(d)|
    ensures |Keys(Put(d, k, v))| >= |Keys(d)|
    ensures Keys(Put(d, k, v))[..n] == Keys(d)[..n]
  {
    if k !in Keys(d) {
      assert (Keys(d) + [k])[..n] == Keys(d)[..n];
    }
  }
}
