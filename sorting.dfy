/**
 * Stable insertion sort under a total comparator, standing for pandas' `sort_values` and Python's
 * `sorted`. Contracts promise only what those promise: sorted and a permutation of the input.
 */
module Sorting {

  /** `le` relates every pair one way or the other. */
  ghost predicate Total<T(!new)>(le: (T, T) -> bool) {
    forall a, b :: le(a, b) || le(b, a)
  }

  /** Neighbours are in order. */
  predicate SortedBy<T>(s: seq<T>, le: (T, T) -> bool) {
    forall i :: 0 < i < |s| ==> le(s[i - 1], s[i])
  }

  /** `x` placed before the first element it is `le` to. */
  function Insert<T(!new)>(x: T, s: seq<T>, le: (T, T) -> bool): (r: seq<T>)
    requires Total(le)
    ensures multiset(r) == multiset(s) + multiset{x}
    ensures |r| == |s| + 1
    ensures r[0] == x || (|s| > 0 && r[0] == s[0])
    ensures SortedBy(s, le) ==> SortedBy(r, le)
    decreases |s|
  {
    if |s| == 0 || le(x, s[0]) then [x] + s
    else
      var rest := Insert(x, s[1..], le);
      assert s == [s[0]] + s[1..];
      [s[0]] + rest
  }

  /** The elements of `s` rearranged into `le` order. */
  function SortBy<T(!new)>(s: seq<T>, le: (T, T) -> bool): (r: seq<T>)
    requires Total(le)
    ensures multiset(r) == multiset(s)
    ensures |r| == |s|
    ensures SortedBy(r, le)
    decreases |s|
  {
    if |s| == 0 then []
    else
      assert s == [s[0]] + s[1..];
      Insert(s[0], SortBy(s[1..], le), le)
  }

  // ---------------------------------------------------------------- descending by an integer key

  function DescBy<T>(key: T -> int): (T, T) -> bool {
    (a: T, b: T) => key(a) >= key(b)
  }

  lemma DescByTotal<T(!new)>(key: T -> int)
    ensures Total(DescBy(key))
  {
  }

  /** Neighbour order under a descending key extends to every pair. */
  lemma {:induction false} DescSortedEveryPair<T>(s: seq<T>, key: T -> int, i: nat, j: nat)
    requires SortedBy(s, DescBy(key))
    requires i <= j < |s|
    ensures key(s[i]) >= key(s[j])
    decreases j - i
  {
    if i < j {
      DescSortedEveryPair(s, key, i, j - 1);
      assert DescBy(key)(s[j - 1], s[j]);
    }
  }

  // ---------------------------------------------------------------- strings by code point

  /** Python's `a <= b` on strings: lexicographic by code point. */
  predicate StrLe(a: string, b: string)
    decreases |a|
  {
    |a| == 0 || (|b| > 0 && (a[0] < b[0] || (a[0] == b[0] && StrLe(a[1..], b[1..]))))
  }

  lemma {:induction false} StrLeTotal(a: string, b: string)
    ensures StrLe(a, b) || StrLe(b, a)
    decreases |a|
  {
    if |a| > 0 && |b| > 0 && a[0] == b[0] {
      StrLeTotal(a[1..], b[1..]);
    }
  }

  lemma {:induction false} StrLeAntisymmetric(a: string, b: string)
    requires StrLe(a, b) && StrLe(b, a)
    ensures a == b
    decreases |a|
  {
    if |a| > 0 {
      StrLeAntisymmetric(a[1..], b[1..]);
      assert a == [a[0]] + a[1..] && b == [b[0]] + b[1..];
    }
  }

  lemma {:induction false} StrLeTransitive(a: string, b: string, c: string)
    requires StrLe(a, b) && StrLe(b, c)
    ensures StrLe(a, c)
    decreases |a|
  {
    if |a| > 0 && a[0] == b[0] && b[0] == c[0] {
      StrLeTransitive(a[1..], b[1..], c[1..]);
    }
  }

  /** Python's `sorted` on strings. */
  function StrOrder(): (string, string) -> bool {
    (a: string, b: string) => StrLe(a, b)
  }

  lemma StrOrderTotal()
    ensures Total(StrOrder())
  {
    forall a: string, b: string ensures StrOrder()(a, b) || StrOrder()(b, a) {
      StrLeTotal(a, b);
    }
  }

  /** Order pairs by their string key. */
  function ByKey<V>(): ((string, V), (string, V)) -> bool {
    (x: (string, V), y: (string, V)) => StrLe(x.0, y.0)
  }

  lemma ByKeyTotal<V(!new)>()
    ensures Total(ByKey<V>())
  {
    forall x: (string, V), y: (string, V) ensures ByKey<V>()(x, y) || ByKey<V>()(y, x) {
      StrLeTotal(x.0, y.0);
    }
  }

  /** Sorted by key, every earlier key is `<=` every later one. */
  lemma {:induction false} ByKeySortedEveryPair<V>(s: seq<(string, V)>, i: nat, j: nat)
    requires SortedBy(s, ByKey<V>())
    requires i <= j < |s|
    ensures StrLe(s[i].0, s[j].0)
    decreases j - i
  {
    if i == j {
      StrLeReflexive(s[i].0);
    } else {
      ByKeySortedEveryPair(s, i, j - 1);
      assert ByKey<V>()(s[j - 1], s[j]);
      StrLeTransitive(s[i].0, s[j - 1].0, s[j].0);
    }
  }

  lemma {:induction false} StrLeReflexive(a: string)
    ensures StrLe(a, a)
    decreases |a|
  {
    if |a| > 0 {
      StrLeReflexive(a[1..]);
    }
  }
}
