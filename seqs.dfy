/** Sequence helpers shared by all components: sums, counts, filtered index lists and de-duplication. */
module Seqs {

  /** Every element occurs at most once. */
  predicate Distinct<T(==)>(s: seq<T>) {
    forall i, j :: 0 <= i < j < |s| ==> s[i] != s[j]
  }

  /** Strictly ascending naturals. */
  predicate StrictlyIncreasing(s: seq<nat>) {
    forall i, j :: 0 <= i < j < |s| ==> s[i] < s[j]
  }

  /** The sum of `f` over `s`, accumulated from the back so that a loop over a prefix extends it by one term. */
  function Sum<T>(s: seq<T>, f: T -> real): real
    decreases |s|
  {
    if |s| == 0 then 0.0 else Sum(s[..|s| - 1], f) + f(s[|s| - 1])
  }

  /** Extending the prefix `s[..i]` by one element adds exactly that element's term. */
  lemma SumStep<T>(s: seq<T>, f: T -> real, i: nat)
    requires i < |s|
    ensures Sum(s[..i + 1], f) == Sum(s[..i], f) + f(s[i])
  {
    assert s[..i + 1][..i] == s[..i];
  }

  lemma {:induction false} SumConcat<T>(a: seq<T>, b: seq<T>, f: T -> real)
    ensures Sum(a + b, f) == Sum(a, f) + Sum(b, f)
    decreases |b|
  {
    if |b| == 0 {
      assert a + b == a;
    } else {
      assert (a + b)[..|a + b| - 1] == a + b[..|b| - 1];
      SumConcat(a, b[..|b| - 1], f);
    }
  }

  /** A sum of terms that each lie in [lo, hi] lies in [lo * |s|, hi * |s|]. */
  lemma {:induction false} SumBounds<T>(s: seq<T>, f: T -> real, lo: real, hi: real)
    requires forall i :: 0 <= i < |s| ==> lo <= f(s[i]) <= hi
    ensures lo * |s| as real <= Sum(s, f) <= hi * |s| as real
    decreases |s|
  {
    if |s| > 0 {
      var p := s[..|s| - 1];
      assert forall i :: 0 <= i < |p| ==> p[i] == s[i];
      SumBounds(p, f, lo, hi);
      assert lo * |s| as real == lo * |p| as real + lo;
      assert hi * |s| as real == hi * |p| as real + hi;
    }
  }

  /** The sum of the natural-number measure `f` over `s`, accumulated from the back. */
  function SumNat<T>(s: seq<T>, f: T -> nat): nat
    decreases |s|
  {
    if |s| == 0 then 0 else SumNat(s[..|s| - 1], f) + f(s[|s| - 1])
  }

  lemma SumNatStep<T>(s: seq<T>, f: T -> nat, i: nat)
    requires i < |s|
    ensures SumNat(s[..i + 1], f) == SumNat(s[..i], f) + f(s[i])
  {
    PrefixSnoc(s, i);
  }

  /** The number of elements of `s` satisfying `p`. */
  function Count<T>(s: seq<T>, p: T -> bool): (n: nat)
    ensures n <= |s|
    decreases |s|
  {
    if |s| == 0 then 0 else Count(s[..|s| - 1], p) + (if p(s[|s| - 1]) then 1 else 0)
  }

  lemma CountStep<T>(s: seq<T>, p: T -> bool, i: nat)
    requires i < |s|
    ensures Count(s[..i + 1], p) == Count(s[..i], p) + (if p(s[i]) then 1 else 0)
  {
    assert s[..i + 1][..i] == s[..i];
  }

  lemma {:induction false} CountConcat<T>(a: seq<T>, b: seq<T>, p: T -> bool)
    ensures Count(a + b, p) == Count(a, p) + Count(b, p)
    decreases |b|
  {
    if |b| == 0 {
      assert a + b == a;
    } else {
      assert (a + b)[..|a + b| - 1] == a + b[..|b| - 1];
      CountConcat(a, b[..|b| - 1], p);
    }
  }

  /** Elements satisfying `p` and elements not satisfying it together make up the whole sequence. */
  lemma {:induction false} CountComplement<T>(s: seq<T>, p: T -> bool, q: T -> bool)
    requires forall i :: 0 <= i < |s| ==> q(s[i]) == !p(s[i])
    ensures Count(s, p) + Count(s, q) == |s|
    decreases |s|
  {
    if |s| > 0 {
      var t := s[..|s| - 1];
      assert forall i :: 0 <= i < |t| ==> t[i] == s[i];
      CountComplement(t, p, q);
    }
  }

  /** A count is zero exactly when no element satisfies the predicate. */
  lemma {:induction false} CountZero<T>(s: seq<T>, p: T -> bool)
    ensures Count(s, p) == 0 <==> forall i :: 0 <= i < |s| ==> !p(s[i])
    decreases |s|
  {
    if |s| > 0 {
      var t := s[..|s| - 1];
      assert forall i :: 0 <= i < |t| ==> t[i] == s[i];
      CountZero(t, p);
    }
  }

  /**
   * The ascending positions of the elements satisfying `p`: exactly those positions, each once,
   * in order.
   */
  function IndicesWhere<T>(s: seq<T>, p: T -> bool): (r: seq<nat>)
    ensures StrictlyIncreasing(r)
    ensures forall j :: 0 <= j < |r| ==> r[j] < |s| && p(s[r[j]])
    ensures forall i :: 0 <= i < |s| && p(s[i]) ==> i in r
    ensures |r| == Count(s, p)
    decreases |s|
  {
    if |s| == 0 then []
    else
      var r0 := IndicesWhere(s[..|s| - 1], p);
      assert forall i :: 0 <= i < |s| - 1 ==> s[..|s| - 1][i] == s[i];
      if p(s[|s| - 1]) then r0 + [|s| - 1] else r0
  }

  lemma IndicesWhereStep<T>(s: seq<T>, p: T -> bool, i: nat)
    requires i < |s|
    ensures IndicesWhere(s[..i + 1], p) == IndicesWhere(s[..i], p) + (if p(s[i]) then [i] else [])
  {
    assert s[..i + 1][..i] == s[..i];
  }

  /** `f` applied to each element satisfying `p` and its position, in order. */
  function MapWhere<T, U>(s: seq<T>, p: T -> bool, f: (T, nat) -> U): (r: seq<U>)
    ensures |r| == Count(s, p)
  {
    var idx := IndicesWhere(s, p);
    seq(|idx|, j requires 0 <= j < |idx| => f(s[idx[j]], idx[j]))
  }

  /** The j-th result is `f` at the j-th position satisfying `p`. */
  lemma MapWhereAt<T, U>(s: seq<T>, p: T -> bool, f: (T, nat) -> U)
    ensures var idx := IndicesWhere(s, p);
      |MapWhere(s, p, f)| == |idx|
      && forall j :: 0 <= j < |idx| ==> MapWhere(s, p, f)[j] == f(s[idx[j]], idx[j])
  {
  }

  lemma MapWhereStep<T, U>(s: seq<T>, p: T -> bool, f: (T, nat) -> U, i: nat)
    requires i < |s|
    ensures MapWhere(s[..i + 1], p, f) == MapWhere(s[..i], p, f) + (if p(s[i]) then [f(s[i], i)] else [])
  {
    IndicesWhereStep(s, p, i);
    assert forall k :: 0 <= k < i ==> s[..i + 1][k] == s[..i][k] == s[k];
  }

  /** The elements of `s` in order, each kept only at its first occurrence (Python dict-key semantics). */
  function Dedup<T(==)>(s: seq<T>): (r: seq<T>)
    ensures Distinct(r)
    ensures |r| <= |s|
    decreases |s|
  {
    if |s| == 0 then []
    else
      var r0 := Dedup(s[..|s| - 1]);
      if s[|s| - 1] in r0 then r0 else r0 + [s[|s| - 1]]
  }

  lemma DedupStep<T>(s: seq<T>, i: nat)
    requires i < |s|
    ensures Dedup(s[..i + 1]) == (if s[i] in Dedup(s[..i]) then Dedup(s[..i]) else Dedup(s[..i]) + [s[i]])
  {
    assert s[..i + 1][..i] == s[..i];
  }

  /** De-duplication keeps exactly the elements. */
  lemma DedupMembers<T>(s: seq<T>)
    ensures forall x :: x in Dedup(s) <==> x in s
  {
    forall x ensures x in Dedup(s) <==> x in s {
      if x in s {
        var i :| 0 <= i < |s| && s[i] == x;
      }
      if x in Dedup(s) {
        var j :| 0 <= j < |Dedup(s)| && Dedup(s)[j] == x;
      }
    }
  }

  /** [g(0), ..., g(n - 1)]. */
  function Tabulate<T>(n: nat, g: nat -> T): (r: seq<T>)
    ensures |r| == n
    ensures forall k :: 0 <= k < n ==> r[k] == g(k)
  {
    seq(n, k requires 0 <= k => g(k))
  }

  /** One more position adds g(m) at the end. */
  lemma TabulateSnoc<T>(m: nat, g: nat -> T)
    ensures Tabulate(m + 1, g) == Tabulate(m, g) + [g(m)]
  {
    assert forall i | 0 <= i < m + 1 :: Tabulate(m + 1, g)[i] == (Tabulate(m, g) + [g(m)])[i];
  }

  /** Adding one element to the history adds it to the de-duplicated list unless it is already there. */
  lemma DedupSnoc<T>(s: seq<T>, x: T)
    ensures Dedup(s + [x]) == if x in Dedup(s) then Dedup(s) else Dedup(s) + [x]
  {
    assert (s + [x])[..|s|] == s;
  }

  /** The elements of `s` satisfying `p`, in order (a list comprehension with a condition). */
  function Filter<T>(s: seq<T>, p: T -> bool): (r: seq<T>)
    ensures |r| == Count(s, p)
    ensures forall j :: 0 <= j < |r| ==> p(r[j]) && r[j] in s
    ensures forall i :: 0 <= i < |s| && p(s[i]) ==> s[i] in r
    decreases |s|
  {
    if |s| == 0 then []
    else
      var r0 := Filter(s[..|s| - 1], p);
      assert forall i :: 0 <= i < |s| - 1 ==> s[..|s| - 1][i] == s[i];
      if p(s[|s| - 1]) then r0 + [s[|s| - 1]] else r0
  }

  /** Some element satisfies `p`. */
  predicate Any<T>(s: seq<T>, p: T -> bool) {
    exists i :: 0 <= i < |s| && p(s[i])
  }

  lemma AnyConcat<T>(a: seq<T>, b: seq<T>, p: T -> bool)
    ensures Any(a + b, p) <==> Any(a, p) || Any(b, p)
  {
    if Any(a, p) {
      var i :| 0 <= i < |a| && p(a[i]);
      assert (a + b)[i] == a[i];
    }
    if Any(a + b, p) {
      var i :| 0 <= i < |a + b| && p((a + b)[i]);
      if i >= |a| {
        assert (a + b)[i] == b[i - |a|];
      }
    }
    if Any(b, p) {
      var i :| 0 <= i < |b| && p(b[i]);
      assert (a + b)[|a| + i] == b[i];
    }
  }

  lemma AnySnoc<T>(s: seq<T>, p: T -> bool)
    requires |s| > 0
    ensures Any(s, p) <==> Any(s[..|s| - 1], p) || p(s[|s| - 1])
  {
    var x := s[|s| - 1];
    assert s == s[..|s| - 1] + [x];
    AnyConcat(s[..|s| - 1], [x], p);
    assert Any([x], p) <==> p(x) by {
      assert [x][0] == x;
    }
  }

  lemma AnyPrefix<T>(a: seq<T>, b: seq<T>, p: T -> bool)
    requires a <= b && Any(a, p)
    ensures Any(b, p)
  {
    var i :| 0 <= i < |a| && p(a[i]);
    assert b[i] == a[i];
  }

  /** Python's `s[:n]`. */
  function Prefix<T>(s: seq<T>, n: nat): (r: seq<T>)
    ensures |r| == Min(|s|, n)
    ensures forall i :: 0 <= i < |r| ==> r[i] == s[i]
  {
    if |s| <= n then s else s[..n]
  }

  lemma TakeSnoc<T>(s: seq<T>, j: nat)
    requires j < |s|
    ensures s[..j + 1] == s[..j] + [s[j]]
  {
  }

  /** The prefix one longer than `s[..i]` ends in `s[i]`. */
  lemma PrefixSnoc<T>(s: seq<T>, i: nat)
    requires i < |s|
    ensures |s[..i + 1]| == i + 1
    ensures s[..i + 1][..i] == s[..i]
    ensures s[..i + 1][i] == s[i]
  {
  }

  lemma DropLastSnoc<T>(s: seq<T>)
    requires |s| > 0
    ensures s == s[..|s| - 1] + [s[|s| - 1]]
  {
  }

  lemma AppendAssoc<T>(a: seq<T>, b: seq<T>, c: seq<T>)
    ensures a + (b + c) == (a + b) + c
  {
  }

  lemma WholePrefix<T>(s: seq<T>)
    ensures s[..|s|] == s
  {
  }

  lemma ConcatSnoc<T>(a: seq<T>, b: seq<T>, j: nat)
    requires j < |b|
    ensures a + b[..j + 1] == (a + b[..j]) + [b[j]]
    ensures |a + b[..j]| == |a| + j
  {
    assert b[..j + 1] == b[..j] + [b[j]];
  }

  /** The concatenation of `f` over `s`, in order (nested loops appending to one list). */
  function FlatMap<T, U>(s: seq<T>, f: T -> seq<U>): seq<U>
    decreases |s|
  {
    if |s| == 0 then [] else FlatMap(s[..|s| - 1], f) + f(s[|s| - 1])
  }

  lemma FlatMapStep<T, U>(s: seq<T>, f: T -> seq<U>, i: nat)
    requires i < |s|
    ensures FlatMap(s[..i + 1], f) == FlatMap(s[..i], f) + f(s[i])
  {
    PrefixSnoc(s, i);
  }

  /** An element of the concatenation comes from the part of some element, and every such part contributes. */
  lemma {:induction false} FlatMapMembers<T, U>(s: seq<T>, f: T -> seq<U>, y: U)
    ensures y in FlatMap(s, f) <==> exists i :: 0 <= i < |s| && y in f(s[i])
    decreases |s|
  {
    if |s| > 0 {
      var p := s[..|s| - 1];
      FlatMapMembers(p, f, y);
      if y in FlatMap(p, f) {
        var i :| 0 <= i < |p| && y in f(p[i]);
        assert s[i] == p[i];
      }
      if exists i :: 0 <= i < |s| && y in f(s[i]) {
        var i :| 0 <= i < |s| && y in f(s[i]);
        if i < |p| {
          assert p[i] == s[i];
        }
      }
    }
  }

  /** The concatenation is empty exactly when every part is. */
  lemma {:induction false} FlatMapEmpty<T, U>(s: seq<T>, f: T -> seq<U>)
    ensures |FlatMap(s, f)| == 0 <==> forall i :: 0 <= i < |s| ==> |f(s[i])| == 0
    decreases |s|
  {
    if |s| > 0 {
      var p := s[..|s| - 1];
      FlatMapEmpty(p, f);
      assert forall i :: 0 <= i < |p| ==> p[i] == s[i];
    }
  }

  /** The set of elements of a sequence, as Python's `set(s)`. */
  function Elements<T(!new)>(s: seq<T>): (r: set<T>)
    ensures forall x :: x in r <==> x in s
  {
    set x | x in s
  }

  /** A sequence has at least as many entries as distinct elements. */
  lemma {:induction false} ElementsSize<T(!new)>(s: seq<T>)
    ensures |Elements(s)| <= |s|
    decreases |s|
  {
    if |s| > 0 {
      var p := s[..|s| - 1];
      ElementsSize(p);
      assert Elements(s) == Elements(p) + {s[|s| - 1]};
    }
  }

  function Min(a: int, b: int): int { if a <= b then a else b }

  function Max(a: int, b: int): int { if a >= b then a else b }

  function Abs(x: real): real { if x < 0.0 then -x else x }
}
