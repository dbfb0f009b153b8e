/** Order-preserving filtering, summation and counting over sequences: the
    `Array.prototype.filter`, `reduce((sum, x) => sum + f(x), 0)` and
    `filter(...).length` idioms every page of the dashboard is built from. */
module Collections {

  /** `a` is obtained from `b` by deleting elements, keeping the rest in order. */
  predicate IsSubsequence<T(==)>(a: seq<T>, b: seq<T>)
    decreases |b|
  {
    a == [] || (b != [] && ((a[0] == b[0] && IsSubsequence(a[1..], b[1..])) || IsSubsequence(a, b[1..])))
  }

  /** The elements of `s` satisfying `p`, in their original order. */
  function Filter<T>(p: T -> bool, s: seq<T>): (r: seq<T>)
    ensures |r| <= |s|
    ensures forall i :: 0 <= i < |r| ==> r[i] in s && p(r[i])
    ensures forall i :: 0 <= i < |s| && p(s[i]) ==> s[i] in r
  {
    if s == [] then []
    else if p(s[0]) then [s[0]] + Filter(p, s[1..])
    else Filter(p, s[1..])
  }

  /** Filtering preserves order: the result is a subsequence of the input. */
  lemma {:induction false} FilterIsSubsequence<T>(p: T -> bool, s: seq<T>)
    ensures IsSubsequence(Filter(p, s), s)
  {
    if s != [] {
      FilterIsSubsequence(p, s[1..]);
    }
  }

  /** Filtering never adds or duplicates an element. */
  lemma {:induction false} FilterSubMultiset<T>(p: T -> bool, s: seq<T>)
    ensures multiset(Filter(p, s)) <= multiset(s)
  {
    if s != [] {
      FilterSubMultiset(p, s[1..]);
      assert s == [s[0]] + s[1..];
    }
  }

  /** Sum of `f` over the elements of `s`, starting from 0. */
  function SumOf<T>(f: T -> int, s: seq<T>): int
  {
    if s == [] then 0 else f(s[0]) + SumOf(f, s[1..])
  }

  /** Number of elements of `s` satisfying `p`. */
  function Count<T>(p: T -> bool, s: seq<T>): nat
  {
    |Filter(p, s)|
  }

  /** A filter whose predicate holds everywhere keeps the whole sequence. */
  lemma {:induction false} FilterKeepsAll<T>(p: T -> bool, s: seq<T>)
    requires forall i :: 0 <= i < |s| ==> p(s[i])
    ensures Filter(p, s) == s
  {
    if s != [] {
      FilterKeepsAll(p, s[1..]);
    }
  }

  /** A filter whose predicate holds nowhere yields the empty sequence. */
  lemma FilterKeepsNone<T>(p: T -> bool, s: seq<T>)
    requires forall i :: 0 <= i < |s| ==> !p(s[i])
    ensures Filter(p, s) == []
  {
    var r := Filter(p, s);
    if r != [] {
      var i :| 0 <= i < |s| && s[i] == r[0];
    }
  }

  /** Two filters may be applied in either order. */
  lemma {:induction false} FilterCommute<T>(p: T -> bool, q: T -> bool, s: seq<T>)
    ensures Filter(p, Filter(q, s)) == Filter(q, Filter(p, s))
  {
    if s != [] {
      FilterCommute(p, q, s[1..]);
    }
  }

  lemma {:induction false} FilterConcat<T>(p: T -> bool, a: seq<T>, b: seq<T>)
    ensures Filter(p, a + b) == Filter(p, a) + Filter(p, b)
  {
    if a == [] {
      assert a + b == b;
    } else {
      assert (a + b)[1..] == a[1..] + b;
      FilterConcat(p, a[1..], b);
    }
  }

  lemma {:induction false} SumOfConcat<T>(f: T -> int, a: seq<T>, b: seq<T>)
    ensures SumOf(f, a + b) == SumOf(f, a) + SumOf(f, b)
  {
    if a == [] {
      assert a + b == b;
    } else {
      assert (a + b)[1..] == a[1..] + b;
      SumOfConcat(f, a[1..], b);
    }
  }

  /** A sum of non-negative terms is non-negative. */
  lemma {:induction false} SumOfNonNegative<T>(f: T -> int, s: seq<T>)
    requires forall i :: 0 <= i < |s| ==> f(s[i]) >= 0
    ensures SumOf(f, s) >= 0
  {
    if s != [] {
      SumOfNonNegative(f, s[1..]);
    }
  }

  /** When `q` holds exactly where `p` fails, the elements passing `p` and
      those passing `q` together make up the whole sum: the two filters
      partition the input. */
  lemma {:induction false} SumOfPartition<T>(f: T -> int, p: T -> bool, q: T -> bool, s: seq<T>)
    requires forall i :: 0 <= i < |s| ==> (q(s[i]) <==> !p(s[i]))
    ensures SumOf(f, Filter(p, s)) + SumOf(f, Filter(q, s)) == SumOf(f, s)
  {
    if s != [] {
      SumOfPartition(f, p, q, s[1..]);
    }
  }

  /** A sum of non-negative terms with one positive term is positive. */
  lemma {:induction false} SumOfPositiveTerm<T>(f: T -> int, s: seq<T>, i: nat)
    requires forall j :: 0 <= j < |s| ==> f(s[j]) >= 0
    requires i < |s| && f(s[i]) > 0
    ensures SumOf(f, s) > 0
  {
    if i == 0 {
      SumOfNonNegative(f, s[1..]);
    } else {
      SumOfPositiveTerm(f, s[1..], i - 1);
    }
  }

  /** Every element passes exactly when the count is the whole length. */
  lemma {:induction false} CountAll<T>(p: T -> bool, s: seq<T>)
    ensures Count(p, s) == |s| <==> forall i :: 0 <= i < |s| ==> p(s[i])
  {
    if s != [] {
      CountAll(p, s[1..]);
      assert forall i :: 1 <= i < |s| ==> s[i] == s[1..][i - 1];
    }
  }

  /** No element passes exactly when the count is zero. */
  lemma CountNone<T>(p: T -> bool, s: seq<T>)
    ensures Count(p, s) == 0 <==> forall i :: 0 <= i < |s| ==> !p(s[i])
  {
    if Count(p, s) != 0 {
      var r := Filter(p, s);
      assert r[0] in s && p(r[0]);
    }
  }

  /** Dropping non-negative terms cannot raise a sum. */
  lemma {:induction false} SumOfFilterAtMost<T>(f: T -> int, p: T -> bool, s: seq<T>)
    requires forall i :: 0 <= i < |s| ==> f(s[i]) >= 0
    ensures SumOf(f, Filter(p, s)) <= SumOf(f, s)
  {
    if s != [] {
      SumOfFilterAtMost(f, p, s[1..]);
    }
  }

  /** How often `x` survives a filter. */
  lemma {:induction false} FilterMultiplicity<T>(p: T -> bool, s: seq<T>, x: T)
    ensures multiset(Filter(p, s))[x] == if p(x) then multiset(s)[x] else 0
  {
    if s != [] {
      FilterMultiplicity(p, s[1..], x);
      assert s == [s[0]] + s[1..];
    }
  }

  /** Reordering the input reorders the filter's output and nothing more. */
  lemma FilterPermutation<T>(p: T -> bool, s: seq<T>, t: seq<T>)
    requires multiset(s) == multiset(t)
    ensures multiset(Filter(p, s)) == multiset(Filter(p, t))
  {
    forall x
      ensures multiset(Filter(p, s))[x] == multiset(Filter(p, t))[x]
    {
      FilterMultiplicity(p, s, x);
      FilterMultiplicity(p, t, x);
    }
  }

  /** Taking the element at `i` out of `t` removes its term from the sum. */
  lemma SumOfRemoveAt<T>(f: T -> int, t: seq<T>, i: nat)
    requires i < |t|
    ensures SumOf(f, t) == f(t[i]) + SumOf(f, t[..i] + t[i + 1..])
  {
    var a, b := t[..i], t[i + 1..];
    var xb := t[i..];
    assert t == a + xb;
    assert xb[1..] == b;
    SumOfConcat(f, a, xb);
    SumOfConcat(f, a, b);
  }

  /** Taking the element at `i` out of `t` removes one copy of it. */
  lemma MultisetRemoveAt<T>(t: seq<T>, i: nat)
    requires i < |t|
    ensures multiset(t[..i] + t[i + 1..]) == multiset(t) - multiset{t[i]}
  {
    assert t == t[..i] + [t[i]] + t[i + 1..];
  }

  /** A sum does not depend on the order of its terms. */
  lemma {:induction false} SumOfPermutation<T>(f: T -> int, s: seq<T>, t: seq<T>)
    requires multiset(s) == multiset(t)
    ensures SumOf(f, s) == SumOf(f, t)
    decreases |s|
  {
    if s == [] {
      assert |t| == |multiset(t)| == 0;
    } else {
      assert s == [s[0]] + s[1..];
      assert s[0] in multiset(t);
      var i :| 0 <= i < |t| && t[i] == s[0];
      SumOfRemoveAt(f, t, i);
      MultisetRemoveAt(t, i);
      assert multiset(s[1..]) == multiset(s) - multiset{s[0]};
      SumOfPermutation(f, s[1..], t[..i] + t[i + 1..]);
    }
  }

  /** Counts of three mutually exclusive predicates add up to at most the length. */
  lemma {:induction false} ExclusiveCountsBounded<T>(p: T -> bool, q: T -> bool, r: T -> bool, s: seq<T>)
    requires forall x :: !(p(x) && q(x)) && !(p(x) && r(x)) && !(q(x) && r(x))
    ensures Count(p, s) + Count(q, s) + Count(r, s) <= |s|
  {
    if s != [] {
      ExclusiveCountsBounded(p, q, r, s[1..]);
    }
  }
}
