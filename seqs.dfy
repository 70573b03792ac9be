/** Sequence helpers shared by the handlers and pages: the `reduce` sums,
    `filter`, counting, a stable insertion sort standing for the store's
    `sort`, and `slice`/`limit`. */
module Seqs {
  import opened Wrappers

  /** `findById`: the position of the first element whose key is `k`, and
      `None` exactly when no element has that key. */
  function FindByKey<T>(xs: seq<T>, key: T -> int, k: int): (r: Option<nat>)
    ensures r.Some? ==> r.value < |xs| && key(xs[r.value]) == k
    ensures r.None? <==> forall i :: 0 <= i < |xs| ==> key(xs[i]) != k
  {
    if xs == [] then None
    else if key(xs[0]) == k then Some(0)
    else match FindByKey(xs[1..], key, k)
      case None => None
      case Some(i) => Some(i + 1)
  }

  /** `xs.reduce((sum, x) => sum + f(x), 0)`. */
  function SumOf<T>(xs: seq<T>, f: T -> int): int
  {
    if xs == [] then 0 else SumOf(xs[..|xs| - 1], f) + f(xs[|xs| - 1])
  }

  lemma {:induction false} SumOfAppend<T>(xs: seq<T>, ys: seq<T>, f: T -> int)
    ensures SumOf(xs + ys, f) == SumOf(xs, f) + SumOf(ys, f)
    decreases |ys|
  {
    if ys == [] {
      assert xs + ys == xs;
    } else {
      var ys' := ys[..|ys| - 1];
      assert (xs + ys)[..|xs + ys| - 1] == xs + ys';
      SumOfAppend(xs, ys', f);
    }
  }

  lemma SumOfCons<T>(x: T, xs: seq<T>, f: T -> int)
    ensures SumOf([x] + xs, f) == f(x) + SumOf(xs, f)
  {
    SumOfAppend([x], xs, f);
    assert [x][..0] == [];
  }

  lemma {:induction false} SumOfNonNegative<T>(xs: seq<T>, f: T -> int)
    requires forall i :: 0 <= i < |xs| ==> f(xs[i]) >= 0
    ensures SumOf(xs, f) >= 0
  {
    if xs != [] {
      SumOfNonNegative(xs[..|xs| - 1], f);
    }
  }

  /** A sum does not depend on the order of its terms. */
  lemma {:induction false} SumOfPermutation<T>(a: seq<T>, b: seq<T>, f: T -> int)
    requires multiset(a) == multiset(b)
    ensures SumOf(a, f) == SumOf(b, f)
    decreases |a|
  {
    if a != [] {
      var x := a[|a| - 1];
      var a' := a[..|a| - 1];
      assert a == a' + [x];
      assert x in multiset(b);
      var j :| 0 <= j < |b| && b[j] == x;
      var b' := b[..j] + b[j + 1..];
      assert b == b[..j] + [x] + b[j + 1..];
      assert multiset(b) == multiset(b[..j]) + multiset{x} + multiset(b[j + 1..]);
      assert multiset(a) == multiset(a') + multiset{x};
      assert multiset(b') == multiset(b[..j]) + multiset(b[j + 1..]);
      assert multiset(a') == multiset(a) - multiset{x};
      assert multiset(b') == multiset(b) - multiset{x};
      SumOfPermutation(a', b', f);
      SumOfAppend(b[..j] + [x], b[j + 1..], f);
      SumOfAppend(b[..j], b[j + 1..], f);
    }
  }

  /** A filter whose predicate holds nowhere returns nothing. */
  lemma {:induction false} FilterNone<T>(xs: seq<T>, p: T -> bool)
    requires forall i :: 0 <= i < |xs| ==> !p(xs[i])
    ensures Filter(xs, p) == []
  {
    if xs != [] {
      FilterNone(xs[1..], p);
    }
  }

  /** `xs.map(f)`. */
  function Map<T, U>(xs: seq<T>, f: T -> U): (r: seq<U>)
    ensures |r| == |xs|
    ensures forall i :: 0 <= i < |xs| ==> r[i] == f(xs[i])
  {
    if xs == [] then [] else [f(xs[0])] + Map(xs[1..], f)
  }

  lemma {:induction false} MapAppend<T, U>(a: seq<T>, b: seq<T>, f: T -> U)
    ensures Map(a + b, f) == Map(a, f) + Map(b, f)
  {
    if a != [] {
      assert (a + b)[1..] == a[1..] + b;
      MapAppend(a[1..], b, f);
    }
  }

  /** Taking out the element at `j`. */
  lemma RemoveAt<T>(b: seq<T>, j: int)
    requires 0 <= j < |b|
    ensures b == b[..j] + ([b[j]] + b[j + 1..])
    ensures multiset(b[..j] + b[j + 1..]) == multiset(b) - multiset{b[j]}
  {
    assert b == b[..j] + ([b[j]] + b[j + 1..]);
    assert multiset(b) == multiset(b[..j]) + multiset{b[j]} + multiset(b[j + 1..]);
  }

  /** Mapping a rearrangement gives a rearrangement of the images. */
  lemma {:induction false} MapPermutation<T, U>(a: seq<T>, b: seq<T>, f: T -> U)
    requires multiset(a) == multiset(b)
    ensures multiset(Map(a, f)) == multiset(Map(b, f))
    decreases |a|
  {
    if a == [] {
      assert |b| == |multiset(b)| == 0;
    } else {
      assert a[0] in multiset(b);
      var j :| 0 <= j < |b| && b[j] == a[0];
      RemoveAt(b, j);
      assert a == [a[0]] + a[1..];
      assert multiset(a[1..]) == multiset(b[..j] + b[j + 1..]);
      MapPermutation(a[1..], b[..j] + b[j + 1..], f);
      MapPermutationStep(a[0], a[1..], b[..j], b[j + 1..], f);
    }
  }

  /** Putting `x` in front of one side and between `front` and `back` on
      the other keeps the images a rearrangement of each other. */
  lemma MapPermutationStep<T, U>(x: T, rest: seq<T>, front: seq<T>, back: seq<T>, f: T -> U)
    requires multiset(Map(rest, f)) == multiset(Map(front + back, f))
    ensures multiset(Map([x] + rest, f)) == multiset(Map(front + ([x] + back), f))
  {
    MapAppend([x], rest, f);
    MapAppend(front, [x] + back, f);
    MapAppend(front, back, f);
    MapAppend([x], back, f);
  }

  /** `xs.filter(p)`. */
  function Filter<T(==)>(xs: seq<T>, p: T -> bool): (r: seq<T>)
    ensures |r| <= |xs|
    ensures forall i :: 0 <= i < |r| ==> r[i] in xs && p(r[i])
    ensures forall i :: 0 <= i < |xs| && p(xs[i]) ==> xs[i] in r
    ensures IsSubsequence(r, xs)
  {
    if xs == [] then []
    else
      var rest := Filter(xs[1..], p);
      SubsequenceSkip(rest, xs[1..], xs[0]);
      if p(xs[0]) then [xs[0]] + rest else rest
  }

  lemma {:induction false} FilterAppend<T>(xs: seq<T>, ys: seq<T>, p: T -> bool)
    ensures Filter(xs + ys, p) == Filter(xs, p) + Filter(ys, p)
  {
    if xs == [] {
      assert xs + ys == ys;
    } else {
      assert (xs + ys)[1..] == xs[1..] + ys;
      FilterAppend(xs[1..], ys, p);
    }
  }

  /** Two successive filters keep what both predicates accept. */
  lemma {:induction false} FilterFilter<T>(xs: seq<T>, p: T -> bool, q: T -> bool)
    ensures Filter(Filter(xs, p), q) == Filter(xs, x => p(x) && q(x))
  {
    if xs != [] {
      FilterFilter(xs[1..], p, q);
    }
  }

  /** A filter whose predicate holds everywhere returns its input. */
  lemma {:induction false} FilterAll<T>(xs: seq<T>, p: T -> bool)
    requires forall i :: 0 <= i < |xs| ==> p(xs[i])
    ensures Filter(xs, p) == xs
  {
    if xs != [] {
      FilterAll(xs[1..], p);
    }
  }

  /** `xs.filter(p).length`. */
  function Count<T(==)>(xs: seq<T>, p: T -> bool): (n: nat)
    ensures n == |Filter(xs, p)|
  {
    if xs == [] then 0 else (if p(xs[0]) then 1 else 0) + Count(xs[1..], p)
  }

  /** Counting by a predicate that splits into two exclusive ones. */
  lemma {:induction false} CountDisjointUnion<T>(xs: seq<T>, p: T -> bool, q: T -> bool, r: T -> bool)
    requires forall i :: 0 <= i < |xs| ==> (r(xs[i]) <==> p(xs[i]) || q(xs[i])) && !(p(xs[i]) && q(xs[i]))
    ensures Count(xs, r) == Count(xs, p) + Count(xs, q)
  {
    if xs != [] {
      CountDisjointUnion(xs[1..], p, q, r);
    }
  }

  /** `r` is `xs` with some elements left out and the rest kept in order. */
  predicate IsSubsequence<T(==)>(r: seq<T>, xs: seq<T>)
  {
    if r == [] then true
    else if xs == [] then false
    else if r[0] == xs[0] then IsSubsequence(r[1..], xs[1..])
    else IsSubsequence(r, xs[1..])
  }

  lemma {:induction false} SubsequenceSkip<T>(r: seq<T>, xs: seq<T>, x: T)
    requires IsSubsequence(r, xs)
    ensures IsSubsequence(r, [x] + xs)
    ensures IsSubsequence([x] + r, [x] + xs)
  {
    assert ([x] + xs)[1..] == xs;
    assert ([x] + r)[1..] == r;
    if r != [] && r[0] == x {
      SubsequenceDropHead(r, xs);
    }
  }

  lemma {:induction false} SubsequenceDropHead<T>(r: seq<T>, xs: seq<T>)
    requires r != [] && IsSubsequence(r, xs)
    ensures IsSubsequence(r[1..], xs)
  {
    if r[0] == xs[0] {
      SubsequenceOfTail(r[1..], xs);
    } else {
      SubsequenceDropHead(r, xs[1..]);
      SubsequenceOfTail(r[1..], xs);
    }
  }

  lemma {:induction false} SubsequenceOfTail<T>(r: seq<T>, xs: seq<T>)
    requires xs != [] && IsSubsequence(r, xs[1..])
    ensures IsSubsequence(r, xs)
  {
    if r != [] && r[0] == xs[0] {
      SubsequenceDropHead(r, xs[1..]);
    }
  }

  /** A subsequence of a subsequence is a subsequence. */
  lemma {:induction false} SubsequenceTransitive<T>(a: seq<T>, b: seq<T>, c: seq<T>)
    requires IsSubsequence(a, b) && IsSubsequence(b, c)
    ensures IsSubsequence(a, c)
    decreases |c|
  {
    if a == [] {
    } else if b[0] == c[0] {
      if a[0] == b[0] {
        SubsequenceTransitive(a[1..], b[1..], c[1..]);
      } else {
        SubsequenceTransitive(a, b[1..], c[1..]);
      }
    } else {
      SubsequenceTransitive(a, b, c[1..]);
      SubsequenceOfTail(a, c);
    }
  }

  lemma {:induction false} SubsequenceRefl<T>(xs: seq<T>)
    ensures IsSubsequence(xs, xs)
  {
    if xs != [] {
      SubsequenceRefl(xs[1..]);
    }
  }

  /** `if (active) xs = xs.filter(p)`: one optional step of a page's filter
      chain. */
  function FilterIf<T(==)>(xs: seq<T>, active: bool, p: T -> bool): (r: seq<T>)
    ensures IsSubsequence(r, xs)
    ensures forall i :: 0 <= i < |r| ==> r[i] in xs && (!active || p(r[i]))
    ensures forall i :: 0 <= i < |xs| && (!active || p(xs[i])) ==> xs[i] in r
  {
    if active then Filter(xs, p)
    else
      SubsequenceRefl(xs);
      xs
  }

  /** Appending one optional step to a filter chain: what was kept by
      `keep` and passes the step is kept, in order. */
  lemma FilterIfStep<T>(xs: seq<T>, mid: seq<T>, keep: T -> bool, active: bool, p: T -> bool)
    requires IsSubsequence(mid, xs)
    requires forall i :: 0 <= i < |mid| ==> mid[i] in xs && keep(mid[i])
    requires forall i :: 0 <= i < |xs| && keep(xs[i]) ==> xs[i] in mid
    ensures IsSubsequence(FilterIf(mid, active, p), xs)
    ensures forall x :: x in FilterIf(mid, active, p) ==> x in xs && keep(x) && (!active || p(x))
    ensures forall i :: 0 <= i < |xs| && keep(xs[i]) && (!active || p(xs[i])) ==> xs[i] in FilterIf(mid, active, p)
  {
    var r := FilterIf(mid, active, p);
    SubsequenceTransitive(r, mid, xs);
    forall x | x in r ensures x in xs && keep(x) && (!active || p(x)) {
      var j :| 0 <= j < |r| && r[j] == x;
      var k :| 0 <= k < |mid| && mid[k] == x;
    }
    forall i | 0 <= i < |xs| && keep(xs[i]) && (!active || p(xs[i])) ensures xs[i] in r {
      var k :| 0 <= k < |mid| && mid[k] == xs[i];
    }
  }

  /** Four optional filters in a row keep the order and exactly the
      elements that pass every active one. */
  lemma FilterIfChain<T>(xs: seq<T>, a1: bool, p1: T -> bool, a2: bool, p2: T -> bool,
                         a3: bool, p3: T -> bool, a4: bool, p4: T -> bool)
    ensures var r := FilterIf(FilterIf(FilterIf(FilterIf(xs, a1, p1), a2, p2), a3, p3), a4, p4);
      && IsSubsequence(r, xs)
      && (forall x :: x in r ==> x in xs && (!a1 || p1(x)) && (!a2 || p2(x)) && (!a3 || p3(x)) && (!a4 || p4(x)))
      && (forall i :: 0 <= i < |xs| && (!a1 || p1(xs[i])) && (!a2 || p2(xs[i])) && (!a3 || p3(xs[i])) && (!a4 || p4(xs[i]))
            ==> xs[i] in r)
  {
    var k1 := (x: T) => !a1 || p1(x);
    var k2 := (x: T) => k1(x) && (!a2 || p2(x));
    var k3 := (x: T) => k2(x) && (!a3 || p3(x));
    var s1 := FilterIf(xs, a1, p1);
    var s2 := FilterIf(s1, a2, p2);
    var s3 := FilterIf(s2, a3, p3);
    FilterIfStep(xs, s1, k1, a2, p2);
    FilterIfStep(xs, s2, k2, a3, p3);
    FilterIfStep(xs, s3, k3, a4, p4);
  }

  /** The sums over two filters with exclusive predicates add up to no more
      than the sum over everything, when no term is negative. */
  lemma {:induction false} SumOfDisjointFilters<T>(xs: seq<T>, f: T -> int, p: T -> bool, q: T -> bool)
    requires forall i :: 0 <= i < |xs| ==> f(xs[i]) >= 0 && !(p(xs[i]) && q(xs[i]))
    ensures SumOf(Filter(xs, p), f) + SumOf(Filter(xs, q), f) <= SumOf(xs, f)
  {
    if xs != [] {
      var x := xs[0];
      var rest := xs[1..];
      assert xs == [x] + rest;
      SumOfDisjointFilters(rest, f, p, q);
      SumOfCons(x, rest, f);
      if p(x) {
        SumOfCons(x, Filter(rest, p), f);
      }
      if q(x) {
        SumOfCons(x, Filter(rest, q), f);
      }
    }
  }

  /** Leaving out only zero terms does not change a sum. */
  lemma {:induction false} SumOfFilterDropsZeros<T>(xs: seq<T>, f: T -> int, p: T -> bool)
    requires forall i :: 0 <= i < |xs| && !p(xs[i]) ==> f(xs[i]) == 0
    ensures SumOf(Filter(xs, p), f) == SumOf(xs, f)
  {
    if xs != [] {
      var x := xs[0];
      var rest := xs[1..];
      assert xs == [x] + rest;
      SumOfFilterDropsZeros(rest, f, p);
      SumOfCons(x, rest, f);
      if p(x) {
        SumOfCons(x, Filter(rest, p), f);
      }
    }
  }

  lemma {:induction false} SumOfNonPositive<T>(xs: seq<T>, f: T -> int)
    requires forall i :: 0 <= i < |xs| ==> f(xs[i]) <= 0
    ensures SumOf(xs, f) <= 0
  {
    if xs != [] {
      SumOfNonPositive(xs[..|xs| - 1], f);
    }
  }

  /** The sum over a filter is at most the sum over everything, when no
      term is negative. */
  lemma SumOfFilterAtMost<T>(xs: seq<T>, f: T -> int, p: T -> bool)
    requires forall i :: 0 <= i < |xs| ==> f(xs[i]) >= 0
    ensures SumOf(Filter(xs, p), f) <= SumOf(xs, f)
  {
    var none := (x: T) => false;
    FilterNone(xs, none);
    SumOfDisjointFilters(xs, f, p, none);
  }

  /** `leq` is total and transitive, as a sort comparator must be. */
  ghost predicate TotalPreorder<T(!new)>(leq: (T, T) -> bool)
  {
    && (forall a, b :: leq(a, b) || leq(b, a))
    && (forall a, b, c :: leq(a, b) && leq(b, c) ==> leq(a, c))
  }

  predicate SortedBy<T>(xs: seq<T>, leq: (T, T) -> bool)
  {
    forall i, j :: 0 <= i < j < |xs| ==> leq(xs[i], xs[j])
  }

  /** Puts `x` before the first element it is `leq` to. */
  function InsertBy<T(==,!new)>(x: T, xs: seq<T>, leq: (T, T) -> bool): (r: seq<T>)
    ensures multiset(r) == multiset(xs) + multiset{x}
  {
    if xs == [] then [x]
    else if leq(x, xs[0]) then [x] + xs
    else
      assert xs == [xs[0]] + xs[1..];
      [xs[0]] + InsertBy(x, xs[1..], leq)
  }

  lemma {:induction false} InsertBySorted<T(!new)>(x: T, xs: seq<T>, leq: (T, T) -> bool)
    requires TotalPreorder(leq) && SortedBy(xs, leq)
    ensures SortedBy(InsertBy(x, xs, leq), leq)
  {
    if xs != [] && !leq(x, xs[0]) {
      var rest := InsertBy(x, xs[1..], leq);
      InsertBySorted(x, xs[1..], leq);
      assert xs == [xs[0]] + xs[1..];
      forall j | 0 <= j < |rest| ensures leq(xs[0], rest[j]) {
        assert rest[j] in multiset(rest);
        if rest[j] != x {
          assert rest[j] in multiset(xs[1..]);
          var k :| 0 <= k < |xs[1..]| && xs[1..][k] == rest[j];
          assert xs[k + 1] == rest[j];
        }
      }
    }
  }

  /** A stable sort of `xs` by `leq`, standing for the store's `sort`. */
  function SortBy<T(==,!new)>(xs: seq<T>, leq: (T, T) -> bool): (r: seq<T>)
    ensures multiset(r) == multiset(xs)
    ensures |r| == |xs|
    ensures TotalPreorder(leq) ==> SortedBy(r, leq)
  {
    if xs == [] then []
    else
      assert xs == [xs[0]] + xs[1..];
      var r := InsertBy(xs[0], SortBy(xs[1..], leq), leq);
      assert |r| == |multiset(r)|;
      assert TotalPreorder(leq) ==> SortedBy(r, leq) by {
        if TotalPreorder(leq) {
          InsertBySorted(xs[0], SortBy(xs[1..], leq), leq);
        }
      }
      r
  }

  /** `find(filter).sort(order)`: the elements `p` selects, sorted by `leq`. */
  function SelectSorted<T(==,!new)>(xs: seq<T>, p: T -> bool, leq: (T, T) -> bool): (r: seq<T>)
    ensures multiset(r) == multiset(Filter(xs, p))
    ensures TotalPreorder(leq) ==> SortedBy(r, leq)
    ensures forall i :: 0 <= i < |r| ==> r[i] in xs && p(r[i])
    ensures forall i :: 0 <= i < |xs| && p(xs[i]) ==> xs[i] in r
  {
    var selected := Filter(xs, p);
    var r := SortBy(selected, leq);
    assert forall i :: 0 <= i < |r| ==> r[i] in multiset(selected);
    assert forall i :: 0 <= i < |xs| && p(xs[i]) ==> xs[i] in multiset(r);
    r
  }

  /** `xs.slice(0, n)`, the store's `limit(n)`. */
  function Take<T>(xs: seq<T>, n: nat): (r: seq<T>)
    ensures |r| <= n && |r| <= |xs|
    ensures |xs| <= n ==> r == xs
    ensures forall i :: 0 <= i < |r| ==> r[i] == xs[i]
  {
    if |xs| <= n then xs else xs[..n]
  }

  /** The first `n` of a sorted sequence come no later than any of the
      rest. */
  lemma TakeOfSortedIsTop<T>(s: seq<T>, n: nat, leq: (T, T) -> bool)
    requires SortedBy(s, leq)
    ensures multiset(Take(s, n)) <= multiset(s)
    ensures forall x, i :: x in multiset(s) - multiset(Take(s, n)) && 0 <= i < |Take(s, n)| ==> leq(Take(s, n)[i], x)
  {
    var r := Take(s, n);
    if |s| > n {
      var rest := s[n..];
      assert s == r + rest;
      assert multiset(s) == multiset(r) + multiset(rest);
      forall x, i | x in multiset(s) - multiset(r) && 0 <= i < |r|
        ensures leq(r[i], x)
      {
        assert x in multiset(rest);
        var j :| 0 <= j < |rest| && rest[j] == x;
        assert s[n + j] == x;
      }
    }
  }
}
