/** Sequence helpers shared by the incident client and the web front end:
  * filtering (Python list comprehensions with an `if`), reversal, and
  * the subsequence relation that states "order is preserved". */
module Seqs {

  function Last<T>(xs: seq<T>): T
    requires xs != []
  {
    xs[|xs| - 1]
  }

  function Init<T>(xs: seq<T>): seq<T>
    requires xs != []
  {
    xs[..|xs| - 1]
  }

  /** The elements of `xs` that satisfy `p`, in their original order. */
  function Filter<T>(p: T -> bool, xs: seq<T>): (r: seq<T>)
    ensures |r| <= |xs|
    ensures forall x :: x in r ==> x in xs && p(x)
  {
    if xs == [] then [] else Filter(p, Init(xs)) + (if p(Last(xs)) then [Last(xs)] else [])
  }

  /** `a` can be obtained from `b` by deleting elements: the order of what is kept is unchanged. */
  predicate IsSubsequence<T(==)>(a: seq<T>, b: seq<T>)
    decreases |b|
  {
    if a == [] then true
    else if b == [] then false
    else if Last(a) == Last(b) then IsSubsequence(Init(a), Init(b))
    else IsSubsequence(a, Init(b))
  }

  /** `xs` back to front. */
  function Reverse<T>(xs: seq<T>): (r: seq<T>)
    ensures |r| == |xs|
    ensures forall k :: 0 <= k < |xs| ==> r[k] == xs[|xs| - 1 - k]
  {
    if xs == [] then [] else [Last(xs)] + Reverse(Init(xs))
  }

  lemma {:induction false} FilterKeepsEverySatisfier<T>(p: T -> bool, xs: seq<T>, x: T)
    requires x in xs && p(x)
    ensures x in Filter(p, xs)
  {
    if Last(xs) != x {
      assert xs == Init(xs) + [Last(xs)];
      FilterKeepsEverySatisfier(p, Init(xs), x);
    }
  }

  lemma FilterSingleton<T>(p: T -> bool, x: T)
    ensures Filter(p, [x]) == if p(x) then [x] else []
  {
    assert Filter(p, [x]) == Filter(p, []) + (if p(x) then [x] else []);
  }

  lemma FilterCons<T>(p: T -> bool, x: T, xs: seq<T>)
    ensures Filter(p, [x] + xs) == (if p(x) then [x] else []) + Filter(p, xs)
  {
    FilterAppend(p, [x], xs);
    FilterSingleton(p, x);
  }

  /** Two neighbours of which at most one is kept may trade places unnoticed. */
  lemma FilterSwap<T>(p: T -> bool, a: T, b: T, r1: seq<T>, r2: seq<T>)
    requires !(p(a) && p(b))
    requires Filter(p, r1) == Filter(p, [a] + r2)
    ensures Filter(p, [b] + r1) == Filter(p, [a] + ([b] + r2))
  {
    FilterCons(p, b, r1);
    FilterCons(p, a, r2);
    FilterCons(p, a, [b] + r2);
    FilterCons(p, b, r2);
  }

  /** Membership in a filtered sequence, both directions. */
  lemma FilterMembership<T>(p: T -> bool, xs: seq<T>)
    ensures forall x :: x in Filter(p, xs) <==> x in xs && p(x)
  {
    forall x | x in xs && p(x) ensures x in Filter(p, xs) {
      FilterKeepsEverySatisfier(p, xs, x);
    }
  }

  /** Filtering keeps every copy of a satisfying element and no copy of any other. */
  lemma {:induction false} FilterCount<T>(p: T -> bool, xs: seq<T>, x: T)
    ensures multiset(Filter(p, xs))[x] == if p(x) then multiset(xs)[x] else 0
  {
    if xs != [] {
      FilterCount(p, Init(xs), x);
      assert xs == Init(xs) + [Last(xs)];
    }
  }

  lemma {:induction false} FilterIsSubsequence<T>(p: T -> bool, xs: seq<T>)
    ensures IsSubsequence(Filter(p, xs), xs)
  {
    if xs != [] {
      FilterIsSubsequence(p, Init(xs));
      var f := Filter(p, Init(xs));
      if p(Last(xs)) {
        assert Filter(p, xs) == f + [Last(xs)];
        assert Init(f + [Last(xs)]) == f;
      } else if f != [] {
        assert Last(f) in f;
        assert Filter(p, xs) == f;
      }
    }
  }

  /** Filtering with a predicate every element satisfies changes nothing. */
  lemma {:induction false} FilterAllKept<T>(p: T -> bool, xs: seq<T>)
    requires forall x :: x in xs ==> p(x)
    ensures Filter(p, xs) == xs
  {
    if xs != [] {
      FilterAllKept(p, Init(xs));
      assert xs == Init(xs) + [Last(xs)];
    }
  }

  lemma {:induction false} FilterAppend<T>(p: T -> bool, a: seq<T>, b: seq<T>)
    ensures Filter(p, a + b) == Filter(p, a) + Filter(p, b)
    decreases |b|
  {
    if b == [] {
      assert a + b == a;
    } else {
      assert Init(a + b) == a + Init(b);
      assert Last(a + b) == Last(b);
      FilterAppend(p, a, Init(b));
    }
  }

  /** Filtering by `p` after `q`: when `p` implies `q` the first filter is invisible,
    * and when `p` excludes `q` nothing is left. */
  lemma {:induction false} FilterFilter<T>(p: T -> bool, q: T -> bool, xs: seq<T>)
    ensures (forall x :: p(x) ==> q(x)) ==> Filter(p, Filter(q, xs)) == Filter(p, xs)
    ensures (forall x :: p(x) ==> !q(x)) ==> Filter(p, Filter(q, xs)) == []
  {
    if xs != [] {
      FilterFilter(p, q, Init(xs));
      FilterAppend(p, Filter(q, Init(xs)), if q(Last(xs)) then [Last(xs)] else []);
      assert Filter(p, [Last(xs)]) == Filter(p, []) + (if p(Last(xs)) then [Last(xs)] else []);
    }
  }

  lemma ReverseMultiset<T>(xs: seq<T>)
    ensures multiset(Reverse(xs)) == multiset(xs)
  {
    if xs != [] {
      ReverseMultiset(Init(xs));
      assert xs == Init(xs) + [Last(xs)];
    }
  }

  lemma ReverseAppend<T>(a: seq<T>, b: seq<T>)
    ensures Reverse(a + b) == Reverse(b) + Reverse(a)
  {
  }

  /** Filtering commutes with reversal. */
  lemma {:induction false} FilterReverse<T>(p: T -> bool, xs: seq<T>)
    ensures Filter(p, Reverse(xs)) == Reverse(Filter(p, xs))
  {
    if xs != [] {
      var last := [Last(xs)];
      var f := Filter(p, Init(xs));
      var tail := if p(Last(xs)) then last else [];
      assert Filter(p, xs) == f + tail;
      assert Reverse(xs) == last + Reverse(Init(xs));
      FilterAppend(p, last, Reverse(Init(xs)));
      FilterReverse(p, Init(xs));
      FilterSingleton(p, Last(xs));
      ReverseAppend(f, tail);
      assert Reverse(tail) == tail;
    }
  }
}
