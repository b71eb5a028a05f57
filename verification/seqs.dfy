/** Order-preserving filters, counts and sums over sequences: the model of
    JavaScript's `Array.prototype.filter`, `.length` of a filter and `reduce` with `+`. */
module Seqs {

  /** `r` can be obtained from `s` by deleting elements, keeping the order of the rest. */
  predicate IsSubseq<T(==)>(r: seq<T>, s: seq<T>)
    decreases |s|
  {
    if r == [] then true
    else if s == [] then false
    else if r[0] == s[0] then IsSubseq(r[1..], s[1..])
    else IsSubseq(r, s[1..])
  }

  /** The number of elements of `s` that satisfy `p`. */
  function Count<T>(p: T -> bool, s: seq<T>): (n: nat)
    ensures n <= |s|
  {
    if s == [] then 0 else (if p(s[0]) then 1 else 0) + Count(p, s[1..])
  }

  /** `s.filter(p)`: the elements satisfying `p`, in their original order. */
  function Filter<T(==)>(p: T -> bool, s: seq<T>): (r: seq<T>)
    ensures IsSubseq(r, s)
    ensures |r| == Count(p, s)
    ensures forall x :: x in r ==> x in s && p(x)
    ensures forall x :: x in s && p(x) ==> x in r
  {
    if s == [] then []
    else if p(s[0]) then [s[0]] + Filter(p, s[1..])
    else Filter(p, s[1..])
  }

  /** The sum of `f` over `s`: `s.reduce((sum, x) => sum + f(x), 0)`. */
  function Sum<T>(f: T -> int, s: seq<T>): int
  {
    if s == [] then 0 else f(s[0]) + Sum(f, s[1..])
  }

  lemma {:induction false} IsSubseqRefl<T>(s: seq<T>)
    ensures IsSubseq(s, s)
  {
    if s != [] {
      IsSubseqRefl(s[1..]);
    }
  }

  /** Filters and counts depend only on what the predicate says about the elements. */
  lemma {:induction false} FilterExt<T>(p: T -> bool, q: T -> bool, s: seq<T>)
    requires forall x :: x in s ==> p(x) == q(x)
    ensures Filter(p, s) == Filter(q, s)
    ensures Count(p, s) == Count(q, s)
  {
    if s != [] {
      assert forall x :: x in s[1..] ==> x in s;
      FilterExt(p, q, s[1..]);
    }
  }

  /** A filter that keeps everything returns its input. */
  lemma {:induction false} FilterAll<T>(p: T -> bool, s: seq<T>)
    requires forall x :: x in s ==> p(x)
    ensures Filter(p, s) == s
  {
    if s != [] {
      assert forall x :: x in s[1..] ==> x in s;
      FilterAll(p, s[1..]);
    }
  }

  /** A sum over all elements splits into the sum over those kept by `p` and those
      kept by its complement `q`. */
  lemma {:induction false} SumSplits<T>(f: T -> int, p: T -> bool, q: T -> bool, s: seq<T>)
    requires forall x :: q(x) == !p(x)
    ensures Sum(f, Filter(p, s)) + Sum(f, Filter(q, s)) == Sum(f, s)
  {
    if s != [] {
      SumSplits(f, p, q, s[1..]);
      if p(s[0]) {
        SumCons(f, s[0], Filter(p, s[1..]));
      } else {
        SumCons(f, s[0], Filter(q, s[1..]));
      }
    }
  }

  lemma SumCons<T>(f: T -> int, x: T, s: seq<T>)
    ensures Sum(f, [x] + s) == f(x) + Sum(f, s)
  {
    assert ([x] + s)[1..] == s;
  }

  /** A sum of non-negative terms is non-negative. */
  lemma {:induction false} SumNonNegative<T>(f: T -> int, s: seq<T>)
    requires forall x :: x in s ==> f(x) >= 0
    ensures Sum(f, s) >= 0
  {
    if s != [] {
      assert forall x :: x in s[1..] ==> x in s;
      SumNonNegative(f, s[1..]);
    }
  }
}
