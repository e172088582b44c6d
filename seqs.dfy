/** Generic list operations used by the dashboard screens: the `Array.prototype.filter`,
    `.filter(...).length` and `.reduce((sum, x) => sum + f(x), 0)` idioms, plus the
    subsequence relation that every screen filter's output has to its input. */
module Seqs {

  /** `a` can be obtained from `b` by deleting elements, keeping the order. */
  ghost predicate IsSubsequence<T>(a: seq<T>, b: seq<T>)
    decreases |b|
  {
    if a == [] then true
    else if b == [] then false
    else if a[0] == b[0] then IsSubsequence(a[1..], b[1..])
    else IsSubsequence(a, b[1..])
  }

  /** `xs.filter(p)`: the elements of `xs` that satisfy `p`, in their original order. */
  function Filter<T>(xs: seq<T>, p: T -> bool): (r: seq<T>)
    ensures |r| <= |xs|
    ensures forall x :: x in r ==> x in xs && p(x)
  {
    if xs == [] then []
    else if p(xs[0]) then [xs[0]] + Filter(xs[1..], p)
    else Filter(xs[1..], p)
  }

  /** `xs.filter(p).length`. */
  function Count<T>(xs: seq<T>, p: T -> bool): (n: nat)
    ensures n <= |xs|
  {
    |Filter(xs, p)|
  }

  /** `xs.reduce((sum, x) => sum + f(x), 0)`. */
  function Sum<T>(xs: seq<T>, f: T -> int): int
  {
    if xs == [] then 0 else f(xs[0]) + Sum(xs[1..], f)
  }

  /** The output of a filter is a subsequence of its input. */
  lemma {:induction false} FilterIsSubsequence<T>(xs: seq<T>, p: T -> bool)
    ensures IsSubsequence(Filter(xs, p), xs)
  {
    if xs != [] {
      FilterIsSubsequence(xs[1..], p);
      var rest := Filter(xs[1..], p);
      if p(xs[0]) {
        assert Filter(xs, p) == [xs[0]] + rest;
        assert ([xs[0]] + rest)[1..] == rest;
      } else {
        SubsequenceOfTail(rest, xs);
      }
    }
  }

  /** A subsequence of the tail of `b` is a subsequence of `b`. */
  lemma {:induction false} SubsequenceOfTail<T>(a: seq<T>, b: seq<T>)
    requires b != [] && IsSubsequence(a, b[1..])
    ensures IsSubsequence(a, b)
    decreases |b|, 0
  {
    if a != [] && a[0] == b[0] {
      // the greedy match consumes b[0]; a[1..] still embeds into b[1..]
      DropHead(a, b[1..]);
    }
  }

  /** Dropping the head of a subsequence keeps it a subsequence. */
  lemma {:induction false} DropHead<T>(a: seq<T>, b: seq<T>)
    requires a != [] && IsSubsequence(a, b)
    ensures IsSubsequence(a[1..], b)
    decreases |b|, 1
  {
    assert b != [];
    if a[0] == b[0] {
      SubsequenceOfTail(a[1..], b);
    } else {
      DropHead(a, b[1..]);
      SubsequenceOfTail(a[1..], b);
    }
  }

  /** Nothing that passes the test is dropped: an element of `xs` satisfying `p` is kept. */
  lemma {:induction false} FilterKeeps<T>(xs: seq<T>, p: T -> bool, x: T)
    requires x in xs && p(x)
    ensures x in Filter(xs, p)
  {
    if xs[0] != x {
      FilterKeeps(xs[1..], p, x);
    }
  }

  /** The filter keeps every copy of an element that passes and no copy of one that fails. */
  lemma {:induction false} FilterMultiset<T>(xs: seq<T>, p: T -> bool)
    ensures forall x :: multiset(Filter(xs, p))[x] == if p(x) then multiset(xs)[x] else 0
  {
    if xs != [] {
      FilterMultiset(xs[1..], p);
      assert xs == [xs[0]] + xs[1..];
      assert multiset(xs) == multiset{xs[0]} + multiset(xs[1..]);
    }
  }

  /** When every element passes, the filter returns its input unchanged. */
  lemma {:induction false} FilterAllPass<T>(xs: seq<T>, p: T -> bool)
    requires forall x :: x in xs ==> p(x)
    ensures Filter(xs, p) == xs
  {
    if xs != [] {
      FilterAllPass(xs[1..], p);
    }
  }

  /** Filtering distributes over concatenation. */
  lemma {:induction false} FilterAppend<T>(xs: seq<T>, ys: seq<T>, p: T -> bool)
    ensures Filter(xs + ys, p) == Filter(xs, p) + Filter(ys, p)
  {
    if xs == [] {
      assert xs + ys == ys;
    } else {
      assert (xs + ys)[0] == xs[0];
      assert (xs + ys)[1..] == xs[1..] + ys;
      FilterAppend(xs[1..], ys, p);
    }
  }

  /** A sum of non-negative terms is non-negative. */
  lemma {:induction false} SumNonNegative<T>(xs: seq<T>, f: T -> int)
    requires forall x :: x in xs ==> f(x) >= 0
    ensures Sum(xs, f) >= 0
  {
    if xs != [] {
      SumNonNegative(xs[1..], f);
    }
  }

  /** A total over the elements that pass a test: never negative when those elements have
      non-negative values, and 0 when nothing passes. */
  lemma FilteredSumBounds<T>(xs: seq<T>, p: T -> bool, f: T -> int)
    ensures (forall x :: x in xs && p(x) ==> f(x) >= 0) ==> Sum(Filter(xs, p), f) >= 0
    ensures (forall x :: x in xs ==> !p(x)) ==> Sum(Filter(xs, p), f) == 0
  {
    var r := Filter(xs, p);
    if forall x :: x in xs && p(x) ==> f(x) >= 0 {
      SumNonNegative(r, f);
    }
    if r != [] {
      assert r[0] in r;
    }
  }

  /** Summing distributes over concatenation. */
  lemma {:induction false} SumAppend<T>(xs: seq<T>, ys: seq<T>, f: T -> int)
    ensures Sum(xs + ys, f) == Sum(xs, f) + Sum(ys, f)
  {
    if xs == [] {
      assert xs + ys == ys;
    } else {
      assert (xs + ys)[0] == xs[0];
      assert (xs + ys)[1..] == xs[1..] + ys;
      SumAppend(xs[1..], ys, f);
    }
  }

  /** Replacing one element changes a count by at most that element's own contribution. */
  lemma CountReplace<T>(xs: seq<T>, k: nat, y: T, p: T -> bool)
    requires k < |xs|
    ensures Count(xs[k := y], p) + (if p(xs[k]) then 1 else 0)
            == Count(xs, p) + (if p(y) then 1 else 0)
  {
    var pre, post := xs[..k], xs[k + 1..];
    assert xs == pre + [xs[k]] + post;
    assert xs[k := y] == pre + [y] + post;
    FilterAppend(pre + [xs[k]], post, p);
    FilterAppend(pre, [xs[k]], p);
    FilterAppend(pre + [y], post, p);
    FilterAppend(pre, [y], p);
  }

  /** The same for a sum over the elements that pass a filter. */
  lemma FilteredSumReplace<T>(xs: seq<T>, k: nat, y: T, p: T -> bool, f: T -> int)
    requires k < |xs|
    ensures Sum(Filter(xs[k := y], p), f) + (if p(xs[k]) then f(xs[k]) else 0)
            == Sum(Filter(xs, p), f) + (if p(y) then f(y) else 0)
  {
    var pre, post := xs[..k], xs[k + 1..];
    assert xs == pre + [xs[k]] + post;
    assert xs[k := y] == pre + [y] + post;
    FilterAppend(pre + [xs[k]], post, p);
    FilterAppend(pre, [xs[k]], p);
    FilterAppend(pre + [y], post, p);
    FilterAppend(pre, [y], p);
    SumAppend(Filter(pre, p) + Filter([xs[k]], p), Filter(post, p), f);
    SumAppend(Filter(pre, p), Filter([xs[k]], p), f);
    SumAppend(Filter(pre, p) + Filter([y], p), Filter(post, p), f);
    SumAppend(Filter(pre, p), Filter([y], p), f);
    assert Sum(Filter([xs[k]], p), f) == if p(xs[k]) then f(xs[k]) else 0;
    assert Sum(Filter([y], p), f) == if p(y) then f(y) else 0;
  }
}
