/** `Array.prototype.filter` on sequences, and the order-preservation facts the
    tab filter and the line editors rely on. */
module Seqs {

  /** `xs.filter(keep)`: the elements that `keep` accepts, in their original order. */
  function Filter<T(==)>(xs: seq<T>, keep: T -> bool): (r: seq<T>)
    ensures |r| <= |xs|
    ensures forall i :: 0 <= i < |r| ==> r[i] in xs && keep(r[i])
    ensures forall i :: 0 <= i < |xs| && keep(xs[i]) ==> xs[i] in r
  {
    if xs == [] then []
    else (if keep(xs[0]) then [xs[0]] else []) + Filter(xs[1..], keep)
  }

  /** `a` is `b` with some elements left out, the rest in the same order. */
  predicate SubseqOf<T(==)>(a: seq<T>, b: seq<T>)
    decreases |b|
  {
    if a == [] then true
    else if b == [] then false
    else if a[0] == b[0] then SubseqOf(a[1..], b[1..])
    else SubseqOf(a, b[1..])
  }

  lemma {:induction false} SubseqOfSkip<T>(a: seq<T>, b: seq<T>)
    requires b != [] && SubseqOf(a, b[1..])
    ensures SubseqOf(a, b)
    decreases |b|, 0
  {
    if a != [] && a[0] == b[0] {
      SubseqOfTail(a, b[1..]);
    }
  }

  lemma {:induction false} SubseqOfTail<T>(a: seq<T>, b: seq<T>)
    requires a != [] && SubseqOf(a, b)
    ensures SubseqOf(a[1..], b)
    decreases |b|, 1
  {
    if a[0] == b[0] {
      SubseqOfSkip(a[1..], b);
    } else {
      SubseqOfTail(a, b[1..]);
      SubseqOfSkip(a[1..], b);
    }
  }

  lemma {:induction false} SubseqOfSelf<T>(xs: seq<T>)
    ensures SubseqOf(xs, xs)
  {
    if xs != [] {
      SubseqOfSelf(xs[1..]);
    }
  }

  /** Filtering keeps the order of what it keeps. */
  lemma {:induction false} FilterIsSubsequence<T>(xs: seq<T>, keep: T -> bool)
    ensures SubseqOf(Filter(xs, keep), xs)
  {
    if xs != [] {
      FilterIsSubsequence(xs[1..], keep);
      var r := Filter(xs, keep);
      if keep(xs[0]) {
        assert r[1..] == Filter(xs[1..], keep);
      } else {
        assert r == Filter(xs[1..], keep);
        if r != [] { SubseqOfSkip(r, xs); }
      }
    }
  }

  /** Filtering a second time with the same test changes nothing. */
  lemma {:induction false} FilterIdempotent<T>(xs: seq<T>, keep: T -> bool)
    ensures Filter(Filter(xs, keep), keep) == Filter(xs, keep)
  {
    if xs != [] {
      FilterIdempotent(xs[1..], keep);
      var tail := Filter(xs[1..], keep);
      if keep(xs[0]) {
        assert Filter(xs, keep) == [xs[0]] + tail;
        assert ([xs[0]] + tail)[1..] == tail;
      } else {
        assert Filter(xs, keep) == tail;
      }
    }
  }

  /** A filter that accepts every element is the identity. */
  lemma {:induction false} FilterKeepsAll<T>(xs: seq<T>, keep: T -> bool)
    requires forall i :: 0 <= i < |xs| ==> keep(xs[i])
    ensures Filter(xs, keep) == xs
  {
    if xs != [] {
      FilterKeepsAll(xs[1..], keep);
    }
  }

  /** A test and its negation split the sequence: the two results together
      hold every element exactly as often as the input does. */
  lemma {:induction false} FilterSplits<T>(xs: seq<T>, keep: T -> bool, drop: T -> bool)
    requires forall i :: 0 <= i < |xs| ==> drop(xs[i]) == !keep(xs[i])
    ensures |Filter(xs, keep)| + |Filter(xs, drop)| == |xs|
    ensures multiset(Filter(xs, keep)) + multiset(Filter(xs, drop)) == multiset(xs)
  {
    if xs != [] {
      FilterSplits(xs[1..], keep, drop);
      assert xs == [xs[0]] + xs[1..];
    }
  }

  /** Filtering distributes over concatenation. */
  lemma {:induction false} FilterAppend<T>(xs: seq<T>, ys: seq<T>, keep: T -> bool)
    ensures Filter(xs + ys, keep) == Filter(xs, keep) + Filter(ys, keep)
  {
    if xs == [] {
      assert xs + ys == ys;
    } else {
      var head := if keep(xs[0]) then [xs[0]] else [];
      FilterAppend(xs[1..], ys, keep);
      assert (xs + ys)[0] == xs[0];
      assert (xs + ys)[1..] == xs[1..] + ys;
      assert Filter(xs + ys, keep) == head + Filter(xs[1..] + ys, keep);
      assert Filter(xs, keep) == head + Filter(xs[1..], keep);
    }
  }
}
