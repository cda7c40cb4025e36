/** Order-preserving filtering of sequences, the model of `Array.prototype.filter`
    and of Rust's `iter().filter()`. */
module Seqs {
  import opened Wrappers

  function Filter<T>(xs: seq<T>, keep: T -> bool): (r: seq<T>)
    ensures |r| <= |xs|
  {
    if xs == [] then [] else (if keep(xs[0]) then [xs[0]] else []) + Filter(xs[1..], keep)
  }

  /** Filtering distributes over concatenation: the survivors keep their relative order. */
  lemma {:induction false} FilterConcat<T>(a: seq<T>, b: seq<T>, keep: T -> bool)
    ensures Filter(a + b, keep) == Filter(a, keep) + Filter(b, keep)
  {
    if a == [] {
      assert a + b == b;
    } else {
      var head := if keep(a[0]) then [a[0]] else [];
      assert (a + b)[0] == a[0];
      assert (a + b)[1..] == a[1..] + b;
      FilterConcat(a[1..], b, keep);
      calc {
        Filter(a + b, keep);
        head + Filter(a[1..] + b, keep);
        head + (Filter(a[1..], keep) + Filter(b, keep));
        (head + Filter(a[1..], keep)) + Filter(b, keep);
      }
    }
  }

  /** An element survives exactly when it was there and passes the test. */
  lemma {:induction false} FilterMembership<T>(xs: seq<T>, keep: T -> bool, x: T)
    ensures x in Filter(xs, keep) <==> x in xs && keep(x)
  {
    if xs != [] {
      FilterMembership(xs[1..], keep, x);
      assert xs == [xs[0]] + xs[1..];
    }
  }

  /** A filter that keeps everything returns its input. */
  lemma {:induction false} FilterKeepsAll<T>(xs: seq<T>, keep: T -> bool)
    requires forall i :: 0 <= i < |xs| ==> keep(xs[i])
    ensures Filter(xs, keep) == xs
  {
    if xs != [] {
      FilterKeepsAll(xs[1..], keep);
    }
  }

  predicate NoDuplicates<T(==)>(xs: seq<T>)
  {
    forall i, j :: 0 <= i < j < |xs| ==> xs[i] != xs[j]
  }

  /** Filtering never introduces a duplicate. */
  lemma {:induction false} FilterNoDuplicates<T>(xs: seq<T>, keep: T -> bool)
    requires NoDuplicates(xs)
    ensures NoDuplicates(Filter(xs, keep))
  {
    if xs != [] {
      FilterNoDuplicates(xs[1..], keep);
      FilterMembership(xs[1..], keep, xs[0]);
      var rest := Filter(xs[1..], keep);
      assert xs[0] !in xs[1..];
      if keep(xs[0]) {
        assert xs[0] !in rest;
        assert Filter(xs, keep) == [xs[0]] + rest;
      }
    }
  }

  /** Number of elements passing a test. */
  function Count<T>(xs: seq<T>, p: T -> bool): nat
  {
    |Filter(xs, p)|
  }

  /** Counting over a sequence grown by one element. */
  lemma CountSnoc<T>(xs: seq<T>, x: T, p: T -> bool)
    ensures Count(xs + [x], p) == Count(xs, p) + (if p(x) then 1 else 0)
  {
    FilterConcat(xs, [x], p);
    assert Filter([x], p) == (if p(x) then [x] else []) + Filter([x][1..], p);
  }

  /** Nothing is counted exactly when nothing passes the test. */
  lemma CountZero<T>(xs: seq<T>, p: T -> bool)
    ensures Count(xs, p) == 0 <==> forall i :: 0 <= i < |xs| ==> !p(xs[i])
  {
    if Count(xs, p) != 0 {
      var f := Filter(xs, p);
      FilterMembership(xs, p, f[0]);
    } else {
      forall i | 0 <= i < |xs| ensures !p(xs[i]) {
        FilterMembership(xs, p, xs[i]);
      }
    }
  }

  /** Position `i` holds the first element passing the test. */
  predicate FirstAt<T>(xs: seq<T>, p: T -> bool, i: int)
  {
    0 <= i < |xs| && p(xs[i]) && forall j :: 0 <= j < i ==> !p(xs[j])
  }

  /** `Array.prototype.find`: the first element passing the test, if any. */
  function Find<T(==)>(xs: seq<T>, p: T -> bool): (r: Option<T>)
    ensures r.None? <==> forall i :: 0 <= i < |xs| ==> !p(xs[i])
    ensures r.Some? ==> exists i :: FirstAt(xs, p, i) && xs[i] == r.value
  {
    if xs == [] then None
    else if p(xs[0]) then (assert FirstAt(xs, p, 0); Some(xs[0]))
    else
      var rest := Find(xs[1..], p);
      if rest.Some? then
        var i :| FirstAt(xs[1..], p, i) && xs[1..][i] == rest.value;
        assert FirstAt(xs, p, i + 1);
        rest
      else rest
  }
}
