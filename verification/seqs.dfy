/** Sequence operations the stores and components use: `filter`, index removal, `slice(0, n)` and `flatMap`. */
module Seqs {

  /** `s.filter(keep)`. */
  function Filter<T>(s: seq<T>, keep: T -> bool): (r: seq<T>)
    ensures |r| <= |s|
    ensures forall x :: x in r ==> x in s && keep(x)
    ensures forall x :: x in s && keep(x) ==> x in r
  {
    if s == [] then []
    else
      var rest := Filter(s[1..], keep);
      assert forall x :: x in s ==> x == s[0] || x in s[1..];
      (if keep(s[0]) then [s[0]] else []) + rest
  }

  /** A filter keeps exactly as many elements as satisfy the predicate. */
  lemma {:induction false} FilterCount<T>(s: seq<T>, keep: T -> bool)
    ensures |Filter(s, keep)| == Count(s, keep)
  {
    if s != [] {
      FilterCount(s[1..], keep);
      FilterCons(s, keep);
    }
  }

  /** Filtering distributes over concatenation, so the kept elements stay in their original order. */
  lemma {:induction false} FilterConcat<T>(a: seq<T>, b: seq<T>, keep: T -> bool)
    ensures Filter(a + b, keep) == Filter(a, keep) + Filter(b, keep)
  {
    if a != [] {
      var ab := a + b;
      assert ab[1..] == a[1..] + b;
      FilterCons(ab, keep);
      FilterCons(a, keep);
      FilterConcat(a[1..], b, keep);
    } else {
      assert a + b == b;
    }
  }

  /** One step of the filter: the head if kept, then the filtered tail. */
  lemma FilterCons<T>(s: seq<T>, keep: T -> bool)
    requires s != []
    ensures Filter(s, keep) == (if keep(s[0]) then [s[0]] else []) + Filter(s[1..], keep)
  {
  }

  /** A filter that keeps every element is the identity. */
  lemma {:induction false} FilterKeepsAll<T>(s: seq<T>, keep: T -> bool)
    requires forall x :: x in s ==> keep(x)
    ensures Filter(s, keep) == s
  {
    if s != [] {
      FilterKeepsAll(s[1..], keep);
    }
  }

  /** Filtering twice with the same predicate is filtering once. */
  lemma FilterIdempotent<T>(s: seq<T>, keep: T -> bool)
    ensures Filter(Filter(s, keep), keep) == Filter(s, keep)
  {
    FilterKeepsAll(Filter(s, keep), keep);
  }

  /** `r` is `s` with some elements dropped, the rest kept in their original order. */
  ghost predicate IsSubsequence<T>(r: seq<T>, s: seq<T>)
    decreases |s|
  {
    r == [] || (s != [] && ((r[0] == s[0] && IsSubsequence(r[1..], s[1..])) || IsSubsequence(r, s[1..])))
  }

  /** A filter keeps the surviving elements in their original relative order. */
  lemma {:induction false} FilterIsSubsequence<T>(s: seq<T>, keep: T -> bool)
    ensures IsSubsequence(Filter(s, keep), s)
  {
    if s != [] {
      FilterIsSubsequence(s[1..], keep);
      var rest := Filter(s[1..], keep);
      var r := Filter(s, keep);
      if keep(s[0]) {
        assert r == [s[0]] + rest;
        assert r[0] == s[0] && r[1..] == rest;
      } else {
        assert r == rest;
      }
    }
  }

  /** The number of elements of `s` satisfying `p`. */
  function Count<T>(s: seq<T>, p: T -> bool): (n: nat)
    ensures n <= |s|
    ensures n == 0 <==> forall x :: x in s ==> !p(x)
  {
    if s == [] then 0
    else
      assert forall x :: x in s ==> x == s[0] || x in s[1..];
      (if p(s[0]) then 1 else 0) + Count(s[1..], p)
  }

  /** `s.filter((_, i) => i !== index)`: removes position `index` when it exists, otherwise keeps `s`. */
  function RemoveAt<T>(s: seq<T>, index: int): (r: seq<T>)
    ensures 0 <= index < |s| ==> |r| == |s| - 1
    ensures 0 <= index < |s| ==> forall i :: 0 <= i < index ==> r[i] == s[i]
    ensures 0 <= index < |s| ==> forall i :: index <= i < |r| ==> r[i] == s[i + 1]
    ensures !(0 <= index < |s|) ==> r == s
  {
    if 0 <= index < |s| then s[..index] + s[index + 1..] else s
  }

  /** `s.slice(0, n)`. */
  function Take<T>(s: seq<T>, n: nat): (r: seq<T>)
    ensures |r| == if n < |s| then n else |s|
    ensures r == s[..|r|]
  {
    if n < |s| then s[..n] else s
  }

  /** `s.map(f)`. */
  function Map<A, B>(s: seq<A>, f: A -> B): (r: seq<B>)
    ensures |r| == |s| && forall i :: 0 <= i < |s| ==> r[i] == f(s[i])
  {
    seq(|s|, i requires 0 <= i < |s| => f(s[i]))
  }

  /** Mapping a sequence with a new head maps the head, then the rest. */
  lemma MapCons<A, B>(x: A, s: seq<A>, f: A -> B)
    ensures Map([x] + s, f) == [f(x)] + Map(s, f)
  {
    var l, r := Map([x] + s, f), [f(x)] + Map(s, f);
    assert forall i :: 1 <= i < |l| ==> l[i] == f(s[i - 1]) == r[i];
  }

  /** `pages.flatMap(f)`: each page's elements, in page order. */
  function FlatMap<P, T>(pages: seq<P>, f: P -> seq<T>): (r: seq<T>)
    ensures pages == [] ==> r == []
  {
    if pages == [] then [] else f(pages[0]) + FlatMap(pages[1..], f)
  }

  /** Flattening a concatenation of page lists concatenates the flattened lists. */
  lemma {:induction false} FlatMapConcat<P, T>(a: seq<P>, b: seq<P>, f: P -> seq<T>)
    ensures FlatMap(a + b, f) == FlatMap(a, f) + FlatMap(b, f)
  {
    if a != [] {
      FlatMapConcat(a[1..], b, f);
      assert (a + b)[1..] == a[1..] + b;
      assert (a + b)[0] == a[0];
    } else {
      assert a + b == b;
    }
  }

  /** Appending one page to the list appends that page's elements at the end. */
  lemma FlatMapSnoc<P, T>(pages: seq<P>, last: P, f: P -> seq<T>)
    ensures FlatMap(pages + [last], f) == FlatMap(pages, f) + f(last)
  {
    FlatMapConcat(pages, [last], f);
    assert FlatMap([last], f) == f(last) + FlatMap([], f);
  }
}
