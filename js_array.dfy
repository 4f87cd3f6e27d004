/**
 * What JavaScript's `Array.prototype.filter` keeps: the front end filters file lists,
 * catalogue entries, checked boxes and text lines, and each filter keeps the elements that
 * pass in their order. The filters themselves are defined where they are used.
 */
module JsArray {
  /** `r` is `xs` with some elements left out and the others kept in their order. */
  predicate IsSubsequence<T(==)>(r: seq<T>, xs: seq<T>)
    decreases |xs|
  {
    if |r| == 0 then true
    else if |xs| == 0 then false
    else (r[0] == xs[0] && IsSubsequence(r[1..], xs[1..])) || IsSubsequence(r, xs[1..])
  }

  /** A filter step that keeps the head: the head followed by a subsequence of the tail. */
  lemma KeepHead<T>(xs: seq<T>, rest: seq<T>)
    requires |xs| > 0 && IsSubsequence(rest, xs[1..])
    ensures IsSubsequence([xs[0]] + rest, xs)
    ensures multiset(xs) == multiset{xs[0]} + multiset(xs[1..])
  {
    assert ([xs[0]] + rest)[1..] == rest;
    assert xs == [xs[0]] + xs[1..];
  }

  /** A filter step that drops the head: a subsequence of the tail. */
  lemma DropHead<T>(xs: seq<T>, rest: seq<T>)
    requires |xs| > 0 && IsSubsequence(rest, xs[1..])
    ensures IsSubsequence(rest, xs)
    ensures multiset(xs) == multiset{xs[0]} + multiset(xs[1..])
  {
    assert xs == [xs[0]] + xs[1..];
  }
}
